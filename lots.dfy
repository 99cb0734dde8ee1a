/** Values shared by the extractors and the ERP lookup: the tags attached to
    each extracted lot and the per-certificate extraction record. */
module Lots {
  import opened Options

  /** The `type` tag of a lot entry. The JSON extractor uses the three
      structure names of its parser; the OCR extractor tags a short-suffix
      match `implicit` instead of `implicit_multi`. */
  datatype LotType = Single | ExplicitMulti | ImplicitMulti | Implicit

  function TypeName(t: LotType): string {
    match t
    case Single => "single"
    case ExplicitMulti => "explicit_multi"
    case ImplicitMulti => "implicit_multi"
    case Implicit => "implicit"
  }

  /** One `lot_info` entry: the lot, its tag and, for `implicit`, the count. */
  datatype LotInfo = LotInfo(num: string, kind: LotType, count: Option<int>)

  /** The record both extractors hand to the ERP agent. */
  datatype ExtractionResult = ExtractionResult(
    filePath: string,
    fileName: string,
    certificationNumber: string,
    productName: string,
    lotNumbers: seq<string>,
    lotInfo: seq<LotInfo>,
    lotStructure: string,
    extractionTime: string)

  /** The sentinel for a certificate number or product name that was not found. */
  const Unknown := "UNKNOWN"
}
