/** The JSON-transcript extractor (Agents/JSONExtractLotAgent.py): the lot
    string parser, the prioritised lot search over one page of OCR text, the
    certificate-number and product-name searches, and the per-file and batch
    drivers. Regular-expression searches are inputs: for each pattern the model
    receives what the search captured (see README). */
module JsonExtract {
  import opened Options
  import opened Text
  import opened Lots

  // ---------------------------------------------------------------------------
  // parse_lot

  /** The parsed shape of one raw lot string. */
  datatype LotStructure = LotStructure(
    kind: LotType,
    baseLot: Option<string>,
    count: int,
    expandedLots: seq<string>,
    annotationHint: Option<string>)

  /** Trim the ends, then delete every space. */
  function Normalise(raw: string): (n: string)
    ensures ' ' !in n
  {
    RemoveSpaces(Strip(raw))
  }

  /** Normalising twice is normalising once. */
  lemma NormaliseIdempotent(raw: string)
    ensures Normalise(Normalise(raw)) == Normalise(raw)
  {
    var t := Strip(raw);
    var n := RemoveSpaces(t);
    if t != [] {
      assert n != [] && n[0] == t[0];
      RemoveSpacesKeepsLast(t);
    }
    StripUnchanged(n);
    RemoveSpacesUnchanged(n);
  }

  /** The hyphen rule: a `-` occurs and every non-empty `-`-piece is all digits. */
  predicate HyphenRule(n: string) {
    '-' in n && forall p :: p in SplitOn(n, "-") && p != "" ==> AllDigits(p)
  }

  /** The slash rule: exactly one `/`, with digits on both sides. */
  predicate SlashRule(n: string) {
    '/' in n &&
    var parts := SplitOn(n, "/");
    |parts| == 2 && AllDigits(parts[0]) && AllDigits(parts[1])
  }

  /** The `+k` hint for `count` units sharing one lot. */
  function Hint(count: int): string {
    "+" + IntToString(count - 1)
  }

  function ParseLot(raw: string): (r: LotStructure)
    ensures r.expandedLots != []
    ensures r.kind != Implicit
  {
    var n := Normalise(raw);
    if HyphenRule(n) then
      var parts := SplitOn(n, "-");
      LotStructure(ExplicitMulti, None, |parts|, parts, None)
    else if '/' in n && SlashRule(n) then
      var parts := SplitOn(n, "/");
      var cnt := DigitsValue(parts[1]);
      LotStructure(ImplicitMulti, Some(parts[0]), cnt, [parts[0]], Some(Hint(cnt)))
    else
      LotStructure(Single, Some(n), 1, [n], None)
  }

  /** The hyphen rule decides `explicit_multi`; then the pieces are free of `-`
      and each empty or all digits, joined with `-` they give back the normalised
      string, and `count` is the number of pieces. By `Text.SplitJoin` such pieces
      are the only ones with that join. */
  lemma ParseLotExplicit(raw: string)
    ensures ParseLot(raw).kind == ExplicitMulti <==> HyphenRule(Normalise(raw))
    ensures ParseLot(raw).kind == ExplicitMulti ==>
      var r := ParseLot(raw);
      && JoinOn(r.expandedLots, "-") == Normalise(raw)
      && r.count == |r.expandedLots| >= 2
      && r.baseLot.None? && r.annotationHint.None?
      && forall p :: p in r.expandedLots ==> '-' !in p && (p == "" || AllDigits(p))
  {
    var n := Normalise(raw);
    if HyphenRule(n) {
      JoinSplit(n, "-");
      SplitPresent(n, '-');
      SplitPiecesExclude(n, '-');
    }
  }

  /** The slash rule, reached only when the hyphen rule did not fire, decides
      `implicit_multi`: the normalised string is `base/right` with both sides
      digits, `count` is the value of `right` and the hint is `+(count-1)`. */
  lemma ParseLotImplicit(raw: string)
    ensures ParseLot(raw).kind == ImplicitMulti <==>
      !HyphenRule(Normalise(raw)) && SlashRule(Normalise(raw))
    ensures ParseLot(raw).kind == ImplicitMulti ==>
      var r := ParseLot(raw);
      var right := SplitOn(Normalise(raw), "/")[1];
      && r.baseLot.Some?
      && Normalise(raw) == r.baseLot.value + "/" + right
      && AllDigits(r.baseLot.value) && AllDigits(right)
      && r.count == DigitsValue(right)
      && r.expandedLots == [r.baseLot.value]
      && r.annotationHint == Some(Hint(r.count))
  {
    var n := Normalise(raw);
    if !HyphenRule(n) && SlashRule(n) {
      JoinSplit(n, "/");
      var parts := SplitOn(n, "/");
      assert JoinOn(parts, "/") == parts[0] + "/" + JoinOn(parts[1..], "/");
    }
  }

  /** Every other string is a `single` lot standing for itself. */
  lemma ParseLotSingle(raw: string)
    ensures ParseLot(raw).kind == Single <==>
      !HyphenRule(Normalise(raw)) && !SlashRule(Normalise(raw))
    ensures ParseLot(raw).kind == Single ==>
      ParseLot(raw) == LotStructure(Single, Some(Normalise(raw)), 1, [Normalise(raw)], None)
  {
  }

  /** A digit string contains no character that is not a digit. */
  lemma DigitsExclude(s: string, c: char)
    requires AllDigits(s) && !IsDigit(c)
    ensures c !in s
  {
    assert forall i :: 0 <= i < |s| ==> s[i] != c;
  }

  /** `digits/digits` is already normalised, has no hyphen and splits into its two sides. */
  lemma SlashDigitsShape(left: string, right: string)
    requires AllDigits(left) && AllDigits(right)
    ensures Normalise(left + "/" + right) == left + "/" + right
    ensures '-' !in left + "/" + right && '/' in left + "/" + right
    ensures SplitOn(left + "/" + right, "/") == [left, right]
  {
    var s := left + "/" + right;
    DigitsExclude(left, ' ');
    DigitsExclude(right, ' ');
    DigitsExclude(left, '-');
    DigitsExclude(right, '-');
    DigitsExclude(left, '/');
    DigitsExclude(right, '/');
    assert s[0] == left[0] && s[|s| - 1] == right[|right| - 1];
    StripUnchanged(s);
    assert ' ' !in s && '-' !in s;
    RemoveSpacesUnchanged(s);
    SplitTwo(left, right, '/');
    assert s[|left|] == '/';
  }

  lemma NoHyphenNoRule(n: string)
    requires '-' !in n
    ensures !HyphenRule(n)
  {
  }

  lemma SlashRuleOfSides(n: string, left: string, right: string)
    requires '/' in n && SplitOn(n, "/") == [left, right] && AllDigits(left) && AllDigits(right)
    ensures SlashRule(n)
  {
  }

  /** A normalised string that only the slash rule accepts parses from its two sides. */
  lemma ParseNormalisedSlash(n: string, left: string, right: string)
    requires Normalise(n) == n && '-' !in n && '/' in n && SplitOn(n, "/") == [left, right]
    requires AllDigits(left) && AllDigits(right)
    ensures ParseLot(n) ==
      LotStructure(ImplicitMulti, Some(left), DigitsValue(right), [left], Some(Hint(DigitsValue(right))))
  {
    NoHyphenNoRule(n);
    SlashRuleOfSides(n, left, right);
  }

  /** `digits/digits` parses as `implicit_multi` whatever the length of the right side. */
  lemma ParseDigitsSlashDigits(left: string, right: string)
    requires AllDigits(left) && AllDigits(right)
    ensures ParseLot(left + "/" + right) ==
      LotStructure(ImplicitMulti, Some(left), DigitsValue(right), [left], Some(Hint(DigitsValue(right))))
  {
    SlashDigitsShape(left, right);
    ParseNormalisedSlash(left + "/" + right, left, right);
  }

  /** The hint of a zero count. */
  lemma HintOfZero()
    ensures Hint(0) == "+-1"
  {
    assert NatToString(1) == "1";
  }

  /** A count of zero yields the hint `+-1`. */
  lemma ZeroCountHint(left: string)
    requires AllDigits(left)
    ensures ParseLot(left + "/0").annotationHint == Some("+-1")
  {
    assert AllDigits("0");
    assert left + "/0" == left + "/" + "0";
    ParseDigitsSlashDigits(left, "0");
    assert DigitsValue("0") == 0;
    HintOfZero();
  }

  /** A string of digits parses as the `single` lot made of exactly that string. */
  lemma ParseDigitsIsSingle(s: string)
    requires AllDigits(s)
    ensures ParseLot(s) == LotStructure(Single, Some(s), 1, [s], None)
  {
    assert !IsSpace(s[0]) && !IsSpace(s[|s| - 1]);
    StripUnchanged(s);
    assert ' ' !in s && '-' !in s && '/' !in s by {
      forall i | 0 <= i < |s| ensures s[i] != ' ' && s[i] != '-' && s[i] != '/' { }
    }
    RemoveSpacesUnchanged(s);
  }

  // ---------------------------------------------------------------------------
  // extract_lot_from_text

  /** What the lot searches found in one page of text:
      the group of the first match of `Lot Number : (\d+)`,
      of the same pattern ignoring case, of `Lot\s+Number\s*:\s*(\d+)` ignoring
      case, and the list of all `\b\d{6,7}\b` runs in text order. */
  datatype LotMatches = LotMatches(
    exact: Option<string>,
    noCase: Option<string>,
    spaced: Option<string>,
    digitRuns: seq<string>)

  /** What the patterns guarantee of their captures: digits only. */
  predicate WellFormed(m: LotMatches) {
    && (m.exact.Some? ==> AllDigits(m.exact.value))
    && (m.noCase.Some? ==> AllDigits(m.noCase.value))
    && (m.spaced.Some? ==> AllDigits(m.spaced.value))
    && (forall i :: 0 <= i < |m.digitRuns| ==> AllDigits(m.digitRuns[i]) && 6 <= |m.digitRuns[i]| <= 7)
  }

  /** The three labelled searches, in the order they are tried. */
  function Labelled(m: LotMatches): seq<Option<string>> {
    [m.exact, m.noCase, m.spaced]
  }

  /** The lot the fallback scan prefers whenever it occurs. */
  const PreferredLot := "139928"

  datatype LotData = LotData(lotRaw: string, lotStructured: LotStructure)

  function Found(lot: string): LotData {
    LotData(lot, ParseLot(lot))
  }

  /** The lot the searches pick: the first labelled capture, else `139928`
      when the digit scan found it, else the first digit run. */
  function ChosenLot(m: LotMatches): (r: Option<string>)
    ensures r.None? <==> m.exact.None? && m.noCase.None? && m.spaced.None? && m.digitRuns == []
    ensures FirstSome(Labelled(m)).Some? ==> r == FirstSome(Labelled(m))
    ensures m.exact.None? && m.noCase.None? && m.spaced.None? && r.Some? ==>
      r.value in m.digitRuns && (r.value == PreferredLot <==> PreferredLot in m.digitRuns)
  {
    if m.exact.Some? then m.exact
    else if m.noCase.Some? then m.noCase
    else if m.spaced.Some? then m.spaced
    else if |m.digitRuns| > 0 then
      if PreferredLot in m.digitRuns then Some(PreferredLot) else Some(m.digitRuns[0])
    else None
  }

  function ExtractLotFromText(m: LotMatches): (r: Option<LotData>)
    ensures r.Some? ==> r.value.lotStructured == ParseLot(r.value.lotRaw)
    ensures r.None? <==> m.exact.None? && m.noCase.None? && m.spaced.None? && m.digitRuns == []
  {
    match ChosenLot(m)
    case Some(lot) => Some(Found(lot))
    case None => None
  }

  /** The first labelled search that matched supplies the lot. */
  lemma FirstLabelledWins(m: LotMatches)
    requires FirstSome(Labelled(m)).Some?
    ensures ExtractLotFromText(m) == Some(Found(FirstSome(Labelled(m)).value))
  {
  }

  /** Failing the labels, the scan returns `139928` if that run occurs and
      otherwise the first run in text order. */
  lemma RunFallback(m: LotMatches)
    requires m.exact.None? && m.noCase.None? && m.spaced.None? && m.digitRuns != []
    ensures ExtractLotFromText(m).Some?
    ensures var lot := ExtractLotFromText(m).value.lotRaw;
      && lot in m.digitRuns
      && (PreferredLot in m.digitRuns ==> lot == PreferredLot)
      && (PreferredLot !in m.digitRuns ==> lot == m.digitRuns[0])
  {
  }

  /** Every extracted lot is digits only, so it parses as a `single` lot made
      of exactly the extracted string. */
  lemma ExtractedLotIsSingle(m: LotMatches)
    requires WellFormed(m)
    requires ExtractLotFromText(m).Some?
    ensures var d := ExtractLotFromText(m).value;
      d.lotStructured == LotStructure(Single, Some(d.lotRaw), 1, [d.lotRaw], None)
  {
    ExtractedLotIsDigits(m);
    ParseDigitsIsSingle(ExtractLotFromText(m).value.lotRaw);
  }

  /** Every capture the extractor can return is a digit string. */
  lemma ExtractedLotIsDigits(m: LotMatches)
    requires WellFormed(m)
    requires ExtractLotFromText(m).Some?
    ensures AllDigits(ExtractLotFromText(m).value.lotRaw)
  {
    ChosenLotIsDigits(m);
  }

  lemma ChosenLotIsDigits(m: LotMatches)
    requires WellFormed(m)
    requires ChosenLot(m).Some?
    ensures AllDigits(ChosenLot(m).value)
  {
    if m.exact.None? && m.noCase.None? && m.spaced.None? && PreferredLot in m.digitRuns {
      assert AllDigits(PreferredLot) by {
        forall i | 0 <= i < |PreferredLot| ensures IsDigit(PreferredLot[i]) { }
      }
    }
  }

  // ---------------------------------------------------------------------------
  // extract_certification_number and extract_product_name

  /** The group of `Certificate Number : ([A-Za-z]+-\d+)`, else of `(Dokki-\d+)`,
      else the sentinel. */
  function CertificationNumber(labelled: Option<string>, dokki: Option<string>): (r: string)
    ensures labelled.Some? ==> r == labelled.value
    ensures labelled.None? ==> r == dokki.GetOr(Unknown)
  {
    if labelled.Some? then labelled.value else dokki.GetOr(Unknown)
  }

  /** The product names looked for, in order, when no `Sample :` line matched. */
  const KnownProducts: seq<string> := ["Basil", "Fennel", "Peppermint", "Marjoram"]

  /** The first of `names` that occurs in `text`. */
  function FirstOccurring(names: seq<string>, text: string): (r: Option<string>)
    ensures r.Some? ==> r.value in names && Occurs(r.value, text)
    ensures r.None? <==> forall i :: 0 <= i < |names| ==> !Occurs(names[i], text)
  {
    if |names| == 0 then None
    else if Occurs(names[0], text) then Some(names[0])
    else FirstOccurring(names[1..], text)
  }

  /** A name that occurs wins when none before it occurs. */
  lemma {:induction false} FirstOccurringAt(names: seq<string>, text: string, i: nat)
    requires i < |names| && Occurs(names[i], text)
    requires forall j :: 0 <= j < i ==> !Occurs(names[j], text)
    ensures FirstOccurring(names, text) == Some(names[i])
  {
    if i > 0 {
      assert !Occurs(names[0], text);
      FirstOccurringAt(names[1..], text, i - 1);
    }
  }

  /** The `Sample : ([A-Za-z]+)` capture, else the first known product occurring
      in the text, else the sentinel. */
  function ProductName(sample: Option<string>, text: string): (r: string)
    ensures sample.Some? ==> r == sample.value
    ensures sample.None? ==> (r == Unknown <==> forall i :: 0 <= i < |KnownProducts| ==> !Occurs(KnownProducts[i], text))
    ensures sample.None? && r != Unknown ==> r in KnownProducts && Occurs(r, text)
  {
    if sample.Some? then sample.value
    else FirstOccurring(KnownProducts, text).GetOr(Unknown)
  }

  // ---------------------------------------------------------------------------
  // process_json and process_all

  /** One page of the OCR transcript, a JSON object with string fields. */
  type Page = map<string, string>

  function Get(page: Page, key: string, default: string): string {
    if key in page then page[key] else default
  }

  /** The regular-expression searches, as functions of the page text. */
  datatype Scanners = Scanners(
    lots: string -> LotMatches,
    certificateLabel: string -> Option<string>,
    dokki: string -> Option<string>,
    sample: string -> Option<string>)

  /** The OCR text of the first page, or "" when there is none. */
  function FirstPageText(doc: Option<seq<Page>>): string {
    if doc.None? || |doc.value| == 0 then "" else Get(doc.value[0], "ocr_text", "")
  }

  /** A loaded transcript (None when the file could not be read) to an
      extraction record, from its first page only. */
  function ProcessJson(doc: Option<seq<Page>>, scan: Scanners, now: string): (r: Option<ExtractionResult>)
    ensures r.Some? <==> FirstPageText(doc) != "" && ExtractLotFromText(scan.lots(FirstPageText(doc))).Some?
    ensures r.Some? ==>
      var text := FirstPageText(doc);
      var lot := ExtractLotFromText(scan.lots(text)).value;
      && r.value.lotNumbers == lot.lotStructured.expandedLots
      && r.value.lotInfo == [LotInfo(lot.lotRaw, lot.lotStructured.kind, None)]
      && r.value.lotStructure == TypeName(lot.lotStructured.kind)
      && r.value.certificationNumber == CertificationNumber(scan.certificateLabel(text), scan.dokki(text))
      && r.value.productName == ProductName(scan.sample(text), text)
      && r.value.extractionTime == now
      && r.value.filePath == Get(doc.value[0], "pdf_file", "")
      && r.value.fileName == Get(doc.value[0], "pdf_file", "unknown")
  {
    if doc.None? || |doc.value| == 0 then None
    else
      var page := doc.value[0];
      if page == map[] then None
      else
        var text := Get(page, "ocr_text", "");
        if text == "" then None
        else
          match ExtractLotFromText(scan.lots(text))
          case None => None
          case Some(lot) =>
            Some(ExtractionResult(
              Get(page, "pdf_file", ""),
              Get(page, "pdf_file", "unknown"),
              CertificationNumber(scan.certificateLabel(text), scan.dokki(text)),
              ProductName(scan.sample(text), text),
              lot.lotStructured.expandedLots,
              [LotInfo(lot.lotRaw, lot.lotStructured.kind, None)],
              TypeName(lot.lotStructured.kind),
              now))
  }

  /** Pages after the first are never consulted. */
  lemma ProcessJsonReadsFirstPageOnly(first: Page, rest1: seq<Page>, rest2: seq<Page>, scan: Scanners, now: string)
    ensures ProcessJson(Some([first] + rest1), scan, now) == ProcessJson(Some([first] + rest2), scan, now)
  {
    assert ([first] + rest1)[0] == first == ([first] + rest2)[0];
  }

  /** Under well-formed captures a successful result holds exactly the one
      extracted lot, tagged `single`. */
  lemma ProcessJsonSingleLot(doc: Option<seq<Page>>, scan: Scanners, now: string)
    requires WellFormed(scan.lots(FirstPageText(doc)))
    requires ProcessJson(doc, scan, now).Some?
    ensures var r := ProcessJson(doc, scan, now).value;
      && r.lotNumbers == [r.lotInfo[0].num]
      && r.lotInfo[0].kind == Single
      && r.lotStructure == "single"
  {
    ExtractedLotIsSingle(scan.lots(FirstPageText(doc)));
  }

  /** The results of the files that yielded one, in file order. */
  function Successes(docs: seq<Option<seq<Page>>>, scan: Scanners, now: string): (rs: seq<ExtractionResult>)
    ensures |rs| <= |docs|
  {
    if |docs| == 0 then []
    else
      var last := ProcessJson(docs[|docs| - 1], scan, now);
      Successes(docs[..|docs| - 1], scan, now) + (if last.Some? then [last.value] else [])
  }

  /** There are never more results than files, and as many when every file yields one. */
  lemma {:induction false} SuccessesBound(docs: seq<Option<seq<Page>>>, scan: Scanners, now: string)
    ensures |Successes(docs, scan, now)| <= |docs|
    ensures (forall i :: 0 <= i < |docs| ==> ProcessJson(docs[i], scan, now).Some?) ==>
      |Successes(docs, scan, now)| == |docs|
  {
    if |docs| > 0 {
      var init := docs[..|docs| - 1];
      SuccessesBound(init, scan, now);
      if forall i :: 0 <= i < |docs| ==> ProcessJson(docs[i], scan, now).Some? {
        assert forall i :: 0 <= i < |init| ==> init[i] == docs[i];
        assert ProcessJson(docs[|docs| - 1], scan, now).Some?;
      }
    }
  }

  /** Every result is the result of one of the files. */
  lemma {:induction false} SuccessesComeFromFiles(docs: seq<Option<seq<Page>>>, scan: Scanners, now: string, r: ExtractionResult)
    requires r in Successes(docs, scan, now)
    ensures exists i :: 0 <= i < |docs| && ProcessJson(docs[i], scan, now) == Some(r)
  {
    var init := docs[..|docs| - 1];
    var last := ProcessJson(docs[|docs| - 1], scan, now);
    if r in Successes(init, scan, now) {
      SuccessesComeFromFiles(init, scan, now, r);
      var i :| 0 <= i < |init| && ProcessJson(init[i], scan, now) == Some(r);
      assert docs[i] == init[i];
    } else {
      assert last == Some(r);
    }
  }

  lemma SuccessesSnoc(docs: seq<Option<seq<Page>>>, scan: Scanners, now: string, i: nat)
    requires i < |docs|
    ensures var r := ProcessJson(docs[i], scan, now);
      Successes(docs[..i + 1], scan, now) == Successes(docs[..i], scan, now) + (if r.Some? then [r.value] else [])
  {
    assert docs[..i + 1][..i] == docs[..i];
  }

  /** Process the transcripts in order, keeping each result that is not None. */
  method ProcessAll(docs: seq<Option<seq<Page>>>, scan: Scanners, now: string)
    returns (results: seq<ExtractionResult>)
    ensures results == Successes(docs, scan, now)
  {
    results := [];
    var i := 0;
    while i < |docs|
      invariant 0 <= i <= |docs|
      invariant results == Successes(docs[..i], scan, now)
    {
      var result := ProcessJson(docs[i], scan, now);
      if result.Some? {
        results := results + [result.value];
      }
      SuccessesSnoc(docs, scan, now, i);
      i := i + 1;
    }
    assert docs[..|docs|] == docs;
  }
}
