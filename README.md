# Lot-number logic of the certificate agent, in Dafny

This project models the lot-number pipeline of a certificate agent. The agent reads quality certificates from suppliers and pulls out their lot numbers. It looks each lot up in the company's ERP workbook. It stamps the supplier and internal lot on the PDF, prints it, and files it. The model covers five parts of that pipeline:

- **`json_extract.dfy`** (`JsonExtract`, `Agents/JSONExtractLotAgent.py`). The lot-string parser classifies a normalised string as a single lot, an explicit list `a-b-c` or an implicit count `base/n`. The text extractor tries labelled lot patterns first, then falls back to runs of six or seven digits. It also picks the certificate number and the product name. The driver turns first-page transcripts into extraction records.
- **`ocr_extract.dfy`** (`OcrExtract`, `Agents/ExtractLotAgent.py`). It folds the matches of all patterns into two lists kept in step: the distinct lot numbers, and their typed info records. It applies the year and keyword false-positive veto, and computes the aggregate lot-type label, the certificate number and the result record.
- **`erp.dfy`** (`Erp`, `Agents/ERPAgent.py`). The `ErpAgent` class keeps its per-sheet cache as a `map` field. It looks each lot up across the sheets in priority order, normalising the key column. It builds the annotation text and the `all_found` flag.
- **`annotate_print.dfy`** (`AnnotatePrint`, `Agents/AnnotatePrintAgent.py`). It covers the two-line split and box height of the annotation, the bounded print retry, and the ordered search for the PDF. It also covers the control flow of one certificate as a list of file effects, and the printed/annotated tally.
- **`file_utils.dfy`** (`FileUtils`, `utils/file_utils.py`). It covers `splitext` and `create_unique_filename`, which tries `name.ext`, `name_1.ext`, `name_2.ext`, ... until a name is free.

Two helper modules support them:

- `text.dfy` (`Text`) holds the Python string operations the code uses: `strip`, `split`, `join`, `replace`, `isdigit`, `int` and `str`.
- `options.dfy` (`Options`) holds `Option`.

`lots.dfy` (`Lots`) holds the records shared by the extractors and the ERP step.

The outside world is given as values: regular-expression matches, the workbook's readable sheets, the file system, printer answers and clock readings. Every operation is a function of those values. Loops in the source are methods with loop invariants. Each such method is proved equal to a recursive specification function, and the properties are proved as lemmas about that function.

Where the code and its comments disagree, the model follows the code:

- `generate_annotation_text` renders an entry as supplier, two spaces, then internal lot, and joins entries with the two characters `\` `n`. The comment above it promises a `lot` word. So the `" lot "` split in `build_annotated_pdf` splits the annotation only when a supplier or internal lot itself contains `" lot "`; an internal lot such as `lot 2601` renders as `X  lot 2601` and is split. The sentinel is proved to be drawn on one line (`AnnotatePrint.SentinelOneLine`).
- `parse_lot` has no length test on the parts of a hyphen list, and none on the right side of a slash. `/0` therefore yields the hint `+-1` (`JsonExtract.ZeroCountHint`).
- `ExtractLotAgent.process_certificate` returns a record even when no lot is found. Its label is then `unknown`.

## Model

| member | source | states |
|---|---|---|
| Text.Strip | Agents/JSONExtractLotAgent.py:39 | `str.strip()` with no argument: the result neither starts nor ends with a character Python counts as whitespace (tab to carriage return, 0x1C-0x1F, space, 0x85, no-break space and the Unicode space separators) and is no longer than the input |
| Text.RemoveSpaces | Agents/JSONExtractLotAgent.py:39 | `replace(' ', '')`: no space is left |
| Text.SplitOn | Agents/JSONExtractLotAgent.py:42 | `str.split(sep)` always yields at least one piece |
| Text.JoinSplit | Agents/JSONExtractLotAgent.py:42-47 | joining the pieces of a split with the separator gives back the string |
| Text.SplitAbsent | Agents/JSONExtractLotAgent.py:51-52 | splitting on a character the string lacks yields the string alone |
| Text.SplitPresent | Agents/JSONExtractLotAgent.py:51-52 | splitting on a character the string holds yields at least two pieces |
| Text.SplitTwo | Agents/JSONExtractLotAgent.py:51-53 | `a + c + b` with `c` in neither part splits on `c` into exactly `[a, b]` |
| Text.SplitPiecesExclude | Agents/JSONExtractLotAgent.py:42 | no piece of a split on a character contains that character |
| Text.SplitAfterFree | Agents/JSONExtractLotAgent.py:42 | a separator-free first piece is split off whole |
| Text.SplitJoin | Agents/JSONExtractLotAgent.py:42-47 | splitting a join of separator-free pieces gives back the pieces: the inverse of `Text.JoinSplit` |
| Text.DeleteAll | Agents/ERPAgent.py:57 | `replace('.0', '')` removes occurrences left to right without rescanning |
| Text.DeleteAllIsJoinOfSplit | Agents/ERPAgent.py:57 | deleting every occurrence equals splitting on the pattern and joining with nothing |
| Text.DeleteAllKeepsPrefix | Agents/ERPAgent.py:57 | a prefix that cannot start the pattern survives the deletion unchanged |
| Text.NatToString | Agents/JSONExtractLotAgent.py:60 | `str(n)` of a natural is all digits |
| Text.DigitsValueOfNatToString | Agents/JSONExtractLotAgent.py:54-60 | `int(str(n)) == n` |
| Text.NatToStringInjective | utils/file_utils.py:70-72 | different counters print differently |
| Text.StripUnchanged | Agents/ERPAgent.py:74 | stripping a string without surrounding whitespace leaves it unchanged |
| Text.RemoveSpacesUnchanged | Agents/JSONExtractLotAgent.py:39 | removing spaces from a text without spaces leaves it unchanged |
| Options.FirstSome | Agents/JSONExtractLotAgent.py:77-104 | the first present alternative: None exactly when all are absent, otherwise one of them |
| Options.FirstSomeAt | Agents/JSONExtractLotAgent.py:77-104 | the alternative at the first present index is the one chosen |
| JsonExtract.Normalise | Agents/JSONExtractLotAgent.py:39 | the normalised lot holds no space |
| JsonExtract.NormaliseIdempotent | Agents/JSONExtractLotAgent.py:39 | normalising twice equals normalising once |
| JsonExtract.ParseLot | Agents/JSONExtractLotAgent.py:37-69 | the parse is total, the expanded list is never empty, and the `implicit` tag never arises here |
| JsonExtract.ParseLotExplicit | Agents/JSONExtractLotAgent.py:41-49 | `explicit_multi` exactly when there is a hyphen and every non-empty piece is digits; then every piece is free of `-` and empty or all digits, the pieces join back to the normalised text (so, by `Text.SplitJoin`, they are its split on `-`), count = number of pieces (at least two), no base and no hint |
| JsonExtract.ParseLotImplicit | Agents/JSONExtractLotAgent.py:51-61 | `implicit_multi` exactly when the hyphen rule fails and there is one slash with digits on both sides; then base = left, count = int(right), expanded = [left], hint = `+` str(count-1) |
| JsonExtract.ParseLotSingle | Agents/JSONExtractLotAgent.py:63-69 | `single` exactly when neither rule fires; then base = normalised, count 1, expanded = [normalised], no hint |
| JsonExtract.ParseDigitsSlashDigits | Agents/JSONExtractLotAgent.py:51-61 | `d1/d2` parses as implicit with base d1 and count int(d2), whatever the length of d2 |
| JsonExtract.SlashDigitsShape | Agents/JSONExtractLotAgent.py:39-52 | `d1/d2` is unchanged by normalisation, holds no hyphen, and splits on `/` into `[d1, d2]` |
| JsonExtract.ParseNormalisedSlash | Agents/JSONExtractLotAgent.py:51-61 | a normalised string without hyphen whose slash split is two digit strings parses as implicit from those two sides |
| JsonExtract.ZeroCountHint | Agents/JSONExtractLotAgent.py:54-60 | `d/0` yields the hint `+-1` |
| JsonExtract.HintOfZero | Agents/JSONExtractLotAgent.py:60 | the hint for count 0 is `+-1` |
| JsonExtract.ParseDigitsIsSingle | Agents/JSONExtractLotAgent.py:63-69 | a digit string parses as a single lot of itself |
| JsonExtract.DigitsExclude | Agents/JSONExtractLotAgent.py:41-52 | a digit string holds no non-digit character, so neither a hyphen nor a slash |
| JsonExtract.ExtractLotFromText | Agents/JSONExtractLotAgent.py:71-123 | None exactly when no labelled pattern and no digit run matches; a found lot comes with its parse |
| JsonExtract.FirstLabelledWins | Agents/JSONExtractLotAgent.py:77-104 | the first labelled pattern that matches supplies the lot |
| JsonExtract.ChosenLot | Agents/JSONExtractLotAgent.py:77-120 | None exactly when no search found anything; the first labelled capture when there is one; otherwise a digit run, `139928` exactly when that run occurs |
| JsonExtract.RunFallback | Agents/JSONExtractLotAgent.py:106-120 | with no labelled match, the lot is `139928` when that run occurs, else the first run |
| JsonExtract.ExtractedLotIsSingle | Agents/JSONExtractLotAgent.py:77-120 | every extracted lot is digits only, so it parses as single with expanded = [lot] |
| JsonExtract.ExtractedLotIsDigits | Agents/JSONExtractLotAgent.py:77-120 | the extracted raw lot is a digit string |
| JsonExtract.ChosenLotIsDigits | Agents/JSONExtractLotAgent.py:77-120 | every capture the searches can pick, `139928` included, is a digit string |
| JsonExtract.CertificationNumber | Agents/JSONExtractLotAgent.py:125-136 | the labelled certificate number, else the Dokki number, else `UNKNOWN` |
| JsonExtract.FirstOccurring | Agents/JSONExtractLotAgent.py:142-144 | the first listed name that occurs in the text, None when none occurs |
| JsonExtract.FirstOccurringAt | Agents/JSONExtractLotAgent.py:142-144 | the name at the first occurring index is the one chosen |
| JsonExtract.ProductName | Agents/JSONExtractLotAgent.py:138-145 | the sample capture, else a known product occurring in the text, `UNKNOWN` exactly when none occurs |
| JsonExtract.ProcessJson | Agents/JSONExtractLotAgent.py:147-184 | a record exactly when the first page has text and a lot is found; lot_numbers = expanded lots, lot_info = one entry for the raw lot, file_path = the page's `pdf_file` or "", file_name = `pdf_file` or `unknown`, and the other fields as extracted |
| JsonExtract.ProcessJsonReadsFirstPageOnly | Agents/JSONExtractLotAgent.py:153-162 | pages after the first do not affect the result |
| JsonExtract.ProcessJsonSingleLot | Agents/JSONExtractLotAgent.py:167-178 | a produced record holds one single lot whose number is the raw lot |
| JsonExtract.Successes | Agents/JSONExtractLotAgent.py:186-202 | no more records than files |
| JsonExtract.SuccessesBound | Agents/JSONExtractLotAgent.py:194-200 | no more results than files, and one per file when every file yields one |
| JsonExtract.SuccessesComeFromFiles | Agents/JSONExtractLotAgent.py:194-200 | every result is the record of one of the files |
| JsonExtract.ProcessAll | Agents/JSONExtractLotAgent.py:186-202 | the loop returns the successful records in file order |
| OcrExtract.AnyKeywordHit | Agents/ExtractLotAgent.py:226-233 | true exactly when some keyword pattern with the number matches |
| OcrExtract.IsFalsePositive | Agents/ExtractLotAgent.py:219-234 | true exactly for 2023 to 2026, or when a Date, Year, Page or Certificate pattern followed by the number matches |
| OcrExtract.Step | Agents/ExtractLotAgent.py:192-215 | one match adds at most one number, two when its right side has five or more characters |
| OcrExtract.StepAligned | Agents/ExtractLotAgent.py:192-215 | one match keeps the two lists the same length, matched by index, with no number twice |
| OcrExtract.StepMembership | Agents/ExtractLotAgent.py:192-215 | after a match a number is listed exactly when it was listed before or the match contributes it |
| OcrExtract.StepExtends | Agents/ExtractLotAgent.py:192-215 | a match only appends: both lists are extended, never changed |
| OcrExtract.FoldAligned | Agents/ExtractLotAgent.py:177-217 | the lists stay aligned and duplicate-free over any stream of matches |
| OcrExtract.FoldMembership | Agents/ExtractLotAgent.py:177-217 | a number is listed exactly when some match in the stream contributes it |
| OcrExtract.FoldPrefix | Agents/ExtractLotAgent.py:181-215 | the lists after a prefix of the stream are prefixes of the final lists: insertion order is pattern order, then match order |
| OcrExtract.TwoGroupsNeverFiltered | Agents/ExtractLotAgent.py:192-206 | the left side of every two-group match is listed, and so is a right side of five or more characters |
| OcrExtract.FoldSnoc | Agents/ExtractLotAgent.py:181-215 | the lists after one more match are that match's step on the lists before it |
| OcrExtract.StepTag | Agents/ExtractLotAgent.py:192-215 | a match that contributes a new number appends it with the match's tag: `explicit_multi` for a long right side, `implicit` with count `int(second)` for a short one, `single` for one group |
| OcrExtract.FoldTags | Agents/ExtractLotAgent.py:177-217 | a number some match contributes is listed, and its `lot_info` entry carries the kind and count of the first match that contributes it |
| OcrExtract.RecordMatch | Agents/ExtractLotAgent.py:192-215 | the body of the inner loop performs exactly one step |
| OcrExtract.RecordPattern | Agents/ExtractLotAgent.py:181-215 | the inner loop over one pattern's matches extends the fold by exactly those matches |
| OcrExtract.ExtractLotNumbers | Agents/ExtractLotAgent.py:177-217 | the nested loops compute the fold over all matches in pattern order, and the lists are aligned; the membership, order and tags of that fold are `FoldMembership`, `FoldPrefix` and `FoldTags` |
| OcrExtract.Kinds | Agents/ExtractLotAgent.py:298-306 | the tags of the info records, by index |
| OcrExtract.CountKindIsMultiplicity | Agents/ExtractLotAgent.py:302 | the `explicit_multi` count equals the tag's multiplicity |
| OcrExtract.DetermineLotType | Agents/ExtractLotAgent.py:295-306 | the label is one of `unknown`, `implicit_multi`, `explicit_multi`, `single`, `multiple` |
| OcrExtract.DetermineLotTypeByTags | Agents/ExtractLotAgent.py:295-306 | the label depends only on the multiset of tags |
| OcrExtract.DetermineLotTypeCases | Agents/ExtractLotAgent.py:295-306 | five iff cases: unknown for none, implicit_multi for any implicit, explicit_multi for two or more explicit, single for one entry, multiple otherwise |
| OcrExtract.CertNumberFirstAccepted | Agents/ExtractLotAgent.py:236-250 | the first pattern whose stripped first match is longer than 3 characters supplies the number |
| OcrExtract.CertNumberNoneAccepted | Agents/ExtractLotAgent.py:250 | `UNKNOWN` when no pattern's match is accepted |
| OcrExtract.CertNumberOf | Agents/ExtractLotAgent.py:236-250 | `UNKNOWN`, or the stripped group of some accepted search |
| OcrExtract.ExtractCertificationNumber | Agents/ExtractLotAgent.py:236-250 | the search loop with early return computes the first accepted number |
| OcrExtract.ProductNameOf | Agents/ExtractLotAgent.py:252-260 | `UNKNOWN` without a sample capture, otherwise the capture stripped of surrounding whitespace and no longer than it |
| OcrExtract.ProductNameOfStable | Agents/ExtractLotAgent.py:252-260 | a product name fed back as the capture is returned unchanged |
| OcrExtract.ProcessCertificate | Agents/ExtractLotAgent.py:262-293 | None exactly for empty text; otherwise the assembled record, with the path given and the file name its `os.path.basename`, aligned lists, and the label `unknown` when no lot is found |
| Erp.ResolveColumns | Agents/ERPAgent.py:16-20 | a column missing from the mapping defaults to `NO`, `Lot Num.` or `Supplier` |
| Erp.NormaliseKey | Agents/ERPAgent.py:57 | the key is never longer than the cell |
| Erp.NormaliseFloatCell | Agents/ERPAgent.py:57 | a float-rendered cell `139928.0` yields the key `139928` |
| Erp.NormaliseKeySinglePass | Agents/ERPAgent.py:57 | the deletion is one pass: `1..00` becomes `1.0`, which a second pass would turn into `1` |
| Erp.StrippedHeaders | Agents/ERPAgent.py:43 | every header is stripped, by index |
| Erp.LoadFresh | Agents/ERPAgent.py:42-57 | no table exactly when the sheet cannot be read or lacks a required column; otherwise one normalised row per sheet row |
| Erp.AfterLoad | Agents/ERPAgent.py:36-60 | one load adds the sheet, with its fresh table, exactly when it was not cached and loads with every column; every other entry is kept |
| Erp.AfterLoadsValid | Agents/ERPAgent.py:36-60 | loading keeps every cached table equal to a fresh load and never drops or changes an entry |
| Erp.AfterLoadValid | Agents/ERPAgent.py:38-59 | one load keeps the cache valid and never drops or changes an entry |
| Erp.AfterLoadsKeys | Agents/ERPAgent.py:51-59 | a sheet is cached exactly when it was cached before, or was loaded and has all columns |
| Erp.AfterLoadsSnoc | Agents/ERPAgent.py:36-60 | loading one more sheet is one more load step |
| Erp.AfterLoadsAppend | Agents/ERPAgent.py:36-60 | loading two lists in turn is loading them one after the other |
| Erp.SettledLoadsUnchanged | Agents/ERPAgent.py:38-39 | loading sheets that are cached or unloadable changes nothing |
| Erp.AfterLoadsTwice | Agents/ERPAgent.py:38-39 | loading the same sheets again changes nothing |
| Erp.FindIndex | Agents/ERPAgent.py:76-79 | the first index of the key, None exactly when absent |
| Erp.Keys | Agents/ERPAgent.py:76 | the key column of the table, by index |
| Erp.ReKeys | Agents/ERPAgent.py:84 | the key column with `.0` deleted again, by index |
| Erp.RowIn | Agents/ERPAgent.py:67-94 | the row comes from the table; an exact key match is found; otherwise a row is found exactly when the query passes the float probe and matches a re-normalised key, and the row returned then has a re-normalised key equal to the query |
| Erp.FirstExactRowWins | Agents/ERPAgent.py:76-79 | the first row with the exact key is the one returned |
| Erp.FirstReKeyedRowWins | Agents/ERPAgent.py:82-86 | with no exact key and a float-like query, the first row whose key with `.0` deleted again equals the query is the one returned |
| Erp.Hits | Agents/ERPAgent.py:107-108 | what each sheet yields for the lot, by index |
| Erp.FirstHitFinds | Agents/ERPAgent.py:107-118 | the search finds nothing exactly when no sheet yields a row, otherwise the row of some sheet |
| Erp.FirstHitWins | Agents/ERPAgent.py:107-115 | the first yielding sheet wins and the sheets up to it are the only ones read |
| Erp.FirstHitStep | Agents/ERPAgent.py:107-115 | one turn of the sheet loop: a hit ends the search, a miss moves to the next sheet |
| Erp.FirstSheetWins | Agents/ERPAgent.py:96-118 | the first sheet in priority order holding the lot supplies it, and later sheets are not read |
| Erp.NoSheetHolds | Agents/ERPAgent.py:116-118 | with no hit every sheet is read and nothing is found |
| Erp.Lookup | Agents/ERPAgent.py:96-118 | nothing exactly when no sheet yields a row for the lot; otherwise a configured sheet and the row it yields |
| Erp.SheetLoopStep | Agents/ERPAgent.py:107-115 | one turn of the loop in `search_lot`: a hit fixes the outcome and the sheets read, a miss carries the search invariant to the next sheet |
| Erp.SheetLoopCache | Agents/ERPAgent.py:107-108 | the load of one more turn extends the loads of the earlier turns |
| Erp.SearchOutcome | Agents/ERPAgent.py:96-118 | found exactly when some sheet holds the lot; otherwise supplier, internal lot and sheet are None; the sheet found is a configured sheet |
| Erp.WithContext | Agents/ERPAgent.py:120-130 | an implicit lot that was found gets `is_implicit` and its count (default 1); every other lot keeps the plain result |
| Erp.LotOutcomes | Agents/ERPAgent.py:132-147 | one result per lot, in order, each for its own lot |
| Erp.LotsProbedStep | Agents/ERPAgent.py:142-145 | looking up one more lot loads exactly the sheets that lookup reads |
| Erp.Rendered | Agents/ERPAgent.py:153-162 | no more entries than results |
| Erp.RenderedEntries | Agents/ERPAgent.py:153-162 | nothing renders exactly when no result renders, and every rendered entry is some result's rendering |
| Erp.RenderedFrom | Agents/ERPAgent.py:153-162 | a rendered entry is the rendering of some result |
| Erp.RenderedPrefix | Agents/ERPAgent.py:153-162 | the entries of the first results are a prefix of all entries |
| Erp.RenderedInOrder | Agents/ERPAgent.py:153-162 | every result that renders has its entry in the rendering, at the position counting the entries before it, so in result order |
| Erp.SentinelHasNoDoubleSpace | Agents/ERPAgent.py:151 | the sentinel holds no two consecutive spaces |
| Erp.JoinOnStartsWithFirst | Agents/ERPAgent.py:166 | a join starts with its first piece |
| Erp.EntryHasDoubleSpace | Agents/ERPAgent.py:160 | every rendered entry holds two consecutive spaces |
| Erp.PrefixDoubleSpace | Agents/ERPAgent.py:166 | a text that starts with a double space piece holds a double space |
| Erp.RenderedNotSentinel | Agents/ERPAgent.py:163-166 | a join of rendered entries is never the sentinel |
| Erp.AnnotationSentinel | Agents/ERPAgent.py:149-166 | the annotation is the sentinel exactly when no result renders |
| Erp.AnnotationText | Agents/ERPAgent.py:149-166 | the sentinel when nothing is found or nothing renders, otherwise the entries joined by the separator |
| Erp.GenerateAnnotationText | Agents/ERPAgent.py:149-166 | the loop computes the annotation text |
| Erp.CountFound | Agents/ERPAgent.py:174 | the found count is at most the number of lots |
| Erp.CountFoundAll | Agents/ERPAgent.py:174-175 | the count equals the number of lots exactly when every lot was found |
| Erp.AllFoundMeansEveryLot | Agents/ERPAgent.py:168-188 | `all_found` exactly when there are lots and every one is in some sheet |
| Erp.CertOutcomes | Agents/ERPAgent.py:195-197 | one record per extraction |
| Erp.CertOutcomesAt | Agents/ERPAgent.py:195-197 | the i-th record is the i-th extraction's, in order |
| Erp.ErpAgent.constructor | Agents/ERPAgent.py:12-21 | the configured sheets and columns, else the defaults, and an empty cache |
| Erp.ErpAgent.LoadExcelSheet | Agents/ERPAgent.py:36-65 | the table of a fresh load, the cached one when cached, a cache that stores only complete sheets and stays valid |
| Erp.ErpAgent.SearchLotInSheet | Agents/ERPAgent.py:67-94 | the row the sheet yields for the lot, loading the sheet through the cache |
| Erp.ErpAgent.SearchLot | Agents/ERPAgent.py:96-118 | the first-sheet-wins result, having loaded exactly the sheets up to the hit |
| Erp.ErpAgent.ProcessLotWithContext | Agents/ERPAgent.py:120-130 | the context result of the search; the repeated search of a missing implicit lot leaves the cache as one search would |
| Erp.ErpAgent.SearchMultipleLots | Agents/ERPAgent.py:132-147 | one result per lot, in order, with its info by index |
| Erp.ErpAgent.ProcessCertificate | Agents/ERPAgent.py:168-193 | the certificate record: results, annotation, `all_found` and the carried fields |
| Erp.ErpAgent.ProcessAll | Agents/ERPAgent.py:195-197 | the records of all extractions, in order |
| Erp.ErpAgent.Run | Agents/ERPAgent.py:199-203 | `[]` and an untouched cache for None or an empty list, otherwise the records in order and the cache after loading every sheet read |
| FileUtils.LastIndex | utils/file_utils.py:62 | the last index of a separator or dot, -1 when there is none |
| FileUtils.SplitExt | utils/file_utils.py:61-62 | the stem and extension rebuild the name; the extension is empty or one dot with no further dot or separator, and dots alone before it do not count; conversely, a last dot after the last separator with a non-dot character before it in the component always starts the extension |
| FileUtils.Attempt | utils/file_utils.py:68-71 | every tried name is at least as long as stem and extension together, and only the first is exactly that long |
| FileUtils.AttemptShape | utils/file_utils.py:68-71 | every tried name starts with the stem and ends with the extension |
| FileUtils.AttemptInjective | utils/file_utils.py:67-72 | different counters try different names |
| FileUtils.NotYetTried | utils/file_utils.py:70-72 | a counter's name was not among the names tried before it |
| FileUtils.NextAttempt | utils/file_utils.py:70-72 | a taken name moves the search on: the untried names shrink and every name so far is taken |
| FileUtils.FirstFreeAt | utils/file_utils.py:70-74 | the name at step k, with every earlier name taken, is the first free step |
| FileUtils.CreateUniqueFilename | utils/file_utils.py:59-74 | the name is not in the directory; it is the first free one in the order tried; the plain name when that is free |
| AnnotatePrint.SplitAnnotation | Agents/AnnotatePrintAgent.py:80-86 | two pieces give a second line starting with `lot `; any other count gives the whole text on one line |
| AnnotatePrint.BoxHeight | Agents/AnnotatePrintAgent.py:110 | 45 exactly when there is a second line, otherwise 25 |
| AnnotatePrint.DrawnLines | Agents/AnnotatePrintAgent.py:116-121 | only non-empty lines are drawn, one per non-empty line, the first line on top and the second at the bottom |
| AnnotatePrint.TallBoxIffTwoLines | Agents/AnnotatePrintAgent.py:80-110 | the box is 45 high exactly when the text splits into two pieces, 25 otherwise |
| AnnotatePrint.TwoLinePieces | Agents/AnnotatePrintAgent.py:80-83 | the two pieces rebuild the text around ` lot `, and the lines are their stripped forms |
| AnnotatePrint.NoMarkerOneLine | Agents/AnnotatePrintAgent.py:80-110 | a text without ` lot ` is one line in the short box |
| AnnotatePrint.SplitNoOccurrence | Agents/AnnotatePrintAgent.py:80 | a split on an absent separator yields the text alone |
| AnnotatePrint.AbsentCharNoOccurrence | Agents/AnnotatePrintAgent.py:80 | a separator holding a character the text lacks does not occur in it |
| AnnotatePrint.SentinelOneLine | Agents/AnnotatePrintAgent.py:80-86 | the not-registered sentinel is drawn as one line |
| AnnotatePrint.FirstSuccess | Agents/AnnotatePrintAgent.py:178-180 | the first succeeding attempt in range, and no earlier one succeeds; None when none does |
| AnnotatePrint.ConfigFrom | Agents/AnnotatePrintAgent.py:52 | a configured `retry_attempts` is kept; without one the budget is three attempts |
| AnnotatePrint.DefaultRetriesThree | Agents/AnnotatePrintAgent.py:52 | with the default configuration, a failing but available printer is asked exactly three times |
| AnnotatePrint.PrintWithRetry | Agents/AnnotatePrintAgent.py:177-182 | success exactly when an attempt below `retry_attempts` succeeds; it stops at the first success and makes at most `retry_attempts` calls, none for a count below one |
| AnnotatePrint.FirstExisting | Agents/AnnotatePrintAgent.py:185-189 | the path in the first directory where the file exists, None exactly when it exists in none |
| AnnotatePrint.FindPdfFile | Agents/AnnotatePrintAgent.py:184-189 | the loop returns the first existing path over inbox, source directory, `.` |
| AnnotatePrint.Repeat | Agents/AnnotatePrintAgent.py:178-181 | one print effect per attempt |
| AnnotatePrint.PrintPhase | Agents/AnnotatePrintAgent.py:207-209 | at most `retry_attempts` attempts; printed exactly when the printer is available and some attempt in budget succeeds, and then the last attempt is the first success |
| AnnotatePrint.CertificateOutcome | Agents/AnnotatePrintAgent.py:191-224 | every non-empty effect list ends with the move or the copy, and a printed certificate ends with the copy |
| AnnotatePrint.EarlyFailureTouchesNothing | Agents/AnnotatePrintAgent.py:198-205 | a missing or unannotatable PDF returns false with no print, move or copy |
| AnnotatePrint.PrintedMeans | Agents/AnnotatePrintAgent.py:207-222 | a printed certificate had a printer, an attempt succeeded within budget, the move and copy succeeded, and the move precedes the copy |
| AnnotatePrint.AttemptsBounded | Agents/AnnotatePrintAgent.py:207-209 | the printer is asked at most `retry_attempts` times per certificate |
| AnnotatePrint.ProcessCertificate | Agents/AnnotatePrintAgent.py:191-224 | the result and the file effects of one certificate |
| AnnotatePrint.PrintedCount | Agents/AnnotatePrintAgent.py:230-233 | at most one printed certificate per input |
| AnnotatePrint.ProcessAll | Agents/AnnotatePrintAgent.py:226-237 | total = inputs, failed = 0, printed = certificates printed, printed + annotated = total |
| AnnotatePrint.Run | Agents/AnnotatePrintAgent.py:239-242 | None exactly for None or an empty list, otherwise the tally |

## Left out

- OCR and images are left out because they are foreign library calls and image numerics. This covers Tesseract, preprocessing, PDF-to-image conversion and page-text concatenation in `Agents/ExtractLotAgent.py`, and `Agents/PDFtoImageAgent.py`. The OCR text is an input.
- Regular-expression matching is not modelled. Each pattern's matches, in order, are inputs: `LotMatches`, `OcrScan`, `Scanners` and the keyword oracle. The patterns in `Agents/ExtractLotAgent.py:63-87` and `226-229` are raw strings with doubled backslashes, so as written they would match a literal backslash. The model does not decide what they match.
- pandas and Excel are left out. `read_excel` becomes the workbook map: an absent name means the read raised. Column stripping is modelled on header texts, with `"nan"` for a missing cell. The `float()` probe is the input predicate `parsesAsFloat`.
- Rendering and printing are not modelled: reportlab and PyPDF2 drawing, string-width arithmetic, merging, win32 printing and `shutil`. A `World` value answers whether a file exists, how paths join, whether annotation, printing, a move or a copy succeeds, and the timestamps. Moves and copies are returned as effects.
- `time.sleep(retry_delay)` is not modelled, because a delay has no observable effect here.
- `datetime.now()` is replaced by timestamp parameters, because the clock is outside the model.
- `is_printer_available` is a `World` answer. Its side effect of switching to the default printer is not modelled.
- `os.path.basename` and `os.path.join` are `World` answers; the OCR step takes `basename` as a parameter. `splitext` is modelled with both slashes as separators, as on Windows.
- The directory listings in JSONExtractLotAgent `process_all` and `run`, namely the glob for `*_ocr.json` and JSON decoding, are inputs: the loaded documents, with None for a file that could not be read.
- `ExtractLotAgent.run` lists a directory, so it is left out.
- Erp.ErpAgent: the workbook is immutable, so the model cannot show a stale cache after the file changes on disk.
- Erp.ErpAgent.SearchLotInSheet: exceptions inside the lookup, caught and turned into None, are not modelled.
- OcrExtract.Step: `int(right)` on a non-digit right side would raise in the source. The model reads the digit value instead.
- `get_file_hash`, `move_to_processed` and `clean_temp_files` in `utils/file_utils.py` are left out: they are hashing and file-system calls.
- `Agents/OutlookAgent.py` is left out: it is a mail client with no lot logic.
- Configuration loading, logging and the test scripts are left out. Configured values are parameters with the source's defaults.
- Text.AllDigits: `isdigit` and `\d` are the ASCII digits only; the other Unicode digit classes are not modelled. `strip` removes the full set of characters Python's `str.isspace` accepts.
