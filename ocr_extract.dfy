/** The OCR-text extractor (Agents/ExtractLotAgent.py): the accumulator that
    folds every match of every lot pattern into the parallel lists
    `lot_numbers` and `lot_info`, the false-positive veto, the aggregate
    structure label, the certificate-number search and the assembly of the
    extraction record. Each regular-expression search is an input: for each lot
    pattern the ordered list of its matches' groups. */
module OcrExtract {
  import opened Options
  import opened Text
  import opened Lots

  // ---------------------------------------------------------------------------
  // _is_false_positive

  /** The keywords whose pattern, followed directly by the number, vetoes it. */
  datatype Keyword = Date | Year | Page | Certificate

  /** Whether the keyword pattern for `k` followed by `number` matches somewhere
      in the whole text, ignoring case. */
  type KeywordOracle = (Keyword, string) -> bool

  const FalsePositiveYears: seq<string> := ["2023", "2024", "2025", "2026"]
  const ExcludeKeywords: seq<Keyword> := [Date, Year, Page, Certificate]

  /** Whether one of the keyword patterns in `ks` matches `number`, trying them in order. */
  function AnyKeywordHit(ks: seq<Keyword>, number: string, hit: KeywordOracle): (r: bool)
    ensures r <==> exists i :: 0 <= i < |ks| && hit(ks[i], number)
  {
    if |ks| == 0 then false
    else if hit(ks[0], number) then true
    else
      assert forall i :: 1 <= i < |ks| ==> ks[i] == ks[1..][i - 1];
      AnyKeywordHit(ks[1..], number, hit)
  }

  function IsFalsePositive(number: string, hit: KeywordOracle): (r: bool)
    ensures r <==> (number in FalsePositiveYears
      || hit(Date, number) || hit(Year, number) || hit(Page, number) || hit(Certificate, number))
  {
    assert ExcludeKeywords[0] == Date && ExcludeKeywords[1] == Year;
    assert ExcludeKeywords[2] == Page && ExcludeKeywords[3] == Certificate;
    if number in FalsePositiveYears then true else AnyKeywordHit(ExcludeKeywords, number, hit)
  }

  // ---------------------------------------------------------------------------
  // extract_lot_numbers

  /** The groups of one match: one lot, or a lot and a second number. */
  datatype Match = OneGroup(lot: string) | TwoGroups(first: string, second: string)

  /** The two lists the extractor builds. */
  datatype Acc = Acc(numbers: seq<string>, info: seq<LotInfo>)

  predicate NoDuplicates(s: seq<string>) {
    forall i, j :: 0 <= i < j < |s| ==> s[i] != s[j]
  }

  /** The lists stay in step: same length, `info[i].num == numbers[i]`, no number twice. */
  predicate Aligned(a: Acc) {
    && |a.info| == |a.numbers|
    && (forall i :: 0 <= i < |a.numbers| ==> a.info[i].num == a.numbers[i])
    && NoDuplicates(a.numbers)
  }

  function AddIfNew(a: Acc, num: string, kind: LotType, count: Option<int>): Acc {
    if num in a.numbers then a
    else Acc(a.numbers + [num], a.info + [LotInfo(num, kind, count)])
  }

  /** The effect of one match on the lists. */
  function Step(a: Acc, m: Match, hit: KeywordOracle): (b: Acc)
    ensures |b.numbers| <= |a.numbers| + (if m.TwoGroups? && |m.second| >= 5 then 2 else 1)
  {
    match m
    case TwoGroups(first, second) =>
      if |second| >= 5 then
        AddIfNew(AddIfNew(a, first, ExplicitMulti, None), second, ExplicitMulti, None)
      else
        AddIfNew(a, first, Implicit, Some(DigitsValue(second)))
    case OneGroup(lot) =>
      if lot !in a.numbers && !IsFalsePositive(lot, hit) then AddIfNew(a, lot, Single, None) else a
  }

  /** All matches in pattern order, then match order. */
  function Flatten(patterns: seq<seq<Match>>): seq<Match> {
    if |patterns| == 0 then [] else Flatten(patterns[..|patterns| - 1]) + patterns[|patterns| - 1]
  }

  /** The lists after the given matches, from empty lists. */
  function Fold(ms: seq<Match>, hit: KeywordOracle): Acc {
    if |ms| == 0 then Acc([], []) else Step(Fold(ms[..|ms| - 1], hit), ms[|ms| - 1], hit)
  }

  function Accumulate(patterns: seq<seq<Match>>, hit: KeywordOracle): Acc {
    Fold(Flatten(patterns), hit)
  }

  /** A match puts `x` in the lists unless it is already there: both sides of a
      two-group match with a long right side, the left side of one with a short
      right side (never filtered), the lot of a one-group match that is not a
      false positive. */
  predicate Contributes(m: Match, x: string, hit: KeywordOracle) {
    match m
    case TwoGroups(first, second) => x == first || (|second| >= 5 && x == second)
    case OneGroup(lot) => x == lot && !IsFalsePositive(lot, hit)
  }

  lemma StepAligned(a: Acc, m: Match, hit: KeywordOracle)
    requires Aligned(a)
    ensures Aligned(Step(a, m, hit))
  {
  }

  lemma StepMembership(a: Acc, m: Match, hit: KeywordOracle, x: string)
    ensures x in Step(a, m, hit).numbers <==> x in a.numbers || Contributes(m, x, hit)
  {
  }

  /** One match only ever appends to the two lists. */
  lemma StepExtends(a: Acc, m: Match, hit: KeywordOracle)
    ensures a.numbers <= Step(a, m, hit).numbers && a.info <= Step(a, m, hit).info
  {
  }

  /** The two lists stay aligned and free of duplicates. */
  lemma {:induction false} FoldAligned(ms: seq<Match>, hit: KeywordOracle)
    ensures Aligned(Fold(ms, hit))
  {
    if |ms| > 0 {
      FoldAligned(ms[..|ms| - 1], hit);
      StepAligned(Fold(ms[..|ms| - 1], hit), ms[|ms| - 1], hit);
    }
  }

  /** A number is in the list exactly when some match contributes it. */
  lemma {:induction false} FoldMembership(ms: seq<Match>, hit: KeywordOracle, x: string)
    ensures x in Fold(ms, hit).numbers <==> exists k :: 0 <= k < |ms| && Contributes(ms[k], x, hit)
  {
    if |ms| > 0 {
      var init := ms[..|ms| - 1];
      FoldMembership(init, hit, x);
      StepMembership(Fold(init, hit), ms[|ms| - 1], hit, x);
      if exists k :: 0 <= k < |init| && Contributes(init[k], x, hit) {
        var k :| 0 <= k < |init| && Contributes(init[k], x, hit);
        assert ms[k] == init[k];
      }
      if exists k :: 0 <= k < |ms| && Contributes(ms[k], x, hit) {
        var k :| 0 <= k < |ms| && Contributes(ms[k], x, hit);
        if k < |init| {
          assert init[k] == ms[k];
        }
      }
    }
  }

  /** Later matches only append: what earlier matches inserted keeps its place. */
  lemma {:induction false} FoldPrefix(a: seq<Match>, b: seq<Match>, hit: KeywordOracle)
    ensures Fold(a, hit).numbers <= Fold(a + b, hit).numbers
    ensures Fold(a, hit).info <= Fold(a + b, hit).info
    decreases |b|
  {
    if |b| == 0 {
      assert a + b == a;
    } else {
      var b' := b[..|b| - 1];
      assert (a + b)[..|a + b| - 1] == a + b';
      FoldPrefix(a, b', hit);
      StepExtends(Fold(a + b', hit), b[|b| - 1], hit);
    }
  }

  /** Neither side of a two-group match is ever vetoed. */
  lemma TwoGroupsNeverFiltered(ms: seq<Match>, hit: KeywordOracle, k: nat)
    requires k < |ms| && ms[k].TwoGroups?
    ensures ms[k].first in Fold(ms, hit).numbers
    ensures |ms[k].second| >= 5 ==> ms[k].second in Fold(ms, hit).numbers
  {
    FoldMembership(ms, hit, ms[k].first);
    FoldMembership(ms, hit, ms[k].second);
  }

  lemma FoldSnoc(ms: seq<Match>, m: Match, hit: KeywordOracle)
    ensures Fold(ms + [m], hit) == Step(Fold(ms, hit), m, hit)
  {
    assert (ms + [m])[..|ms|] == ms;
  }

  /** The tag a match gives the numbers it contributes: `explicit_multi` for
      both sides of a long right side, `implicit` with the right side's value
      as the count for a short one, `single` for a one-group match. */
  function MatchKind(m: Match): LotType {
    match m
    case TwoGroups(_, second) => if |second| >= 5 then ExplicitMulti else Implicit
    case OneGroup(_) => Single
  }

  function MatchCount(m: Match): Option<int> {
    if m.TwoGroups? && |m.second| < 5 then Some(DigitsValue(m.second)) else None
  }

  /** A match that contributes a new number appends it with the match's tag. */
  lemma StepTag(a: Acc, m: Match, hit: KeywordOracle, x: string)
    requires Aligned(a) && x !in a.numbers && Contributes(m, x, hit)
    ensures var b := Step(a, m, hit);
      exists i :: 0 <= i < |b.numbers| && b.numbers[i] == x && b.info[i] == LotInfo(x, MatchKind(m), MatchCount(m))
  {
    var k := |a.numbers|;
    match m {
      case TwoGroups(first, second) =>
        if |second| >= 5 && x != first {
          var a1 := AddIfNew(a, first, ExplicitMulti, None);
          assert x !in a1.numbers;
          var b := AddIfNew(a1, second, ExplicitMulti, None);
          assert b.numbers[|a1.numbers|] == x && b.info[|a1.numbers|] == LotInfo(x, ExplicitMulti, None);
        } else {
          assert Step(a, m, hit).numbers[k] == x;
        }
      case OneGroup(lot) =>
        assert Step(a, m, hit).numbers[k] == x;
    }
  }

  /** Every entry of `lot_info` carries the tag of the first match that
      contributes its number. */
  lemma {:induction false} FoldTags(ms: seq<Match>, hit: KeywordOracle, x: string, k: nat)
    requires k < |ms| && Contributes(ms[k], x, hit)
    requires forall j :: 0 <= j < k ==> !Contributes(ms[j], x, hit)
    ensures Aligned(Fold(ms, hit)) && x in Fold(ms, hit).numbers
    ensures var f := Fold(ms, hit);
      forall i :: 0 <= i < |f.numbers| && f.numbers[i] == x ==> f.info[i] == LotInfo(x, MatchKind(ms[k]), MatchCount(ms[k]))
  {
    var f := Fold(ms, hit);
    FoldAligned(ms, hit);
    var init := ms[..|ms| - 1];
    assert forall j :: 0 <= j < |init| ==> init[j] == ms[j];
    var a := Fold(init, hit);
    if k < |init| {
      FoldTags(init, hit, x, k);
      FoldMembership(init, hit, x);
      var i0 :| 0 <= i0 < |a.numbers| && a.numbers[i0] == x;
      StepExtends(a, ms[|ms| - 1], hit);
      assert f.numbers[i0] == x && f.info[i0] == a.info[i0];
    } else {
      FoldMembership(init, hit, x);
      FoldAligned(init, hit);
      StepTag(a, ms[k], hit, x);
    }
  }

  /** The body of the inner loop: record the numbers one match contributes. */
  method RecordMatch(numbers: seq<string>, info: seq<LotInfo>, m: Match, hit: KeywordOracle)
    returns (lotNumbers: seq<string>, lotInfo: seq<LotInfo>)
    ensures Acc(lotNumbers, lotInfo) == Step(Acc(numbers, info), m, hit)
  {
    lotNumbers, lotInfo := numbers, info;
    match m {
      case TwoGroups(first, second) =>
        if |second| >= 5 {
          if first !in lotNumbers {
            lotNumbers := lotNumbers + [first];
            lotInfo := lotInfo + [LotInfo(first, ExplicitMulti, None)];
          }
          if second !in lotNumbers {
            lotNumbers := lotNumbers + [second];
            lotInfo := lotInfo + [LotInfo(second, ExplicitMulti, None)];
          }
        } else {
          if first !in lotNumbers {
            lotNumbers := lotNumbers + [first];
            lotInfo := lotInfo + [LotInfo(first, Implicit, Some(DigitsValue(second)))];
          }
        }
      case OneGroup(lot) =>
        if lot !in lotNumbers {
          if !IsFalsePositive(lot, hit) {
            lotNumbers := lotNumbers + [lot];
            lotInfo := lotInfo + [LotInfo(lot, Single, None)];
          }
        }
    }
  }

  /** The inner loop: record the matches of one pattern, in match order. */
  method RecordPattern(numbers: seq<string>, info: seq<LotInfo>, matches: seq<Match>, hit: KeywordOracle,
                       ghost done: seq<Match>)
    returns (lotNumbers: seq<string>, lotInfo: seq<LotInfo>)
    requires Acc(numbers, info) == Fold(done, hit)
    ensures Acc(lotNumbers, lotInfo) == Fold(done + matches, hit)
  {
    lotNumbers, lotInfo := numbers, info;
    var j := 0;
    assert done + matches[..0] == done;
    while j < |matches|
      invariant 0 <= j <= |matches|
      invariant Acc(lotNumbers, lotInfo) == Fold(done + matches[..j], hit)
    {
      ghost var before := Acc(lotNumbers, lotInfo);
      lotNumbers, lotInfo := RecordMatch(lotNumbers, lotInfo, matches[j], hit);
      assert Acc(lotNumbers, lotInfo) == Step(before, matches[j], hit);
      FoldSnoc(done + matches[..j], matches[j], hit);
      assert done + matches[..j] + [matches[j]] == done + matches[..j + 1];
      j := j + 1;
    }
    assert matches[..|matches|] == matches;
  }

  /** Fold over the patterns in order, appending each new number with its tag. */
  method ExtractLotNumbers(patterns: seq<seq<Match>>, hit: KeywordOracle)
    returns (lotNumbers: seq<string>, lotInfo: seq<LotInfo>)
    ensures Acc(lotNumbers, lotInfo) == Accumulate(patterns, hit)
    ensures Aligned(Acc(lotNumbers, lotInfo))
  {
    lotNumbers, lotInfo := [], [];
    var i := 0;
    while i < |patterns|
      invariant 0 <= i <= |patterns|
      invariant Acc(lotNumbers, lotInfo) == Fold(Flatten(patterns[..i]), hit)
    {
      lotNumbers, lotInfo := RecordPattern(lotNumbers, lotInfo, patterns[i], hit, Flatten(patterns[..i]));
      assert patterns[..i + 1][..i] == patterns[..i];
      i := i + 1;
    }
    assert patterns[..|patterns|] == patterns;
    FoldAligned(Flatten(patterns), hit);
  }

  // ---------------------------------------------------------------------------
  // determine_lot_type

  function Kinds(info: seq<LotInfo>): (ks: seq<LotType>)
    ensures |ks| == |info| && forall i :: 0 <= i < |info| ==> ks[i] == info[i].kind
  {
    seq(|info|, i requires 0 <= i < |info| => info[i].kind)
  }

  /** `types.count(k)`. */
  function CountKind(ks: seq<LotType>, k: LotType): nat {
    if |ks| == 0 then 0 else CountKind(ks[..|ks| - 1], k) + (if ks[|ks| - 1] == k then 1 else 0)
  }

  /** The aggregate label of a list of tagged lots. */
  function DetermineLotType(info: seq<LotInfo>): (structure: string)
    ensures structure in {"unknown", "implicit_multi", "explicit_multi", "single", "multiple"}
  {
    if |info| == 0 then "unknown"
    else if Implicit in Kinds(info) then "implicit_multi"
    else if CountKind(Kinds(info), ExplicitMulti) >= 2 then "explicit_multi"
    else if |info| == 1 then "single"
    else "multiple"
  }

  lemma {:induction false} CountKindIsMultiplicity(ks: seq<LotType>, k: LotType)
    ensures CountKind(ks, k) == multiset(ks)[k]
  {
    if |ks| > 0 {
      CountKindIsMultiplicity(ks[..|ks| - 1], k);
      assert ks == ks[..|ks| - 1] + [ks[|ks| - 1]];
    }
  }

  /** The label depends on the multiset of tags only, not on their order or
      on the lot numbers. */
  lemma DetermineLotTypeByTags(a: seq<LotInfo>, b: seq<LotInfo>)
    requires multiset(Kinds(a)) == multiset(Kinds(b))
    ensures DetermineLotType(a) == DetermineLotType(b)
  {
    CountKindIsMultiplicity(Kinds(a), ExplicitMulti);
    CountKindIsMultiplicity(Kinds(b), ExplicitMulti);
    assert |a| == |multiset(Kinds(a))| && |b| == |multiset(Kinds(b))|;
    assert (Implicit in Kinds(a)) == (Implicit in multiset(Kinds(a)));
    assert (Implicit in Kinds(b)) == (Implicit in multiset(Kinds(b)));
  }

  /** The five cases, by the counts of the tags. */
  lemma DetermineLotTypeCases(info: seq<LotInfo>)
    ensures var ks := multiset(Kinds(info));
      && (DetermineLotType(info) == "unknown" <==> |info| == 0)
      && (DetermineLotType(info) == "implicit_multi" <==> ks[Implicit] > 0)
      && (DetermineLotType(info) == "explicit_multi" <==> ks[Implicit] == 0 && ks[ExplicitMulti] >= 2)
      && (DetermineLotType(info) == "single" <==> |info| == 1 && ks[Implicit] == 0)
      && (DetermineLotType(info) == "multiple" <==> |info| >= 2 && ks[Implicit] == 0 && ks[ExplicitMulti] <= 1)
  {
    CountKindIsMultiplicity(Kinds(info), ExplicitMulti);
    assert (Implicit in Kinds(info)) == (Implicit in multiset(Kinds(info)));
    assert |info| == |multiset(Kinds(info))|;
    if |info| == 1 {
      assert multiset(Kinds(info)) == multiset{info[0].kind} by {
        assert Kinds(info) == [info[0].kind];
      }
    }
  }

  // ---------------------------------------------------------------------------
  // extract_certification_number

  /** A search's first match is accepted when its stripped group is longer than 3. */
  predicate Accepted(group: Option<string>) {
    group.Some? && |Strip(group.value)| > 3
  }

  /** The stripped group of the first accepted search, else the sentinel. */
  function CertNumberOf(firsts: seq<Option<string>>): (cert: string)
    ensures cert == Unknown || exists i :: 0 <= i < |firsts| && Accepted(firsts[i]) && cert == Strip(firsts[i].value)
  {
    if |firsts| == 0 then Unknown
    else if Accepted(firsts[0]) then Strip(firsts[0].value)
    else
      assert forall i :: 1 <= i < |firsts| ==> firsts[i] == firsts[1..][i - 1];
      CertNumberOf(firsts[1..])
  }

  /** The first accepted search wins. */
  lemma {:induction false} CertNumberFirstAccepted(firsts: seq<Option<string>>, i: nat)
    requires i < |firsts| && Accepted(firsts[i])
    requires forall j :: 0 <= j < i ==> !Accepted(firsts[j])
    ensures CertNumberOf(firsts) == Strip(firsts[i].value)
  {
    if i > 0 {
      assert !Accepted(firsts[0]);
      CertNumberFirstAccepted(firsts[1..], i - 1);
    }
  }

  /** With no accepted search the result is the sentinel. */
  lemma {:induction false} CertNumberNoneAccepted(firsts: seq<Option<string>>)
    requires forall j :: 0 <= j < |firsts| ==> !Accepted(firsts[j])
    ensures CertNumberOf(firsts) == Unknown
  {
    if |firsts| > 0 {
      assert !Accepted(firsts[0]);
      CertNumberNoneAccepted(firsts[1..]);
    }
  }

  /** Try each search's first match in turn; return the first accepted one. */
  method ExtractCertificationNumber(firsts: seq<Option<string>>) returns (cert: string)
    ensures cert == CertNumberOf(firsts)
  {
    var i := 0;
    while i < |firsts|
      invariant 0 <= i <= |firsts|
      invariant CertNumberOf(firsts[i..]) == CertNumberOf(firsts)
    {
      var found := firsts[i];
      if found.Some? {
        var certNum := Strip(found.value);
        if certNum != "" && |certNum| > 3 {
          return certNum;
        }
      }
      assert firsts[i..][1..] == firsts[i + 1..];
      i := i + 1;
    }
    return Unknown;
  }

  // ---------------------------------------------------------------------------
  // extract_product_name and process_certificate

  /** The stripped `Sample :` capture, else the sentinel. */
  function ProductNameOf(sample: Option<string>): (name: string)
    ensures sample.None? ==> name == Unknown
    ensures sample.Some? ==> |name| <= |sample.value| && (name != [] ==> !IsSpace(name[0]) && !IsSpace(name[|name| - 1]))
  {
    if sample.Some? then Strip(sample.value) else Unknown
  }

  /** A capture that is already a product name is returned unchanged. */
  lemma ProductNameOfStable(sample: string)
    ensures ProductNameOf(Some(ProductNameOf(Some(sample)))) == ProductNameOf(Some(sample))
  {
    StripUnchanged(Strip(sample));
  }

  /** What the pattern searches found in one certificate's text. */
  datatype OcrScan = OcrScan(
    lotMatches: seq<seq<Match>>,
    certFirsts: seq<Option<string>>,
    sample: Option<string>,
    keywordHit: KeywordOracle)

  /** The extraction record of one certificate, from its OCR text; None only
      when no text was extracted. `basename` is `os.path.basename`. */
  method ProcessCertificate(certPath: string, basename: string -> string, text: string, scan: OcrScan, now: string)
    returns (r: Option<ExtractionResult>)
    ensures r.None? <==> text == ""
    ensures r.Some? ==> r.value.filePath == certPath && r.value.fileName == basename(certPath)
    ensures r.Some? ==>
      var acc := Accumulate(scan.lotMatches, scan.keywordHit);
      r.value == ExtractionResult(certPath, basename(certPath), CertNumberOf(scan.certFirsts),
        ProductNameOf(scan.sample), acc.numbers, acc.info, DetermineLotType(acc.info), now)
    ensures r.Some? ==> Aligned(Acc(r.value.lotNumbers, r.value.lotInfo))
    ensures r.Some? && r.value.lotNumbers == [] ==> r.value.lotStructure == "unknown"
  {
    if text == "" {
      return None;
    }
    var certNumber := ExtractCertificationNumber(scan.certFirsts);
    var productName := ProductNameOf(scan.sample);
    var lotNumbers, lotInfo := ExtractLotNumbers(scan.lotMatches, scan.keywordHit);
    var lotType := DetermineLotType(lotInfo);
    r := Some(ExtractionResult(certPath, basename(certPath), certNumber, productName, lotNumbers, lotInfo, lotType, now));
  }
}
