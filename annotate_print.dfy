/** The annotate-and-print step (Agents/AnnotatePrintAgent.py): the two-line
    layout of the annotation, the bounded print retry, the ordered search for
    the certificate's PDF, the per-certificate control flow and the tally.
    Drawing, printing and the file system are inputs: a `World` answers every
    question the step asks of them, and the file operations it performs are
    returned as a list of effects. */
module AnnotatePrint {
  import opened Options
  import opened Text
  import opened FileUtils
  import opened Erp

  // ---------------------------------------------------------------------------
  // The layout in build_annotated_pdf

  const LotMarker: string := " lot "

  datatype Layout = Layout(line1: string, line2: string)

  /** Exactly one `" lot "` splits the text into a stripped first line and a
      `lot ...` second line; otherwise the whole text is one line. */
  function SplitAnnotation(text: string): (l: Layout)
    ensures |SplitOn(text, LotMarker)| == 2 ==> |l.line2| >= 4 && l.line2[..4] == "lot "
    ensures |SplitOn(text, LotMarker)| != 2 ==> l == Layout(text, "")
  {
    var parts := SplitOn(text, LotMarker);
    if |parts| == 2 then Layout(Strip(parts[0]), "lot " + Strip(parts[1])) else Layout(text, "")
  }

  /** The height of the grey box behind the text. */
  function BoxHeight(l: Layout): (h: int)
    ensures h == 45 || h == 25
    ensures h == 45 <==> l.line2 != ""
  {
    if l.line2 != "" then 45 else 25
  }

  /** The lines drawn, top first: `line1`, then `line2`, each only when it is non-empty. */
  function DrawnLines(l: Layout): (lines: seq<string>)
    ensures forall i :: 0 <= i < |lines| ==> lines[i] != ""
    ensures |lines| == (if l.line1 != "" then 1 else 0) + (if l.line2 != "" then 1 else 0)
    ensures l.line1 != "" ==> lines[0] == l.line1
    ensures l.line2 != "" ==> lines[|lines| - 1] == l.line2
  {
    (if l.line1 != "" then [l.line1] else []) + (if l.line2 != "" then [l.line2] else [])
  }

  /** The tall box is used exactly when the text splits into two lines. */
  lemma TallBoxIffTwoLines(text: string)
    ensures BoxHeight(SplitAnnotation(text)) == 45 <==> |SplitOn(text, LotMarker)| == 2
    ensures BoxHeight(SplitAnnotation(text)) == 25 <==> |SplitOn(text, LotMarker)| != 2
  {
  }

  /** The two pieces of a two-line split rebuild the text around the marker. */
  lemma TwoLinePieces(text: string)
    requires |SplitOn(text, LotMarker)| == 2
    ensures var parts := SplitOn(text, LotMarker);
      text == parts[0] + LotMarker + parts[1]
      && SplitAnnotation(text) == Layout(Strip(parts[0]), "lot " + Strip(parts[1]))
  {
    JoinSplit(text, LotMarker);
    var parts := SplitOn(text, LotMarker);
    assert JoinOn(parts, LotMarker) == parts[0] + LotMarker + JoinOn(parts[1..], LotMarker);
  }

  /** A text without the marker is drawn whole on one line in the short box. */
  lemma {:induction false} NoMarkerOneLine(text: string)
    requires !Occurs(LotMarker, text)
    ensures SplitAnnotation(text) == Layout(text, "")
    ensures BoxHeight(SplitAnnotation(text)) == 25
  {
    SplitNoOccurrence(text, LotMarker);
  }

  lemma {:induction false} SplitNoOccurrence(s: string, sep: string)
    requires |sep| > 0 && !Occurs(sep, s)
    ensures SplitOn(s, sep) == [s]
    decreases |s|
  {
    if |s| >= |sep| {
      SplitNoOccurrence(s[1..], sep);
      assert [s[0]] + s[1..] == s;
    }
  }

  lemma {:induction false} AbsentCharNoOccurrence(p: string, s: string, c: char)
    requires c in p && c !in s
    ensures !Occurs(p, s)
    decreases |s|
  {
    if |s| >= |p| {
      assert s[..|p|] != p by {
        var k :| 0 <= k < |p| && p[k] == c;
        assert s[..|p|][k] == s[k];
      }
      assert c !in s[1..] by {
        assert forall i :: 0 <= i < |s| - 1 ==> s[1..][i] == s[i + 1];
      }
      AbsentCharNoOccurrence(p, s[1..], c);
    }
  }

  /** The not-registered sentinel is drawn as one line. */
  lemma SentinelOneLine()
    ensures SplitAnnotation(NotRegistered) == Layout(NotRegistered, "")
  {
    assert LotMarker[1] == 'l';
    assert 'l' !in NotRegistered by {
      assert forall i :: 0 <= i < |NotRegistered| ==> NotRegistered[i] != 'l';
    }
    AbsentCharNoOccurrence(LotMarker, NotRegistered, 'l');
    NoMarkerOneLine(NotRegistered);
  }

  // ---------------------------------------------------------------------------
  // print_with_retry

  /** The first successful attempt in `k..n`, if any. */
  function FirstSuccess(attempt: nat -> bool, k: nat, n: nat): (r: Option<nat>)
    ensures r.Some? ==> (k <= r.value < n && attempt(r.value)
      && forall j :: k <= j < r.value ==> !attempt(j))
    ensures r.None? ==> forall j :: k <= j < n ==> !attempt(j)
    decreases n - k
  {
    if k >= n then None
    else if attempt(k) then Some(k)
    else FirstSuccess(attempt, k + 1, n)
  }

  /** `range(retry_attempts)` runs no attempt for a count below one. */
  function AttemptCount(retryAttempts: int): nat {
    if retryAttempts > 0 then retryAttempts else 0
  }

  /** Attempt until the first success, at most `retryAttempts` times; `calls`
      is the number of attempts made. */
  method PrintWithRetry(retryAttempts: int, attempt: nat -> bool) returns (ok: bool, calls: nat)
    ensures var first := FirstSuccess(attempt, 0, AttemptCount(retryAttempts));
      ok == first.Some? && calls == (if ok then first.value + 1 else AttemptCount(retryAttempts))
    ensures ok <==> exists k :: 0 <= k < retryAttempts && attempt(k)
    ensures ok ==> attempt(calls - 1) && forall j :: 0 <= j < calls - 1 ==> !attempt(j)
    ensures calls <= AttemptCount(retryAttempts)
  {
    var n := AttemptCount(retryAttempts);
    var a := 0;
    while a < n
      invariant 0 <= a <= n
      invariant forall j :: 0 <= j < a ==> !attempt(j)
      invariant FirstSuccess(attempt, 0, n) == FirstSuccess(attempt, a, n)
    {
      if attempt(a) {
        return true, a + 1;
      }
      a := a + 1;
    }
    return false, n;
  }

  // ---------------------------------------------------------------------------
  // find_pdf_file

  /** The directories searched, in order. */
  datatype Dirs = Dirs(certInbox: string, sourceCertDir: string, annotatedDir: string, printedDir: string)

  function SearchDirs(dirs: Dirs): seq<string> {
    [dirs.certInbox, dirs.sourceCertDir, "."]
  }

  /** What the step asks of the outside world for one certificate. */
  datatype World = World(
    fileExists: string -> bool,
    join: (string, string) -> string,
    basename: string -> string,
    annotateOk: (string, string) -> bool,
    annotateTimestamp: string,
    printerAvailable: bool,
    printAttempt: nat -> bool,
    moveOk: bool,
    copyOk: bool,
    timestamp: string)

  /** The joined path in the first directory where it exists. */
  function FirstExisting(ds: seq<string>, filename: string, w: World): (r: Option<string>)
    ensures r.None? <==> forall k :: 0 <= k < |ds| ==> !w.fileExists(w.join(ds[k], filename))
    ensures r.Some? ==> exists k :: (0 <= k < |ds| && r.value == w.join(ds[k], filename)
      && w.fileExists(r.value) && forall j :: 0 <= j < k ==> !w.fileExists(w.join(ds[j], filename)))
  {
    if |ds| == 0 then None
    else if w.fileExists(w.join(ds[0], filename)) then Some(w.join(ds[0], filename))
    else
      var r := FirstExisting(ds[1..], filename, w);
      assert forall k :: 1 <= k < |ds| ==> ds[k] == ds[1..][k - 1];
      if r.Some? then
        var k :| 0 <= k < |ds| - 1 && r.value == w.join(ds[1..][k], filename)
          && w.fileExists(r.value) && forall j :: 0 <= j < k ==> !w.fileExists(w.join(ds[1..][j], filename));
        assert r.value == w.join(ds[k + 1], filename);
        r
      else r
  }

  method FindPdfFile(filename: string, dirs: Dirs, w: World) returns (path: Option<string>)
    ensures path == FirstExisting(SearchDirs(dirs), filename, w)
  {
    var ds := SearchDirs(dirs);
    var i := 0;
    while i < |ds|
      invariant 0 <= i <= |ds|
      invariant FirstExisting(ds[i..], filename, w) == FirstExisting(ds, filename, w)
    {
      var full := w.join(ds[i], filename);
      if w.fileExists(full) {
        return Some(full);
      }
      assert ds[i..][1..] == ds[i + 1..];
      i := i + 1;
    }
    return None;
  }

  // ---------------------------------------------------------------------------
  // process_certificate

  /** Where build_annotated_pdf writes the annotated copy of `pdf`: the
      annotated directory, the base name, its own timestamp, then the extension. */
  function AnnotatedPath(cfg: Config, w: World, pdf: string): string
  {
    var parts := SplitExt(w.basename(pdf));
    w.join(cfg.dirs.annotatedDir, parts.0 + "_" + w.annotateTimestamp + "_ANNOTATED" + parts.1)
  }

  /** The annotated copy of `pdf`, or None when building it fails. */
  function Annotate(cfg: Config, w: World, pdf: string, text: string): Option<string> {
    if w.annotateOk(pdf, text) then Some(AnnotatedPath(cfg, w, pdf)) else None
  }

  /** A file operation the step performs on the outside world. */
  datatype Effect = PrintAttempt(path: string) | Move(src: string, dst: string) | Copy(src: string, dst: string)

  datatype Config = Config(retryAttempts: int, dirs: Dirs)

  /** The retry count from the configuration, 3 when it has none. */
  function ConfigFrom(retryAttempts: Option<int>, dirs: Dirs): (c: Config)
    ensures c.dirs == dirs
    ensures retryAttempts.Some? ==> c.retryAttempts == retryAttempts.value
    ensures retryAttempts.None? ==> AttemptCount(c.retryAttempts) == 3
  {
    Config(retryAttempts.GetOr(3), dirs)
  }

  /** Without a configured count, a printer that keeps failing is asked three times. */
  lemma DefaultRetriesThree(dirs: Dirs, w: World)
    requires w.printerAvailable
    requires forall k :: 0 <= k < 3 ==> !w.printAttempt(k)
    ensures PrintPhase(ConfigFrom(None, dirs), w) == (false, 3)
  {
    var cfg := ConfigFrom(None, dirs);
    assert AttemptCount(cfg.retryAttempts) == 3;
  }

  function Repeat(e: Effect, n: nat): (es: seq<Effect>)
    ensures |es| == n && forall i :: 0 <= i < n ==> es[i] == e
  {
    if n == 0 then [] else Repeat(e, n - 1) + [e]
  }

  /** The attempts made, and whether one succeeded. */
  function PrintPhase(cfg: Config, w: World): (r: (bool, nat))
    ensures r.1 <= AttemptCount(cfg.retryAttempts)
    ensures r.0 <==> w.printerAvailable && exists k :: 0 <= k < AttemptCount(cfg.retryAttempts) && w.printAttempt(k)
    ensures r.0 ==> r.1 >= 1 && w.printAttempt(r.1 - 1) && forall j :: 0 <= j < r.1 - 1 ==> !w.printAttempt(j)
  {
    if !w.printerAvailable then (false, 0)
    else
      var n := AttemptCount(cfg.retryAttempts);
      match FirstSuccess(w.printAttempt, 0, n)
      case Some(k) => (true, k + 1)
      case None => (false, n)
  }

  /** Whether the certificate was printed, and the operations performed in order. */
  function CertificateOutcome(cfg: Config, erp: ErpResult, w: World): (r: (bool, seq<Effect>))
    ensures r.1 == [] || r.1[|r.1| - 1].Move? || r.1[|r.1| - 1].Copy?
    ensures r.0 ==> |r.1| >= 2 && r.1[|r.1| - 1].Copy?
  {
    match FirstExisting(SearchDirs(cfg.dirs), w.basename(erp.filePath), w)
    case None => (false, [])
    case Some(pdf) =>
      match Annotate(cfg, w, pdf, erp.annotationText)
      case None => (false, [])
      case Some(annotated) =>
        var (printed, calls) := PrintPhase(cfg, w);
        var tries := Repeat(PrintAttempt(annotated), calls);
        var stem := SplitExt(w.basename(pdf)).0;
        var moved := Move(pdf, w.join(cfg.dirs.sourceCertDir, stem + "_" + w.timestamp + ".pdf"));
        if !w.moveOk then (false, tries + [moved])
        else if !printed then (false, tries + [moved])
        else
          var copied := Copy(annotated, w.join(cfg.dirs.printedDir, stem + "_" + w.timestamp + "_printed.pdf"));
          (w.copyOk, tries + [moved, copied])
  }

  /** Nothing is printed, moved or copied when the PDF is missing or cannot be annotated. */
  lemma EarlyFailureTouchesNothing(cfg: Config, erp: ErpResult, w: World)
    requires var found := FirstExisting(SearchDirs(cfg.dirs), w.basename(erp.filePath), w);
      found.None? || Annotate(cfg, w, found.value, erp.annotationText).None?
    ensures CertificateOutcome(cfg, erp, w) == (false, [])
  {
  }

  /** A printed certificate was annotated, an attempt succeeded within the
      budget, and the source was moved before the annotated copy was filed. */
  lemma PrintedMeans(cfg: Config, erp: ErpResult, w: World)
    requires CertificateOutcome(cfg, erp, w).0
    ensures w.printerAvailable && w.moveOk && w.copyOk
    ensures exists k :: 0 <= k < cfg.retryAttempts && w.printAttempt(k)
    ensures var es := CertificateOutcome(cfg, erp, w).1;
      |es| >= 3 && es[|es| - 2].Move? && es[|es| - 1].Copy?
  {
    var n := AttemptCount(cfg.retryAttempts);
    var first := FirstSuccess(w.printAttempt, 0, n);
    assert first.Some?;
  }

  /** The printer is asked at most the configured number of times. */
  lemma AttemptsBounded(cfg: Config, erp: ErpResult, w: World)
    ensures var es := CertificateOutcome(cfg, erp, w).1;
      forall i :: 0 <= i < |es| && es[i].PrintAttempt? ==> i < AttemptCount(cfg.retryAttempts)
  {
    var found := FirstExisting(SearchDirs(cfg.dirs), w.basename(erp.filePath), w);
    if found.Some? && Annotate(cfg, w, found.value, erp.annotationText).Some? {
      var (printed, calls) := PrintPhase(cfg, w);
      assert calls <= AttemptCount(cfg.retryAttempts);
    }
  }

  method ProcessCertificate(cfg: Config, erp: ErpResult, w: World) returns (printed: bool, effects: seq<Effect>)
    ensures (printed, effects) == CertificateOutcome(cfg, erp, w)
  {
    var pdfPath := FindPdfFile(w.basename(erp.filePath), cfg.dirs, w);
    if pdfPath.None? {
      return false, [];
    }
    var annotated := Annotate(cfg, w, pdfPath.value, erp.annotationText);
    if annotated.None? {
      return false, [];
    }
    printed := false;
    var calls := 0;
    if w.printerAvailable {
      printed, calls := PrintWithRetry(cfg.retryAttempts, w.printAttempt);
    }
    assert (printed, calls) == PrintPhase(cfg, w);
    effects := Repeat(PrintAttempt(annotated.value), calls);
    var stem := SplitExt(w.basename(pdfPath.value)).0;
    var newName := stem + "_" + w.timestamp + ".pdf";
    var moved := Move(pdfPath.value, w.join(cfg.dirs.sourceCertDir, newName));
    if !w.moveOk {
      return false, effects + [moved];
    }
    if !printed {
      return false, effects + [moved];
    }
    var printedName := stem + "_" + w.timestamp + "_printed.pdf";
    var copied := Copy(annotated.value, w.join(cfg.dirs.printedDir, printedName));
    return w.copyOk, effects + [moved, copied];
  }

  // ---------------------------------------------------------------------------
  // process_all and run

  datatype Tally = Tally(total: nat, printed: nat, annotated: nat, failed: nat)

  /** The number of certificates printed, `worlds(i)` answering for the i-th. */
  function PrintedCount(cfg: Config, erps: seq<ErpResult>, worlds: nat -> World): (n: nat)
    ensures n <= |erps|
  {
    if |erps| == 0 then 0
    else
      PrintedCount(cfg, erps[..|erps| - 1], worlds)
        + (if CertificateOutcome(cfg, erps[|erps| - 1], worlds(|erps| - 1)).0 then 1 else 0)
  }

  lemma PrintedCountSnoc(cfg: Config, erps: seq<ErpResult>, worlds: nat -> World, i: nat)
    requires i < |erps|
    ensures PrintedCount(cfg, erps[..i + 1], worlds)
      == PrintedCount(cfg, erps[..i], worlds) + (if CertificateOutcome(cfg, erps[i], worlds(i)).0 then 1 else 0)
  {
    assert erps[..i + 1][..i] == erps[..i];
  }

  /** Every certificate counts once, as printed or as annotated; none as failed. */
  method ProcessAll(cfg: Config, erps: seq<ErpResult>, worlds: nat -> World) returns (t: Tally)
    ensures t.total == |erps| && t.failed == 0
    ensures t.printed == PrintedCount(cfg, erps, worlds)
    ensures t.printed + t.annotated == t.total
  {
    t := Tally(|erps|, 0, 0, 0);
    var i := 0;
    while i < |erps|
      invariant 0 <= i <= |erps|
      invariant t.total == |erps| && t.failed == 0
      invariant t.printed == PrintedCount(cfg, erps[..i], worlds)
      invariant t.printed + t.annotated == i
    {
      var success, _ := ProcessCertificate(cfg, erps[i], worlds(i));
      PrintedCountSnoc(cfg, erps, worlds, i);
      if success {
        t := t.(printed := t.printed + 1);
      } else {
        t := t.(annotated := t.annotated + 1);
      }
      i := i + 1;
    }
    assert erps[..|erps|] == erps;
  }

  /** Nothing to report for a missing or empty list. */
  method Run(cfg: Config, erps: Option<seq<ErpResult>>, worlds: nat -> World) returns (t: Option<Tally>)
    ensures erps.None? || erps.value == [] <==> t.None?
    ensures t.Some? ==> (t.value.total == |erps.value| && t.value.failed == 0
      && t.value.printed == PrintedCount(cfg, erps.value, worlds)
      && t.value.printed + t.value.annotated == t.value.total)
  {
    if erps.None? || erps.value == [] {
      return None;
    }
    var tally := ProcessAll(cfg, erps.value, worlds);
    return Some(tally);
  }
}
