/** The ERP lookup (Agents/ERPAgent.py): each extracted lot is looked up in
    the sheets of a workbook in priority order, through a per-sheet cache, and
    the hits are rendered into the annotation text. Reading a sheet is an
    input: the workbook maps each readable sheet name to its header cells and
    rows of cell texts. */
module Erp {
  import opened Options
  import opened Text
  import opened Lots

  // ---------------------------------------------------------------------------
  // Configuration

  const DefaultSheets: seq<string> := ["2026", "2025", "2024", "2023"]

  /** The `excel.columns` mapping used when the configuration has none. */
  const DefaultColumnsConfig: map<string, string> :=
    map["cert_lot" := "NO", "internal_lot" := "Lot Num.", "supplier" := "Supplier"]

  /** The annotation used when no lot could be rendered. */
  const NotRegistered: string := "غير مسجل في النظام"

  /** The separator between rendered lots: a backslash followed by `n`. */
  const Separator: string := "\\n"

  /** The header names of the certificate-lot, internal-lot and supplier columns. */
  datatype ColumnNames = ColumnNames(certLot: string, internalLot: string, supplier: string)

  function Get(m: map<string, string>, k: string, default: string): string {
    if k in m then m[k] else default
  }

  /** Each column name from the mapping, or its default when the mapping has no entry. */
  function ResolveColumns(cfg: map<string, string>): (c: ColumnNames)
    ensures "cert_lot" !in cfg ==> c.certLot == "NO"
    ensures "internal_lot" !in cfg ==> c.internalLot == "Lot Num."
    ensures "supplier" !in cfg ==> c.supplier == "Supplier"
  {
    ColumnNames(Get(cfg, "cert_lot", "NO"), Get(cfg, "internal_lot", "Lot Num."), Get(cfg, "supplier", "Supplier"))
  }

  // ---------------------------------------------------------------------------
  // Sheets and load_excel_sheet

  /** A sheet as read: its header cells as written and, per row, the text of
      each cell under its stripped header name. */
  datatype RawSheet = RawSheet(headers: seq<string>, rows: seq<map<string, string>>)

  /** A missing cell reads as the text of a missing value. */
  function Cell(row: map<string, string>, col: string): string {
    if col in row then row[col] else "nan"
  }

  /** The three cells of a loaded row that the lookup uses. */
  datatype Row = Row(key: string, internalLot: string, supplier: string)

  type Table = seq<Row>

  /** The sheet names that can be read, the column names, and the outcome of
      the `float()` probe on a query string. */
  datatype ErpData = ErpData(
    workbook: map<string, RawSheet>,
    columns: ColumnNames,
    parsesAsFloat: string -> bool)

  /** The certificate-lot cell: stripped, then every non-overlapping `.0` deleted. */
  function NormaliseKey(cell: string): (k: string)
    ensures |k| <= |cell|
  {
    DeleteAll(Strip(cell), ".0")
  }

  /** A whole number stored as a float cell, `"139928.0"`, yields its digits. */
  lemma NormaliseFloatCell(digits: string)
    requires AllDigits(digits)
    ensures NormaliseKey(digits + ".0") == digits
  {
    var s := digits + ".0";
    assert s[0] == digits[0] && s[|s| - 1] == '0';
    StripUnchanged(s);
    assert '.' !in digits by {
      assert forall i :: 0 <= i < |digits| ==> digits[i] != '.';
    }
    DeleteAllKeepsPrefix(digits, ".0", ".0");
    assert DeleteAll(".0", ".0") == DeleteAll("", ".0");
    assert digits + "" == digits;
  }

  /** The single pass is not idempotent: deleting `.0` can uncover another one. */
  lemma NormaliseKeySinglePass()
    ensures NormaliseKey("1..00") == "1.0"
    ensures DeleteAll("1.0", ".0") == "1"
  {
    var s := "1..00";
    assert TrimStart(s) == s && TrimEnd(s) == s;
    assert s[1..] == "..00" && s[..2] == "1.";
    assert DeleteAll(s, ".0") == "1" + DeleteAll("..00", ".0");
    assert "..00"[1..] == ".00" && "..00"[..2] == "..";
    assert DeleteAll("..00", ".0") == "." + DeleteAll(".00", ".0");
    assert ".00"[2..] == "0" && ".00"[..2] == ".0";
    assert DeleteAll(".00", ".0") == DeleteAll("0", ".0");
    assert "1.0"[1..] == ".0" && "1.0"[..2] == "1.";
    assert ".0"[2..] == "" && ".0"[..2] == ".0";
  }

  function StrippedHeaders(hs: seq<string>): (r: seq<string>)
    ensures |r| == |hs| && forall i :: 0 <= i < |hs| ==> r[i] == Strip(hs[i])
  {
    seq(|hs|, i requires 0 <= i < |hs| => Strip(hs[i]))
  }

  predicate HasColumns(sheet: RawSheet, cols: ColumnNames) {
    var hs := StrippedHeaders(sheet.headers);
    cols.certLot in hs && cols.internalLot in hs && cols.supplier in hs
  }

  /** One loaded row. The key column is normalised in place, so a column that
      shares its name reads the normalised text too. */
  function ToRow(r: map<string, string>, cols: ColumnNames): Row {
    var key := NormaliseKey(Cell(r, cols.certLot));
    Row(key,
      if cols.internalLot == cols.certLot then key else Cell(r, cols.internalLot),
      if cols.supplier == cols.certLot then key else Cell(r, cols.supplier))
  }

  /** Reading a sheet afresh: None when it cannot be read or lacks a required column. */
  function LoadFresh(d: ErpData, name: string): (t: Option<Table>)
    ensures t.None? <==> name !in d.workbook || !HasColumns(d.workbook[name], d.columns)
    ensures t.Some? ==> (|t.value| == |d.workbook[name].rows|
      && forall i :: 0 <= i < |t.value| ==> t.value[i] == ToRow(d.workbook[name].rows[i], d.columns))
  {
    if name !in d.workbook then None
    else
      var sheet := d.workbook[name];
      if !HasColumns(sheet, d.columns) then None
      else Some(seq(|sheet.rows|, i requires 0 <= i < |sheet.rows| => ToRow(sheet.rows[i], d.columns)))
  }

  // ---------------------------------------------------------------------------
  // The sheet cache

  /** Every cached table is what a fresh read of that sheet gives. */
  ghost predicate ValidCache(d: ErpData, cache: map<string, Table>) {
    forall name :: name in cache ==> LoadFresh(d, name) == Some(cache[name])
  }

  /** The cache after `load_excel_sheet(name)`: a sheet is stored only when it
      was not cached and loads with every required column. */
  function AfterLoad(d: ErpData, cache: map<string, Table>, name: string): (c: map<string, Table>)
    ensures c.Keys == if name in cache || LoadFresh(d, name).None? then cache.Keys else cache.Keys + {name}
    ensures forall n :: n in cache ==> c[n] == cache[n]
    ensures name in c ==> Some(c[name]) == LoadFresh(d, name) || name in cache
  {
    if name in cache then cache
    else match LoadFresh(d, name)
      case None => cache
      case Some(t) => cache[name := t]
  }

  /** The cache after loading the sheets `names` in order. */
  function AfterLoads(d: ErpData, cache: map<string, Table>, names: seq<string>): map<string, Table> {
    if |names| == 0 then cache
    else AfterLoad(d, AfterLoads(d, cache, names[..|names| - 1]), names[|names| - 1])
  }

  /** A sheet is settled once it is cached or cannot be loaded: loading it again changes nothing. */
  predicate Settled(d: ErpData, cache: map<string, Table>, name: string) {
    name in cache || LoadFresh(d, name).None?
  }

  /** Loading keeps the cache valid and never drops or changes an entry. */
  lemma {:induction false} AfterLoadsValid(d: ErpData, cache: map<string, Table>, names: seq<string>)
    requires ValidCache(d, cache)
    ensures ValidCache(d, AfterLoads(d, cache, names))
    ensures forall n :: n in cache ==> n in AfterLoads(d, cache, names) && AfterLoads(d, cache, names)[n] == cache[n]
  {
    if |names| > 0 {
      AfterLoadsValid(d, cache, names[..|names| - 1]);
      AfterLoadValid(d, AfterLoads(d, cache, names[..|names| - 1]), names[|names| - 1]);
    }
  }

  /** One load keeps the cache valid and never drops or changes an entry. */
  lemma AfterLoadValid(d: ErpData, cache: map<string, Table>, name: string)
    requires ValidCache(d, cache)
    ensures ValidCache(d, AfterLoad(d, cache, name))
    ensures forall n :: n in cache ==> n in AfterLoad(d, cache, name) && AfterLoad(d, cache, name)[n] == cache[n]
  {
  }

  /** Exactly the sheets already cached, plus the loaded sheets that have every column. */
  lemma {:induction false} AfterLoadsKeys(d: ErpData, cache: map<string, Table>, names: seq<string>, n: string)
    ensures n in AfterLoads(d, cache, names) <==> n in cache || (n in names && LoadFresh(d, n).Some?)
  {
    if |names| > 0 {
      var init := names[..|names| - 1];
      AfterLoadsKeys(d, cache, init, n);
      assert names == init + [names[|names| - 1]];
    }
  }

  lemma AfterLoadsSnoc(d: ErpData, cache: map<string, Table>, names: seq<string>, i: nat)
    requires i < |names|
    ensures AfterLoads(d, cache, names[..i + 1]) == AfterLoad(d, AfterLoads(d, cache, names[..i]), names[i])
  {
    assert names[..i + 1][..i] == names[..i];
  }

  lemma {:induction false} AfterLoadsAppend(d: ErpData, cache: map<string, Table>, a: seq<string>, b: seq<string>)
    ensures AfterLoads(d, cache, a + b) == AfterLoads(d, AfterLoads(d, cache, a), b)
    decreases |b|
  {
    if |b| == 0 {
      assert a + b == a;
    } else {
      var init, last := b[..|b| - 1], b[|b| - 1];
      assert (a + b)[..|a + b| - 1] == a + init && (a + b)[|a + b| - 1] == last;
      AfterLoadsAppend(d, cache, a, init);
      var c := AfterLoads(d, cache, a + init);
      assert AfterLoads(d, cache, a + b) == AfterLoad(d, c, last);
      assert AfterLoads(d, AfterLoads(d, cache, a), b) == AfterLoad(d, c, last);
    }
  }

  lemma {:induction false} SettledLoadsUnchanged(d: ErpData, cache: map<string, Table>, names: seq<string>)
    requires forall i :: 0 <= i < |names| ==> Settled(d, cache, names[i])
    ensures AfterLoads(d, cache, names) == cache
  {
    if |names| > 0 {
      SettledLoadsUnchanged(d, cache, names[..|names| - 1]);
    }
  }

  /** Loading the same sheets a second time changes nothing. */
  lemma AfterLoadsTwice(d: ErpData, cache: map<string, Table>, names: seq<string>)
    ensures AfterLoads(d, AfterLoads(d, cache, names), names) == AfterLoads(d, cache, names)
  {
    var c1 := AfterLoads(d, cache, names);
    forall i | 0 <= i < |names|
      ensures Settled(d, c1, names[i])
    {
      AfterLoadsKeys(d, cache, names, names[i]);
    }
    SettledLoadsUnchanged(d, c1, names);
  }

  // ---------------------------------------------------------------------------
  // search_lot_in_sheet

  /** The first index holding `k`. */
  function FindIndex(keys: seq<string>, k: string): (r: Option<nat>)
    ensures r.None? <==> k !in keys
    ensures r.Some? ==> (r.value < |keys| && keys[r.value] == k
      && forall j :: 0 <= j < r.value ==> keys[j] != k)
  {
    if |keys| == 0 then None
    else if keys[0] == k then Some(0)
    else match FindIndex(keys[1..], k)
      case None => None
      case Some(i) => Some(i + 1)
  }

  function Keys(t: Table): (ks: seq<string>)
    ensures |ks| == |t| && forall i :: 0 <= i < |t| ==> ks[i] == t[i].key
  {
    seq(|t|, i requires 0 <= i < |t| => t[i].key)
  }

  /** The keys once more with `.0` deleted, for the numeric second try. */
  function ReKeys(t: Table): (ks: seq<string>)
    ensures |ks| == |t| && forall i :: 0 <= i < |t| ==> ks[i] == DeleteAll(t[i].key, ".0")
  {
    seq(|t|, i requires 0 <= i < |t| => DeleteAll(t[i].key, ".0"))
  }

  /** The first row whose key equals the stripped query; failing that, when
      the query parses as a float, the first row whose key, with `.0` deleted
      once more, equals it. */
  function RowIn(t: Table, lot: string, parsesAsFloat: string -> bool): (r: Option<Row>)
    ensures r.Some? ==> r.value in t
    ensures Strip(lot) in Keys(t) ==> r.Some? && r.value.key == Strip(lot)
    ensures Strip(lot) !in Keys(t) ==>
      (r.Some? <==> parsesAsFloat(Strip(lot)) && Strip(lot) in ReKeys(t))
    ensures Strip(lot) !in Keys(t) && r.Some? ==> DeleteAll(r.value.key, ".0") == Strip(lot)
  {
    var lotStr := Strip(lot);
    match FindIndex(Keys(t), lotStr)
    case Some(i) => Some(t[i])
    case None =>
      if parsesAsFloat(lotStr) then
        match FindIndex(ReKeys(t), lotStr)
        case Some(i) => Some(t[i])
        case None => None
      else None
  }

  /** The first row with the exact key is the one returned. */
  lemma FirstExactRowWins(t: Table, lot: string, parsesAsFloat: string -> bool, i: nat)
    requires i < |t| && t[i].key == Strip(lot)
    requires forall j :: 0 <= j < i ==> t[j].key != Strip(lot)
    ensures RowIn(t, lot, parsesAsFloat) == Some(t[i])
  {
    assert Keys(t)[i] == Strip(lot);
  }

  /** With no exact key and a float-like query, the first row whose
      re-normalised key equals the query is the one returned. */
  lemma FirstReKeyedRowWins(t: Table, lot: string, parsesAsFloat: string -> bool, i: nat)
    requires Strip(lot) !in Keys(t) && parsesAsFloat(Strip(lot))
    requires i < |t| && DeleteAll(t[i].key, ".0") == Strip(lot)
    requires forall j :: 0 <= j < i ==> DeleteAll(t[j].key, ".0") != Strip(lot)
    ensures RowIn(t, lot, parsesAsFloat) == Some(t[i])
  {
    assert ReKeys(t)[i] == Strip(lot);
  }

  /** What `search_lot_in_sheet` finds: nothing when the sheet does not load. */
  function SheetHit(d: ErpData, name: string, lot: string): Option<Row> {
    match LoadFresh(d, name)
    case None => None
    case Some(t) => RowIn(t, lot, d.parsesAsFloat)
  }

  // ---------------------------------------------------------------------------
  // search_lot

  /** What each sheet yields for the lot, in priority order. */
  function Hits(d: ErpData, sheets: seq<string>, lot: string): (hs: seq<Option<Row>>)
    ensures |hs| == |sheets| && forall j :: 0 <= j < |sheets| ==> hs[j] == SheetHit(d, sheets[j], lot)
  {
    seq(|sheets|, j requires 0 <= j < |sheets| => SheetHit(d, sheets[j], lot))
  }

  /** The first sheet with a hit, with its row. */
  function FirstHit(sheets: seq<string>, hits: seq<Option<Row>>): Option<(string, Row)>
    requires |hits| == |sheets|
  {
    if |sheets| == 0 then None
    else if hits[0].Some? then Some((sheets[0], hits[0].value))
    else FirstHit(sheets[1..], hits[1..])
  }

  /** The sheets read: up to and including the first hit. */
  function ProbedBy(sheets: seq<string>, hits: seq<Option<Row>>): seq<string>
    requires |hits| == |sheets|
  {
    if |sheets| == 0 then []
    else if hits[0].Some? then [sheets[0]]
    else [sheets[0]] + ProbedBy(sheets[1..], hits[1..])
  }

  lemma {:induction false} FirstHitFinds(sheets: seq<string>, hits: seq<Option<Row>>)
    requires |hits| == |sheets|
    ensures FirstHit(sheets, hits).None? <==> forall j :: 0 <= j < |hits| ==> hits[j].None?
    ensures FirstHit(sheets, hits).Some? ==>
      exists j :: 0 <= j < |sheets| && hits[j].Some? && FirstHit(sheets, hits) == Some((sheets[j], hits[j].value))
  {
    if |sheets| > 0 && hits[0].None? {
      FirstHitFinds(sheets[1..], hits[1..]);
      assert forall j :: 1 <= j < |hits| ==> hits[j] == hits[1..][j - 1];
      if FirstHit(sheets, hits).Some? {
        var j :| 0 <= j < |sheets| - 1 && hits[1..][j].Some?
          && FirstHit(sheets[1..], hits[1..]) == Some((sheets[1..][j], hits[1..][j].value));
        assert sheets[1..][j] == sheets[j + 1] && hits[1..][j] == hits[j + 1];
      }
    }
  }

  lemma {:induction false} FirstHitWins(sheets: seq<string>, hits: seq<Option<Row>>, i: nat)
    requires |hits| == |sheets| && i < |hits| && hits[i].Some?
    requires forall j :: 0 <= j < i ==> hits[j].None?
    ensures FirstHit(sheets, hits) == Some((sheets[i], hits[i].value))
    ensures ProbedBy(sheets, hits) == sheets[..i + 1]
  {
    if i > 0 {
      assert hits[0].None?;
      assert hits[1..][i - 1] == hits[i] && sheets[1..][i - 1] == sheets[i];
      assert forall j :: 0 <= j < i - 1 ==> hits[1..][j] == hits[j + 1];
      FirstHitWins(sheets[1..], hits[1..], i - 1);
      assert [sheets[0]] + sheets[1..][..i] == sheets[..i + 1];
    }
  }

  /** One step of the sheet loop: a hit ends the search at this sheet, a miss moves on. */
  lemma FirstHitStep(sheets: seq<string>, hits: seq<Option<Row>>, i: nat)
    requires |hits| == |sheets| && i < |sheets|
    ensures hits[i].Some? ==> (FirstHit(sheets[i..], hits[i..]) == Some((sheets[i], hits[i].value))
      && ProbedBy(sheets[i..], hits[i..]) == [sheets[i]])
    ensures hits[i].None? ==> (FirstHit(sheets[i..], hits[i..]) == FirstHit(sheets[i + 1..], hits[i + 1..])
      && ProbedBy(sheets[i..], hits[i..]) == [sheets[i]] + ProbedBy(sheets[i + 1..], hits[i + 1..]))
  {
    assert sheets[i..][0] == sheets[i] && hits[i..][0] == hits[i];
    assert sheets[i..][1..] == sheets[i + 1..] && hits[i..][1..] == hits[i + 1..];
  }

  /** `search_lot`: the first sheet, in priority order, that holds the lot. */
  function Lookup(d: ErpData, sheets: seq<string>, lot: string): (r: Option<(string, Row)>)
    ensures r.None? <==> forall j :: 0 <= j < |sheets| ==> SheetHit(d, sheets[j], lot).None?
    ensures r.Some? ==> r.value.0 in sheets && SheetHit(d, r.value.0, lot) == Some(r.value.1)
  {
    FirstHitFinds(sheets, Hits(d, sheets, lot));
    FirstHit(sheets, Hits(d, sheets, lot))
  }

  /** The sheets `search_lot` reads. */
  function SheetsProbed(d: ErpData, sheets: seq<string>, lot: string): seq<string> {
    ProbedBy(sheets, Hits(d, sheets, lot))
  }

  /** The first sheet in priority order that holds the lot wins, and the sheets after it are not read. */
  lemma FirstSheetWins(d: ErpData, sheets: seq<string>, lot: string, i: nat)
    requires i < |sheets| && SheetHit(d, sheets[i], lot).Some?
    requires forall j :: 0 <= j < i ==> SheetHit(d, sheets[j], lot).None?
    ensures Lookup(d, sheets, lot) == Some((sheets[i], SheetHit(d, sheets[i], lot).value))
    ensures SheetsProbed(d, sheets, lot) == sheets[..i + 1]
  {
    FirstHitWins(sheets, Hits(d, sheets, lot), i);
  }

  /** With no sheet holding the lot, nothing is found and every sheet is read. */
  lemma {:induction false} NoSheetHolds(sheets: seq<string>, hits: seq<Option<Row>>)
    requires |hits| == |sheets| && forall j :: 0 <= j < |hits| ==> hits[j].None?
    ensures FirstHit(sheets, hits).None? && ProbedBy(sheets, hits) == sheets
  {
    if |sheets| > 0 {
      assert forall j :: 0 <= j < |hits| - 1 ==> hits[1..][j] == hits[j + 1];
      NoSheetHolds(sheets[1..], hits[1..]);
    }
  }

  /** The result of one lookup: `found` with the row's supplier, internal lot
      and sheet, or not found with those three absent. `implicitCount` and
      `isImplicit` are only ever set by the context step. */
  datatype LotResult = LotResult(
    certLot: string,
    found: bool,
    supplier: Option<string>,
    internalLot: Option<string>,
    sheetFound: Option<string>,
    implicitCount: Option<int>,
    isImplicit: bool)

  /** One turn of the `search_lot` loop over sheet `i`, given what the earlier
      turns established about the outcome `target` and the sheets `probed`:
      a hit ends the search there, a miss moves on. */
  lemma SheetLoopStep(sheets: seq<string>, hits: seq<Option<Row>>, i: nat,
                      probed: seq<string>, target: Option<(string, Row)>)
    requires |hits| == |sheets| && i < |sheets|
    requires probed == sheets[..i] + ProbedBy(sheets[i..], hits[i..])
    requires FirstHit(sheets[i..], hits[i..]) == target
    ensures hits[i].Some? ==> target == Some((sheets[i], hits[i].value)) && probed == sheets[..i + 1]
    ensures hits[i].None? ==>
      (FirstHit(sheets[i + 1..], hits[i + 1..]) == target
      && probed == sheets[..i + 1] + ProbedBy(sheets[i + 1..], hits[i + 1..]))
  {
    FirstHitStep(sheets, hits, i);
    SliceSnoc(sheets, i);
  }

  lemma SliceSnoc<T>(s: seq<T>, i: nat)
    requires i < |s|
    ensures s[..i] + [s[i]] == s[..i + 1]
  {
  }

  /** One turn's load extends the loads of the earlier turns. */
  lemma SheetLoopCache(d: ErpData, c0: map<string, Table>, sheets: seq<string>, i: nat)
    requires i < |sheets|
    ensures AfterLoad(d, AfterLoads(d, c0, sheets[..i]), sheets[i]) == AfterLoads(d, c0, sheets[..i + 1])
  {
    AfterLoadsSnoc(d, c0, sheets, i);
  }


  /** The result record for a lookup outcome. */
  function ResultOf(lot: string, hit: Option<(string, Row)>): LotResult {
    match hit
    case None => LotResult(lot, false, None, None, None, None, false)
    case Some((sheet, row)) => LotResult(lot, true, Some(row.supplier), Some(row.internalLot), Some(sheet), None, false)
  }

  function SearchOutcome(d: ErpData, sheets: seq<string>, lot: string): (r: LotResult)
    ensures r.certLot == lot && !r.isImplicit && r.implicitCount.None?
    ensures r.found <==> exists j :: 0 <= j < |sheets| && SheetHit(d, sheets[j], lot).Some?
    ensures !r.found ==> r.supplier.None? && r.internalLot.None? && r.sheetFound.None?
    ensures r.found ==> r.sheetFound.Some? && r.sheetFound.value in sheets
  {
    FirstHitFinds(sheets, Hits(d, sheets, lot));
    ResultOf(lot, Lookup(d, sheets, lot))
  }

  // ---------------------------------------------------------------------------
  // process_lot_with_context and search_multiple_lots

  /** A found `implicit` lot carries its count (1 when absent) and the implicit flag. */
  function WithContext(r: LotResult, info: LotInfo): (c: LotResult)
    ensures c.certLot == r.certLot && c.found == r.found && c.supplier == r.supplier
      && c.internalLot == r.internalLot && c.sheetFound == r.sheetFound
    ensures info.kind == Implicit && r.found ==> c.isImplicit && c.implicitCount == Some(info.count.GetOr(1))
    ensures !(info.kind == Implicit && r.found) ==> c == r
  {
    if info.kind == Implicit && r.found then r.(implicitCount := Some(info.count.GetOr(1)), isImplicit := true)
    else r
  }

  /** The info entry at a lot's index, or a plain single entry past the end. */
  function InfoAt(info: seq<LotInfo>, i: nat, lot: string): LotInfo {
    if i < |info| then info[i] else LotInfo(lot, Single, None)
  }

  /** One result per lot, in order. */
  function LotOutcomes(d: ErpData, sheets: seq<string>, lots: seq<string>, info: seq<LotInfo>): (rs: seq<LotResult>)
    ensures |rs| == |lots|
    ensures forall i :: 0 <= i < |lots| ==> rs[i].certLot == lots[i]
  {
    seq(|lots|, i requires 0 <= i < |lots| => WithContext(SearchOutcome(d, sheets, lots[i]), InfoAt(info, i, lots[i])))
  }

  /** The sheets read while looking up every lot in order. */
  function LotsProbed(d: ErpData, sheets: seq<string>, lots: seq<string>): seq<string> {
    if |lots| == 0 then []
    else LotsProbed(d, sheets, lots[..|lots| - 1]) + SheetsProbed(d, sheets, lots[|lots| - 1])
  }

  /** Looking up one more lot loads the sheets that lookup reads. */
  lemma LotsProbedStep(d: ErpData, c0: map<string, Table>, sheets: seq<string>, lots: seq<string>, i: nat)
    requires i < |lots|
    ensures AfterLoads(d, c0, LotsProbed(d, sheets, lots[..i + 1]))
      == AfterLoads(d, AfterLoads(d, c0, LotsProbed(d, sheets, lots[..i])), SheetsProbed(d, sheets, lots[i]))
  {
    assert lots[..i + 1][..i] == lots[..i];
    AfterLoadsAppend(d, c0, LotsProbed(d, sheets, lots[..i]), SheetsProbed(d, sheets, lots[i]));
  }

  // ---------------------------------------------------------------------------
  // generate_annotation_text

  /** The rendering of one result: supplier, two spaces, internal lot, both
      stripped; nothing unless it was found with both fields non-empty. */
  function Entry(r: LotResult): Option<string> {
    if !r.found then None
    else
      var supplier := Strip(r.supplier.GetOr(""));
      var internalLot := Strip(r.internalLot.GetOr(""));
      if supplier != "" && internalLot != "" then Some(supplier + "  " + internalLot) else None
  }

  /** The rendered entries, in order. */
  function Rendered(rs: seq<LotResult>): (parts: seq<string>)
    ensures |parts| <= |rs|
  {
    if |rs| == 0 then []
    else
      var e := Entry(rs[|rs| - 1]);
      Rendered(rs[..|rs| - 1]) + (if e.Some? then [e.value] else [])
  }

  predicate AnyFound(rs: seq<LotResult>) {
    exists i :: 0 <= i < |rs| && rs[i].found
  }

  /** The annotation: the sentinel when nothing is found or nothing renders,
      else the rendered entries joined by the separator. */
  function AnnotationText(rs: seq<LotResult>): (text: string)
    ensures !AnyFound(rs) || Rendered(rs) == [] ==> text == NotRegistered
    ensures Rendered(rs) != [] ==> text == JoinOn(Rendered(rs), Separator)
  {
    RenderedEntries(rs);
    if |rs| == 0 || !AnyFound(rs) then NotRegistered
    else
      var parts := Rendered(rs);
      if |parts| == 0 then NotRegistered else JoinOn(parts, Separator)
  }

  /** The rendered entries are exactly those results that render, in order. */
  lemma RenderedEntries(rs: seq<LotResult>)
    ensures Rendered(rs) == [] <==> forall i :: 0 <= i < |rs| ==> Entry(rs[i]).None?
    ensures forall p :: p in Rendered(rs) ==> exists i :: 0 <= i < |rs| && Entry(rs[i]) == Some(p)
  {
    forall p | p in Rendered(rs)
      ensures exists i :: 0 <= i < |rs| && Entry(rs[i]) == Some(p)
    {
      RenderedFrom(rs, p);
    }
    forall i | 0 <= i < |rs| && Entry(rs[i]).Some?
      ensures Rendered(rs) != []
    {
      RenderedInOrder(rs, i);
    }
    if Rendered(rs) != [] {
      assert Rendered(rs)[0] in Rendered(rs);
    }
  }

  lemma {:induction false} RenderedFrom(rs: seq<LotResult>, p: string)
    requires p in Rendered(rs)
    ensures exists i :: 0 <= i < |rs| && Entry(rs[i]) == Some(p)
  {
    var init := rs[..|rs| - 1];
    if p in Rendered(init) {
      RenderedFrom(init, p);
      var i :| 0 <= i < |init| && Entry(init[i]) == Some(p);
      assert rs[i] == init[i];
    } else {
      assert Entry(rs[|rs| - 1]) == Some(p);
    }
  }

  /** The rendered entries before the i-th result. */
  lemma {:induction false} RenderedPrefix(rs: seq<LotResult>, i: nat)
    requires i <= |rs|
    ensures Rendered(rs[..i]) <= Rendered(rs)
    decreases |rs| - i
  {
    if i < |rs| {
      RenderedPrefix(rs, i + 1);
      assert rs[..i + 1][..i] == rs[..i];
    } else {
      assert rs[..i] == rs;
    }
  }

  /** Every result that renders has its entry in the rendering, at the position
      given by the number of entries rendered before it, so in result order. */
  lemma RenderedInOrder(rs: seq<LotResult>, i: nat)
    requires i < |rs| && Entry(rs[i]).Some?
    ensures |Rendered(rs[..i])| < |Rendered(rs)|
    ensures Rendered(rs)[|Rendered(rs[..i])|] == Entry(rs[i]).value
  {
    RenderedPrefix(rs, i + 1);
    RenderedSnoc(rs, i);
    var before := Rendered(rs[..i]);
    assert (before + [Entry(rs[i]).value])[|before|] == Entry(rs[i]).value;
  }

  lemma RenderedSnoc(rs: seq<LotResult>, i: nat)
    requires i < |rs|
    ensures var e := Entry(rs[i]);
      Rendered(rs[..i + 1]) == Rendered(rs[..i]) + (if e.Some? then [e.value] else [])
  {
    assert rs[..i + 1][..i] == rs[..i];
  }

  predicate NoDoubleSpace(s: string) {
    forall i :: 0 <= i < |s| - 1 ==> !(s[i] == ' ' && s[i + 1] == ' ')
  }

  lemma SentinelHasNoDoubleSpace()
    ensures NoDoubleSpace(NotRegistered)
  {
    var s := NotRegistered;
    forall i | 0 <= i < |s| - 1
      ensures !(s[i] == ' ' && s[i + 1] == ' ')
    {
      assert s[3] == ' ' && s[4] != ' ' && s[8] == ' ' && s[9] != ' ' && s[11] == ' ' && s[12] != ' ';
      assert forall j :: 0 <= j < |s| && j != 3 && j != 8 && j != 11 ==> s[j] != ' ';
    }
  }

  lemma JoinOnStartsWithFirst(parts: seq<string>, sep: string)
    requires |parts| > 0
    ensures parts[0] <= JoinOn(parts, sep)
  {
    if |parts| > 1 {
      assert JoinOn(parts, sep) == parts[0] + (sep + JoinOn(parts[1..], sep));
    }
  }

  lemma EntryHasDoubleSpace(r: LotResult)
    requires Entry(r).Some?
    ensures !NoDoubleSpace(Entry(r).value)
  {
    var supplier := Strip(r.supplier.GetOr(""));
    var p := Entry(r).value;
    assert p == supplier + "  " + Strip(r.internalLot.GetOr(""));
    assert p[|supplier|] == ' ' && p[|supplier| + 1] == ' ';
  }

  lemma PrefixDoubleSpace(p: string, t: string)
    requires p <= t && !NoDoubleSpace(p)
    ensures !NoDoubleSpace(t)
  {
    var i :| 0 <= i < |p| - 1 && p[i] == ' ' && p[i + 1] == ' ';
    assert t[i] == ' ' && t[i + 1] == ' ';
  }

  /** Joined rendered entries always contain two adjacent spaces, the sentinel never. */
  lemma RenderedNotSentinel(rs: seq<LotResult>)
    requires Rendered(rs) != []
    ensures JoinOn(Rendered(rs), Separator) != NotRegistered
  {
    var parts := Rendered(rs);
    RenderedEntries(rs);
    assert parts[0] in parts;
    var k :| 0 <= k < |rs| && Entry(rs[k]) == Some(parts[0]);
    EntryHasDoubleSpace(rs[k]);
    JoinOnStartsWithFirst(parts, Separator);
    PrefixDoubleSpace(parts[0], JoinOn(parts, Separator));
    SentinelHasNoDoubleSpace();
  }

  /** The sentinel is produced exactly when no result renders. */
  lemma AnnotationSentinel(rs: seq<LotResult>)
    ensures AnnotationText(rs) == NotRegistered <==> forall i :: 0 <= i < |rs| ==> Entry(rs[i]).None?
  {
    RenderedEntries(rs);
    if exists i :: 0 <= i < |rs| && Entry(rs[i]).Some? {
      var i :| 0 <= i < |rs| && Entry(rs[i]).Some?;
      assert rs[i].found;
      assert AnyFound(rs);
      RenderedNotSentinel(rs);
    }
  }

  /** The loop that collects the rendered entries, then the join. */
  method GenerateAnnotationText(rs: seq<LotResult>) returns (text: string)
    ensures text == AnnotationText(rs)
  {
    if |rs| == 0 || !(exists i :: 0 <= i < |rs| && rs[i].found) {
      return NotRegistered;
    }
    var parts: seq<string> := [];
    var i := 0;
    while i < |rs|
      invariant 0 <= i <= |rs|
      invariant parts == Rendered(rs[..i])
    {
      var result := rs[i];
      if result.found {
        var supplier := Strip(result.supplier.GetOr(""));
        var internalLot := Strip(result.internalLot.GetOr(""));
        if supplier != "" && internalLot != "" {
          parts := parts + [supplier + "  " + internalLot];
        }
      }
      assert rs[..i + 1][..i] == rs[..i];
      i := i + 1;
    }
    assert rs[..|rs|] == rs;
    if |parts| == 0 {
      return NotRegistered;
    }
    text := JoinOn(parts, Separator);
  }

  // ---------------------------------------------------------------------------
  // process_certificate

  function CountFound(rs: seq<LotResult>): (n: nat)
    ensures n <= |rs|
  {
    if |rs| == 0 then 0 else CountFound(rs[..|rs| - 1]) + (if rs[|rs| - 1].found then 1 else 0)
  }

  /** Every lookup succeeded, counted as the sum over the results. */
  lemma {:induction false} CountFoundAll(rs: seq<LotResult>)
    ensures CountFound(rs) == |rs| <==> forall i :: 0 <= i < |rs| ==> rs[i].found
  {
    if |rs| > 0 {
      var init := rs[..|rs| - 1];
      CountFoundAll(init);
      if CountFound(rs) == |rs| {
        forall i | 0 <= i < |rs|
          ensures rs[i].found
        {
          if i < |init| {
            assert rs[i] == init[i];
          }
        }
      }
    }
  }

  /** The record the ERP step hands on for one certificate. */
  datatype ErpResult = ErpResult(
    certNumber: string,
    filePath: string,
    fileName: string,
    product: string,
    lotResults: seq<LotResult>,
    annotationText: string,
    allFound: bool,
    processingTime: string)

  function CertOutcome(d: ErpData, sheets: seq<string>, ext: ExtractionResult, now: string): ErpResult {
    var rs := LotOutcomes(d, sheets, ext.lotNumbers, ext.lotInfo);
    ErpResult(ext.certificationNumber, ext.filePath, ext.fileName, ext.productName, rs,
      AnnotationText(rs), CountFound(rs) == |rs| && |rs| > 0, now)
  }

  /** `all_found` holds exactly when the certificate has lots and every one was found. */
  lemma AllFoundMeansEveryLot(d: ErpData, sheets: seq<string>, ext: ExtractionResult, now: string)
    ensures CertOutcome(d, sheets, ext, now).allFound <==>
      |ext.lotNumbers| > 0 && forall i :: 0 <= i < |ext.lotNumbers| ==>
        exists j :: 0 <= j < |sheets| && SheetHit(d, sheets[j], ext.lotNumbers[i]).Some?
  {
    var rs := LotOutcomes(d, sheets, ext.lotNumbers, ext.lotInfo);
    CountFoundAll(rs);
    assert forall i :: 0 <= i < |rs| ==> rs[i].found == SearchOutcome(d, sheets, ext.lotNumbers[i]).found;
  }

  /** The records for the certificates in order, the i-th stamped `clock(i)`. */
  function CertOutcomes(d: ErpData, sheets: seq<string>, exts: seq<ExtractionResult>, clock: nat -> string): (out: seq<ErpResult>)
    ensures |out| == |exts|
  {
    if |exts| == 0 then []
    else CertOutcomes(d, sheets, exts[..|exts| - 1], clock) + [CertOutcome(d, sheets, exts[|exts| - 1], clock(|exts| - 1))]
  }

  lemma {:induction false} CertOutcomesAt(d: ErpData, sheets: seq<string>, exts: seq<ExtractionResult>, clock: nat -> string, i: nat)
    requires i < |exts|
    ensures CertOutcomes(d, sheets, exts, clock)[i] == CertOutcome(d, sheets, exts[i], clock(i))
  {
    if i < |exts| - 1 {
      CertOutcomesAt(d, sheets, exts[..|exts| - 1], clock, i);
    }
  }

  /** The sheets read while processing the certificates in order. */
  function CertsProbed(d: ErpData, sheets: seq<string>, exts: seq<ExtractionResult>): seq<string> {
    if |exts| == 0 then []
    else CertsProbed(d, sheets, exts[..|exts| - 1]) + LotsProbed(d, sheets, exts[|exts| - 1].lotNumbers)
  }

  // ---------------------------------------------------------------------------
  // The agent

  class ErpAgent {
    const sheets: seq<string>
    const data: ErpData
    var excelCache: map<string, Table>

    ghost predicate Valid()
      reads this
    {
      ValidCache(data, excelCache)
    }

    /** The sheet list and column names from the configuration, with their defaults. */
    constructor(sheetsConfig: Option<seq<string>>, columnsConfig: Option<map<string, string>>,
                workbook: map<string, RawSheet>, parsesAsFloat: string -> bool)
      ensures Valid() && excelCache == map[]
      ensures sheets == sheetsConfig.GetOr(DefaultSheets)
      ensures data == ErpData(workbook, ResolveColumns(columnsConfig.GetOr(DefaultColumnsConfig)), parsesAsFloat)
    {
      sheets := sheetsConfig.GetOr(DefaultSheets);
      data := ErpData(workbook, ResolveColumns(columnsConfig.GetOr(DefaultColumnsConfig)), parsesAsFloat);
      excelCache := map[];
    }

    /** A cached sheet is returned as cached; otherwise it is read, and stored
        only when it has every required column. */
    method LoadExcelSheet(name: string) returns (t: Option<Table>)
      requires Valid()
      modifies this
      ensures Valid()
      ensures t == LoadFresh(data, name)
      ensures name in old(excelCache) ==> t == Some(old(excelCache)[name])
      ensures excelCache == AfterLoad(data, old(excelCache), name)
    {
      if name in excelCache {
        return Some(excelCache[name]);
      }
      t := LoadFresh(data, name);
      if t.Some? {
        excelCache := excelCache[name := t.value];
      }
    }

    method SearchLotInSheet(lot: string, name: string) returns (row: Option<Row>)
      requires Valid()
      modifies this
      ensures Valid()
      ensures row == SheetHit(data, name, lot)
      ensures excelCache == AfterLoad(data, old(excelCache), name)
    {
      var t := LoadExcelSheet(name);
      if t.None? {
        return None;
      }
      row := RowIn(t.value, lot, data.parsesAsFloat);
    }

    /** Try the sheets in order and stop at the first hit. */
    method SearchLot(lot: string) returns (r: LotResult)
      requires Valid()
      modifies this
      ensures Valid()
      ensures r == SearchOutcome(data, sheets, lot)
      ensures excelCache == AfterLoads(data, old(excelCache), SheetsProbed(data, sheets, lot))
    {
      ghost var hits := Hits(data, sheets, lot);
      var i := 0;
      assert sheets[0..] == sheets && hits[0..] == hits;
      while i < |sheets|
        invariant 0 <= i <= |sheets|
        invariant Valid()
        invariant FirstHit(sheets[i..], hits[i..]) == Lookup(data, sheets, lot)
        invariant SheetsProbed(data, sheets, lot) == sheets[..i] + ProbedBy(sheets[i..], hits[i..])
        invariant excelCache == AfterLoads(data, old(excelCache), sheets[..i])
      {
        var row := SearchLotInSheet(lot, sheets[i]);
        SheetLoopCache(data, old(excelCache), sheets, i);
        SheetLoopStep(sheets, hits, i, SheetsProbed(data, sheets, lot), Lookup(data, sheets, lot));
        if row.Some? {
          return ResultOf(lot, Some((sheets[i], row.value)));
        }
        i := i + 1;
      }
      assert sheets[..|sheets|] == sheets && sheets[|sheets|..] == [] && hits[|sheets|..] == [];
      assert SheetsProbed(data, sheets, lot) == sheets;
      r := ResultOf(lot, None);
    }

    /** An `implicit` lot that is found carries its count; every other case,
        including an `implicit` lot not found, returns a second plain lookup. */
    method ProcessLotWithContext(lot: string, info: LotInfo) returns (r: LotResult)
      requires Valid()
      modifies this
      ensures Valid()
      ensures r == WithContext(SearchOutcome(data, sheets, lot), info)
      ensures excelCache == AfterLoads(data, old(excelCache), SheetsProbed(data, sheets, lot))
    {
      if info.kind == Implicit {
        var base := SearchLot(lot);
        if base.found {
          return base.(implicitCount := Some(info.count.GetOr(1)), isImplicit := true);
        }
        AfterLoadsTwice(data, old(excelCache), SheetsProbed(data, sheets, lot));
      }
      r := SearchLot(lot);
    }

    /** One result per lot, in order, with the info at the same index. */
    method SearchMultipleLots(ext: ExtractionResult) returns (results: seq<LotResult>)
      requires Valid()
      modifies this
      ensures Valid()
      ensures results == LotOutcomes(data, sheets, ext.lotNumbers, ext.lotInfo)
      ensures excelCache == AfterLoads(data, old(excelCache), LotsProbed(data, sheets, ext.lotNumbers))
    {
      var lots := ext.lotNumbers;
      if |lots| == 0 {
        return [];
      }
      results := [];
      var i := 0;
      while i < |lots|
        invariant 0 <= i <= |lots|
        invariant Valid()
        invariant results == LotOutcomes(data, sheets, lots, ext.lotInfo)[..i]
        invariant excelCache == AfterLoads(data, old(excelCache), LotsProbed(data, sheets, lots[..i]))
      {
        var info := if i < |ext.lotInfo| then ext.lotInfo[i] else LotInfo(lots[i], Single, None);
        assert info == InfoAt(ext.lotInfo, i, lots[i]);
        var result := ProcessLotWithContext(lots[i], info);
        results := results + [result];
        LotsProbedStep(data, old(excelCache), sheets, lots, i);
        i := i + 1;
      }
      assert lots[..|lots|] == lots;
      assert results == LotOutcomes(data, sheets, lots, ext.lotInfo);
    }

    method ProcessCertificate(ext: ExtractionResult, now: string) returns (c: ErpResult)
      requires Valid()
      modifies this
      ensures Valid()
      ensures c == CertOutcome(data, sheets, ext, now)
      ensures excelCache == AfterLoads(data, old(excelCache), LotsProbed(data, sheets, ext.lotNumbers))
    {
      var lotResults := SearchMultipleLots(ext);
      var foundCount := CountFound(lotResults);
      var allFound := foundCount == |lotResults| && |lotResults| > 0;
      var annotationText := GenerateAnnotationText(lotResults);
      c := ErpResult(ext.certificationNumber, ext.filePath, ext.fileName, ext.productName,
        lotResults, annotationText, allFound, now);
    }

    /** One result per certificate, in order; `clock(i)` is the time read for the i-th. */
    method ProcessAll(exts: seq<ExtractionResult>, clock: nat -> string) returns (out: seq<ErpResult>)
      requires Valid()
      modifies this
      ensures Valid()
      ensures out == CertOutcomes(data, sheets, exts, clock)
      ensures excelCache == AfterLoads(data, old(excelCache), CertsProbed(data, sheets, exts))
    {
      out := [];
      var i := 0;
      while i < |exts|
        invariant 0 <= i <= |exts|
        invariant Valid()
        invariant out == CertOutcomes(data, sheets, exts[..i], clock)
        invariant excelCache == AfterLoads(data, old(excelCache), CertsProbed(data, sheets, exts[..i]))
      {
        var c := ProcessCertificate(exts[i], clock(i));
        out := out + [c];
        assert exts[..i + 1][..i] == exts[..i];
        AfterLoadsAppend(data, old(excelCache), CertsProbed(data, sheets, exts[..i]), LotsProbed(data, sheets, exts[i].lotNumbers));
        i := i + 1;
      }
      assert exts[..|exts|] == exts;
    }

    /** Nothing to do for a missing or empty list. */
    method Run(exts: Option<seq<ExtractionResult>>, clock: nat -> string) returns (out: seq<ErpResult>)
      requires Valid()
      modifies this
      ensures Valid()
      ensures exts.None? || exts.value == [] ==> out == [] && excelCache == old(excelCache)
      ensures exts.Some? ==> out == CertOutcomes(data, sheets, exts.value, clock)
      ensures exts.Some? ==> excelCache == AfterLoads(data, old(excelCache), CertsProbed(data, sheets, exts.value))
    {
      if exts.None? || exts.value == [] {
        return [];
      }
      out := ProcessAll(exts.value, clock);
    }
  }
}
