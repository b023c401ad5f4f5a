/**
 * The symbol-master importer: picks the Prime-market rows of the exchange's
 * listing sheet, extracts code, name and sector from the first usable column
 * of each kind, normalises the code, and writes the rows into `stock_master`
 * under one of three modes (skip, update, replace), counting the outcome of
 * every row. The sheet itself, yfinance and the database are outside the model.
 */
module Importer {
  import opened Util
  import opened Store

  // ---------------------------------------------------------------------------
  // Strings

  /** `sub in s` on Python strings. */
  predicate Contains(s: string, sub: string)
    decreases |s|
  {
    sub <= s || (s != [] && Contains(s[1..], sub))
  }

  lemma {:induction false} ContainsAt(s: string, sub: string, i: nat)
    requires i + |sub| <= |s| && s[i..i + |sub|] == sub
    ensures Contains(s, sub)
    decreases i
  {
    if i > 0 {
      assert s[1..][i - 1..i - 1 + |sub|] == s[i..i + |sub|];
      ContainsAt(s[1..], sub, i - 1);
    }
  }

  /** str.replace('.0', ''): every non-overlapping ".0", scanning left to right, is removed. */
  function RemoveDotZero(s: string): (r: string)
    ensures |r| <= |s|
    decreases |s|
  {
    if |s| >= 2 && s[0] == '.' && s[1] == '0' then RemoveDotZero(s[2..])
    else if s == [] then []
    else [s[0]] + RemoveDotZero(s[1..])
  }

  predicate IsDigits(s: string) {
    forall i :: 0 <= i < |s| ==> '0' <= s[i] <= '9'
  }

  /** A string without any '.' is left as it is. */
  lemma {:induction false} RemoveDotZeroNoDot(s: string)
    requires forall i :: 0 <= i < |s| ==> s[i] != '.'
    ensures RemoveDotZero(s) == s
    decreases |s|
  {
    if s != [] {
      RemoveDotZeroNoDot(s[1..]);
    }
  }

  /** Removal distributes over a concatenation whose seam cannot be the middle of a ".0". */
  lemma {:induction false} RemoveDotZeroAppend(s: string, t: string)
    requires s == [] || t == [] || s[|s| - 1] != '.' || t[0] != '0'
    ensures RemoveDotZero(s + t) == RemoveDotZero(s) + RemoveDotZero(t)
    decreases |s|
  {
    if s == [] {
      assert s + t == t;
    } else if |s| >= 2 && s[0] == '.' && s[1] == '0' {
      var u := s + t;
      assert u[0] == '.' && u[1] == '0' && u[2..] == s[2..] + t;
      RemoveDotZeroAppend(s[2..], t);
    } else {
      var u := s + t;
      assert u[0] == s[0] && u[1..] == s[1..] + t;
      assert !(|u| >= 2 && u[0] == '.' && u[1] == '0') by {
        if |u| >= 2 && |s| == 1 { assert u[1] == t[0]; } else if |u| >= 2 { assert u[1] == s[1]; }
      }
      RemoveDotZeroAppend(s[1..], t);
    }
  }

  /** A code that the sheet stores as a float, "7203.0", loses exactly its ".0". */
  lemma FloatCodeLosesSuffix(digits: string)
    requires IsDigits(digits)
    ensures RemoveDotZero(digits + ".0") == digits
  {
    RemoveDotZeroAppend(digits, ".0");
    RemoveDotZeroNoDot(digits);
  }

  function Zeros(n: nat): (z: string)
    ensures |z| == n && forall i :: 0 <= i < n ==> z[i] == '0'
  {
    if n == 0 then [] else "0" + Zeros(n - 1)
  }

  /** str.zfill(width): left-pads with '0' to `width`, after a leading sign if there is one. */
  function ZFill(s: string, width: nat): (r: string)
    ensures |r| == Max(|s|, width)
  {
    if |s| >= width then s
    else if s != [] && (s[0] == '+' || s[0] == '-') then [s[0]] + Zeros(width - |s|) + s[1..]
    else Zeros(width - |s|) + s
  }

  /** Padding keeps the digits at the end and adds only zeros; padding twice pads once. */
  lemma ZFillFacts(s: string, width: nat)
    ensures s != [] && s[0] != '+' && s[0] != '-' ==> ZFill(s, width) == Zeros(Max(|s|, width) - |s|) + s
    ensures ZFill(ZFill(s, width), width) == ZFill(s, width)
  {
    if |s| < width {
      assert |ZFill(s, width)| == width;
    } else {
      assert Zeros(0) == [];
    }
  }

  /** The four-digit code the importer stores: ".0" removed, then zero-padded. */
  function NormalizeCode(raw: string): (code: string)
    ensures |code| >= 4
  {
    ZFill(RemoveDotZero(raw), 4)
  }

  /** The Tokyo-listing ticker of a code. */
  function SymbolOf(code: string): (symbol: string)
    ensures |symbol| == |code| + 2 && symbol[..|code|] == code && symbol[|code|..] == ".T"
  {
    code + ".T"
  }

  /** A code read as a float and the same code read as text normalise alike. */
  lemma NormalizeFloatCode(digits: string)
    requires IsDigits(digits)
    ensures NormalizeCode(digits + ".0") == NormalizeCode(digits)
    ensures |digits| >= 4 ==> NormalizeCode(digits) == digits
  {
    FloatCodeLosesSuffix(digits);
    RemoveDotZeroNoDot(digits);
  }

  // ---------------------------------------------------------------------------
  // The listing sheet

  /** One sheet row: column name to its cell; a None cell is NaN (empty). */
  type Row = map<string, Option<string>>

  /** The sheet as read: its columns in order and its rows. */
  datatype Sheet = Sheet(columns: seq<string>, rows: seq<Row>)

  const CodeColumns: seq<string> := ["銘柄コード", "コード", "Code", "Symbol", "証券コード"]
  const NameColumns: seq<string> := ["銘柄名", "会社名", "Name", "CompanyName", "銘柄略称"]
  const SectorColumns: seq<string> := ["業種", "Sector", "33業種区分", "業種分類"]

  predicate Usable(row: Row, column: string) {
    column in row && row[column].Some?
  }

  /** The value of the first column in `columns` that the row has and that is not empty. */
  function FirstValue(row: Row, columns: seq<string>): (v: Option<string>)
    ensures v.None? <==> forall i :: 0 <= i < |columns| ==> !Usable(row, columns[i])
    ensures v.Some? ==> exists i :: (0 <= i < |columns| && Usable(row, columns[i]) && row[columns[i]] == v
        && forall j :: 0 <= j < i ==> !Usable(row, columns[j]))
    decreases |columns|
  {
    if columns == [] then None
    else if Usable(row, columns[0]) then
      assert Usable(row, columns[0]) && row[columns[0]] == row[columns[0]];
      row[columns[0]]
    else
      var v := FirstValue(row, columns[1..]);
      if v.Some? then
        ghost var i :| 0 <= i < |columns[1..]| && Usable(row, columns[1..][i]) && row[columns[1..][i]] == v
          && forall j :: 0 <= j < i ==> !Usable(row, columns[1..][j]);
        assert columns[1..][i] == columns[i + 1];
        v
      else v
  }

  /** str(cell) of a market cell: NaN reads as "nan". */
  function CellText(c: Option<string>): string {
    c.GetOr("nan")
  }

  predicate IsMarketColumn(column: string) {
    Contains(column, "市場") || Contains(column, "Market") || Contains(column, "区分")
  }

  predicate IsPrimeRow(row: Row, marketColumn: string) {
    marketColumn in row && (Contains(CellText(row[marketColumn]), "プライム") || Contains(CellText(row[marketColumn]), "Prime"))
  }

  /** The market columns of the sheet, in sheet order; the first of them is
      the first column of the sheet whose name marks a market column. */
  function MarketColumns(columns: seq<string>): (r: seq<string>)
    ensures forall c :: c in r <==> c in columns && IsMarketColumn(c)
    ensures r != [] ==> exists i :: (0 <= i < |columns| && columns[i] == r[0] && IsMarketColumn(columns[i])
      && forall j :: 0 <= j < i ==> !IsMarketColumn(columns[j]))
    decreases |columns|
  {
    if columns == [] then []
    else if IsMarketColumn(columns[0]) then [columns[0]] + MarketColumns(columns[1..])
    else
      var rest := MarketColumns(columns[1..]);
      if rest != [] then
        ghost var i :| 0 <= i < |columns[1..]| && columns[1..][i] == rest[0] && IsMarketColumn(columns[1..][i])
          && forall j :: 0 <= j < i ==> !IsMarketColumn(columns[1..][j]);
        assert columns[i + 1] == rest[0];
        assert forall j :: 0 <= j < i + 1 ==> !IsMarketColumn(columns[j]) by {
          forall j | 0 <= j < i + 1 ensures !IsMarketColumn(columns[j]) {
            if j > 0 { assert columns[j] == columns[1..][j - 1]; }
          }
        }
        rest
      else rest
  }

  /** The rows whose market cell mentions the Prime market. */
  function PrimeOnly(rows: seq<Row>, marketColumn: string): (r: seq<Row>)
    ensures |r| <= |rows|
    ensures forall row :: row in r <==> row in rows && IsPrimeRow(row, marketColumn)
    decreases |rows|
  {
    if rows == [] then []
    else (if IsPrimeRow(rows[0], marketColumn) then [rows[0]] else []) + PrimeOnly(rows[1..], marketColumn)
  }

  /** Each Prime row is kept as often as it occurs; no other row is kept. */
  lemma {:induction false} PrimeOnlyCounts(rows: seq<Row>, marketColumn: string, row: Row)
    ensures multiset(PrimeOnly(rows, marketColumn))[row]
         == if IsPrimeRow(row, marketColumn) then multiset(rows)[row] else 0
    decreases |rows|
  {
    if rows != [] {
      assert rows == [rows[0]] + rows[1..];
      PrimeOnlyCounts(rows[1..], marketColumn, row);
    }
  }

  /** The filter keeps the order of the sheet: one more row at the end adds
      at most that row, at the end. */
  lemma {:induction false} PrimeOnlyAppend(rows: seq<Row>, row: Row, marketColumn: string)
    ensures PrimeOnly(rows + [row], marketColumn)
         == PrimeOnly(rows, marketColumn) + (if IsPrimeRow(row, marketColumn) then [row] else [])
    decreases |rows|
  {
    if rows == [] {
      assert [row][1..] == [];
    } else {
      var u := rows + [row];
      assert u[0] == rows[0] && u[1..] == rows[1..] + [row];
      PrimeOnlyAppend(rows[1..], row, marketColumn);
    }
  }

  /** The rows kept by the Prime filter: those whose first market column
      mentions the Prime market; all rows when the sheet has no market
      column or no row matches. */
  function PrimeRows(sheet: Sheet): (r: seq<Row>)
    ensures var markets := MarketColumns(sheet.columns);
      markets == [] ==> r == sheet.rows
    ensures var markets := MarketColumns(sheet.columns);
      markets != [] ==>
        if exists row :: row in sheet.rows && IsPrimeRow(row, markets[0])
        then r == PrimeOnly(sheet.rows, markets[0])
          && forall row :: row in r <==> row in sheet.rows && IsPrimeRow(row, markets[0])
        else r == sheet.rows
  {
    var markets := MarketColumns(sheet.columns);
    if markets == [] then sheet.rows
    else
      var prime := PrimeOnly(sheet.rows, markets[0]);
      if prime == [] then sheet.rows
      else
        assert prime[0] in prime;
        prime
  }

  /** One row of the extracted listing. */
  datatype ListedStock = ListedStock(code: string, name: string, sector: string)

  /** A row yields a stock when it has a code and a non-empty name; the
      code is normalised and a missing sector becomes "". */
  function ExtractRow(row: Row): (r: Option<ListedStock>)
    ensures r.Some? <==> FirstValue(row, CodeColumns).Some? && FirstValue(row, NameColumns).Some?
                         && FirstValue(row, NameColumns).value != ""
    ensures r.Some? ==> r.value.code == NormalizeCode(FirstValue(row, CodeColumns).value)
    ensures r.Some? ==> r.value.name == FirstValue(row, NameColumns).value
    ensures r.Some? ==> r.value.sector == FirstValue(row, SectorColumns).GetOr("")
  {
    var code := FirstValue(row, CodeColumns);
    var name := FirstValue(row, NameColumns);
    var sector := FirstValue(row, SectorColumns);
    if code.Some? && name.Some? && name.value != "" then
      Some(ListedStock(NormalizeCode(code.value), name.value, sector.GetOr("")))
    else None
  }

  function ExtractAll(rows: seq<Row>): (r: seq<ListedStock>)
    ensures |r| <= |rows|
    decreases |rows|
  {
    if rows == [] then []
    else
      var prev := ExtractAll(rows[..|rows| - 1]);
      match ExtractRow(rows[|rows| - 1])
      case Some(stock) => prev + [stock]
      case None => prev
  }

  lemma ExtractAllStep(rows: seq<Row>, i: nat)
    requires i < |rows|
    ensures ExtractAll(rows[..i + 1]) == ExtractAll(rows[..i]) + (if ExtractRow(rows[i]).Some? then [ExtractRow(rows[i]).value] else [])
  {
    assert rows[..i + 1][..i] == rows[..i];
  }

  /** The listing extracted from a sheet. */
  function ListedStocks(sheet: Sheet): seq<ListedStock> {
    ExtractAll(PrimeRows(sheet))
  }

  /** Every extracted stock comes from a kept row, with a code of at least
      four characters and a non-empty name. */
  lemma {:induction false} ExtractAllFacts(rows: seq<Row>)
    ensures forall s :: s in ExtractAll(rows) ==> |s.code| >= 4 && s.name != ""
    ensures forall s :: s in ExtractAll(rows) ==> exists row :: row in rows && ExtractRow(row) == Some(s)
    ensures forall row :: row in rows && ExtractRow(row).Some? ==> ExtractRow(row).value in ExtractAll(rows)
    decreases |rows|
  {
    if rows != [] {
      var init := rows[..|rows| - 1];
      ExtractAllFacts(init);
      assert rows == init + [rows[|rows| - 1]];
      forall s | s in ExtractAll(rows) ensures exists row :: row in rows && ExtractRow(row) == Some(s) {
        if s in ExtractAll(init) {
          var row :| row in init && ExtractRow(row) == Some(s);
          assert row in rows;
        } else {
          assert ExtractRow(rows[|rows| - 1]) == Some(s);
        }
      }
    }
  }

  // ---------------------------------------------------------------------------
  // Writing the master table

  datatype Mode = SkipExisting | UpdateExisting | ReplaceExisting

  /** What the validator reports about a ticker: whether it is known, with its
      long name and sector when it is. */
  datatype Validation = Validation(valid: bool, longName: Option<string>, sector: Option<string>)

  type Validator = string -> Validation

  datatype RowOutcome = Saved | Invalid | Existing

  /** The master row written for a stock, with the validator's English name and industry. */
  function NewMasterRow(code: string, stock: ListedStock, v: Validation): MasterRow {
    MasterRow(SymbolOf(code), stock.name, v.longName.GetOr(""), stock.sector, v.sector.GetOr(""))
  }

  /** One input row against the table. */
  function ImportRow(t: MasterTable, stock: ListedStock, mode: Mode, validate: Validator): (MasterTable, RowOutcome) {
    var code := ZFill(stock.code, 4);
    if mode == SkipExisting && code in t then (t, Existing)
    else
      var v := validate(SymbolOf(code));
      if !v.valid then (t, Invalid)
      else
        var row := NewMasterRow(code, stock, v);
        match mode
        case UpdateExisting =>
          // on a duplicate code the symbol column is not among the updated ones
          if code in t then (t[code := row.(symbol := t[code].symbol)], Saved) else (t[code := row], Saved)
        case _ => (t[code := row], Saved)
  }

  datatype ImportResult = ImportResult(table: MasterTable, success: nat, skipped: nat, existing: nat)

  /** The new table, with one more row counted under its outcome. */
  function Record(prev: ImportResult, table: MasterTable, outcome: RowOutcome): ImportResult {
    match outcome
    case Saved => ImportResult(table, prev.success + 1, prev.skipped, prev.existing)
    case Invalid => ImportResult(table, prev.success, prev.skipped + 1, prev.existing)
    case Existing => ImportResult(table, prev.success, prev.skipped, prev.existing + 1)
  }

  function ImportAll(t: MasterTable, stocks: seq<ListedStock>, mode: Mode, validate: Validator): ImportResult
    decreases |stocks|
  {
    if stocks == [] then ImportResult(t, 0, 0, 0)
    else
      var prev := ImportAll(t, stocks[..|stocks| - 1], mode, validate);
      var (table, outcome) := ImportRow(prev.table, stocks[|stocks| - 1], mode, validate);
      Record(prev, table, outcome)
  }

  /** One more input row continues from the result of the shorter prefix. */
  lemma ImportAllStep(t: MasterTable, stocks: seq<ListedStock>, mode: Mode, validate: Validator, i: nat)
    requires i < |stocks|
    ensures var prev := ImportAll(t, stocks[..i], mode, validate);
      var (table, outcome) := ImportRow(prev.table, stocks[i], mode, validate);
      ImportAll(t, stocks[..i + 1], mode, validate) == Record(prev, table, outcome)
  {
    assert stocks[..i + 1][..i] == stocks[..i];
  }

  /** The codes the input rows are written under. */
  function CodesOf(stocks: seq<ListedStock>): set<string>
    decreases |stocks|
  {
    if stocks == [] then {} else CodesOf(stocks[..|stocks| - 1]) + {ZFill(stocks[|stocks| - 1].code, 4)}
  }

  /** One row: an existing code is reported only in skip mode; otherwise a
      rejected ticker is counted invalid and a valid one is saved, as a new
      row, or in update mode over an existing code keeping its symbol; only a
      saved row changes the table, and only at its own code. */
  lemma ImportRowFacts(t: MasterTable, stock: ListedStock, mode: Mode, validate: Validator)
    ensures var (r, outcome) := ImportRow(t, stock, mode, validate);
      var code := ZFill(stock.code, 4);
      var v := validate(SymbolOf(code));
      && (outcome == Existing <==> mode == SkipExisting && code in t)
      && (outcome == Invalid <==> !(mode == SkipExisting && code in t) && !v.valid)
      && (outcome == Saved <==> !(mode == SkipExisting && code in t) && v.valid)
      && (outcome == Saved ==> r.Keys == t.Keys + {code} && code in r)
      && (outcome == Saved ==>
            r[code] == if mode == UpdateExisting && code in t
                       then NewMasterRow(code, stock, v).(symbol := t[code].symbol)
                       else NewMasterRow(code, stock, v))
      && (outcome != Saved ==> r == t)
      && (forall c :: c != code && c in t ==> c in r && r[c] == t[c])
      && r.Keys <= t.Keys + {code}
  {
  }

  /** Every input row is counted exactly once, and only skip mode counts existing codes. */
  lemma {:induction false} ImportCounts(t: MasterTable, stocks: seq<ListedStock>, mode: Mode, validate: Validator)
    ensures var r := ImportAll(t, stocks, mode, validate);
      r.success + r.skipped + r.existing == |stocks| && (mode != SkipExisting ==> r.existing == 0)
    decreases |stocks|
  {
    if stocks != [] {
      var init := stocks[..|stocks| - 1];
      ImportCounts(t, init, mode, validate);
      ImportRowFacts(ImportAll(t, init, mode, validate).table, stocks[|stocks| - 1], mode, validate);
    }
  }

  /** No mode removes a code (replace deletes and re-inserts only the code
      it writes); only codes of the input are added; a code absent from the
      input keeps its row. */
  lemma {:induction false} ImportTouchesOnlyInputCodes(t: MasterTable, stocks: seq<ListedStock>, mode: Mode, validate: Validator)
    ensures var r := ImportAll(t, stocks, mode, validate);
      && t.Keys <= r.table.Keys
      && r.table.Keys <= t.Keys + CodesOf(stocks)
      && (forall c :: c in t && c !in CodesOf(stocks) ==> r.table[c] == t[c])
    decreases |stocks|
  {
    if stocks != [] {
      var init := stocks[..|stocks| - 1];
      ImportTouchesOnlyInputCodes(t, init, mode, validate);
      ImportRowFacts(ImportAll(t, init, mode, validate).table, stocks[|stocks| - 1], mode, validate);
    }
  }

  /** A code whose ticker the validator rejects is never written. */
  lemma {:induction false} ImportSkipsInvalid(t: MasterTable, stocks: seq<ListedStock>, mode: Mode, validate: Validator, c: string)
    requires !validate(SymbolOf(c)).valid
    ensures var r := ImportAll(t, stocks, mode, validate);
      (c in r.table <==> c in t) && (c in t ==> r.table[c] == t[c])
    decreases |stocks|
  {
    if stocks != [] {
      var init := stocks[..|stocks| - 1];
      ImportSkipsInvalid(t, init, mode, validate, c);
      ImportRowFacts(ImportAll(t, init, mode, validate).table, stocks[|stocks| - 1], mode, validate);
    }
  }

  /** A skip-mode import never alters a row that existed before it. */
  lemma {:induction false} SkipModeKeepsExisting(t: MasterTable, stocks: seq<ListedStock>, validate: Validator)
    ensures var r := ImportAll(t, stocks, SkipExisting, validate);
      forall c :: c in t ==> c in r.table && r.table[c] == t[c]
    decreases |stocks|
  {
    if stocks != [] {
      var init := stocks[..|stocks| - 1];
      SkipModeKeepsExisting(t, init, validate);
      ImportRowFacts(ImportAll(t, init, SkipExisting, validate).table, stocks[|stocks| - 1], SkipExisting, validate);
    }
  }

  /** In update and replace modes, a code whose ticker validates ends up
      holding the name and sector of its last input row. */
  lemma {:induction false} ImportWritesLastRow(t: MasterTable, stocks: seq<ListedStock>, mode: Mode, validate: Validator, i: nat)
    requires mode != SkipExisting && i < |stocks|
    requires validate(SymbolOf(ZFill(stocks[i].code, 4))).valid
    requires forall j :: i < j < |stocks| ==> ZFill(stocks[j].code, 4) != ZFill(stocks[i].code, 4)
    ensures var r := ImportAll(t, stocks, mode, validate);
      var code := ZFill(stocks[i].code, 4);
      var v := validate(SymbolOf(code));
      && code in r.table
      && r.table[code].name == stocks[i].name && r.table[code].sector == stocks[i].sector
      && r.table[code].nameEn == v.longName.GetOr("") && r.table[code].industry == v.sector.GetOr("")
      && (mode == ReplaceExisting || code !in t ==> r.table[code].symbol == SymbolOf(code))
    decreases |stocks|
  {
    var code := ZFill(stocks[i].code, 4);
    var init := stocks[..|stocks| - 1];
    var prev := ImportAll(t, init, mode, validate);
    ImportRowFacts(prev.table, stocks[|stocks| - 1], mode, validate);
    if i < |stocks| - 1 {
      assert init[i] == stocks[i];
      ImportWritesLastRow(t, init, mode, validate, i);
    } else if mode == UpdateExisting && code !in t && code in prev.table {
      SymbolKeptForCode(t, init, validate, code);
    }
  }

  /** A code occurs among the written codes exactly when some input row pads to it. */
  lemma {:induction false} CodesOfMembers(stocks: seq<ListedStock>, c: string)
    ensures c in CodesOf(stocks) <==> exists j :: 0 <= j < |stocks| && ZFill(stocks[j].code, 4) == c
    decreases |stocks|
  {
    if stocks != [] {
      var init := stocks[..|stocks| - 1];
      CodesOfMembers(init, c);
      if c in CodesOf(init) {
        var j :| 0 <= j < |init| && ZFill(init[j].code, 4) == c;
        assert stocks[j] == init[j];
      }
      if exists j :: 0 <= j < |stocks| && ZFill(stocks[j].code, 4) == c {
        var j :| 0 <= j < |stocks| && ZFill(stocks[j].code, 4) == c;
        if j < |init| { assert init[j] == stocks[j]; }
      }
    }
  }

  /** In skip mode, a new code whose ticker validates is inserted from its
      first input row; its later rows find it existing and leave it as it is. */
  lemma {:induction false} SkipModeInsertsNew(t: MasterTable, stocks: seq<ListedStock>, validate: Validator, i: nat)
    requires i < |stocks|
    requires ZFill(stocks[i].code, 4) !in t
    requires validate(SymbolOf(ZFill(stocks[i].code, 4))).valid
    requires forall j :: 0 <= j < i ==> ZFill(stocks[j].code, 4) != ZFill(stocks[i].code, 4)
    ensures var r := ImportAll(t, stocks, SkipExisting, validate);
      var code := ZFill(stocks[i].code, 4);
      code in r.table && r.table[code] == NewMasterRow(code, stocks[i], validate(SymbolOf(code)))
    decreases |stocks|
  {
    var code := ZFill(stocks[i].code, 4);
    var init := stocks[..|stocks| - 1];
    var prev := ImportAll(t, init, SkipExisting, validate);
    ImportRowFacts(prev.table, stocks[|stocks| - 1], SkipExisting, validate);
    if i < |stocks| - 1 {
      assert init[i] == stocks[i];
      forall j | 0 <= j < i ensures ZFill(init[j].code, 4) != code {
        assert init[j] == stocks[j];
      }
      SkipModeInsertsNew(t, init, validate, i);
    } else {
      ImportTouchesOnlyInputCodes(t, init, SkipExisting, validate);
      forall j | 0 <= j < |init| ensures ZFill(init[j].code, 4) != code {
        assert init[j] == stocks[j];
      }
      CodesOfMembers(init, code);
      assert code !in prev.table;
    }
  }

  /** In update mode, a code already in the table keeps its symbol. */
  lemma {:induction false} UpdateKeepsSymbol(t: MasterTable, stocks: seq<ListedStock>, validate: Validator, code: string)
    requires code in t
    ensures var r := ImportAll(t, stocks, UpdateExisting, validate);
      code in r.table && r.table[code].symbol == t[code].symbol
    decreases |stocks|
  {
    if stocks != [] {
      var init := stocks[..|stocks| - 1];
      UpdateKeepsSymbol(t, init, validate, code);
      ImportRowFacts(ImportAll(t, init, UpdateExisting, validate).table, stocks[|stocks| - 1], UpdateExisting, validate);
    }
  }

  /** In update mode, the symbol of a code that was not in the table is the ticker of that code. */
  lemma {:induction false} SymbolKeptForCode(t: MasterTable, stocks: seq<ListedStock>, validate: Validator, code: string)
    requires code !in t
    ensures var r := ImportAll(t, stocks, UpdateExisting, validate);
      code in r.table ==> r.table[code].symbol == SymbolOf(code)
    decreases |stocks|
  {
    if stocks != [] {
      SymbolKeptForCode(t, stocks[..|stocks| - 1], validate, code);
    }
  }

  // ---------------------------------------------------------------------------
  // The importer's loops

  /** The column search of the extraction loop: the first usable column, stopping there. */
  method FirstPresent(row: Row, columns: seq<string>) returns (v: Option<string>)
    ensures v == FirstValue(row, columns)
  {
    v := None;
    var i := 0;
    while i < |columns|
      invariant 0 <= i <= |columns|
      invariant FirstValue(row, columns) == FirstValue(row, columns[i..])
    {
      if columns[i] in row && row[columns[i]].Some? {
        v := row[columns[i]];
        break;
      }
      assert columns[i..][1..] == columns[i + 1..];
      i := i + 1;
    }
  }

  /** The body of the extraction loop for one row. */
  method ExtractOne(row: Row) returns (r: Option<ListedStock>)
    ensures r == ExtractRow(row)
  {
    var code := FirstPresent(row, CodeColumns);
    var name := FirstPresent(row, NameColumns);
    var sector := FirstPresent(row, SectorColumns);
    if code.Some? && name.Some? && name.value != "" {
      return Some(ListedStock(NormalizeCode(code.value), name.value, sector.GetOr("")));
    }
    return None;
  }

  /** get_prime_stocks_from_excel, after the sheet is read: filter, then extract row by row. */
  method ExtractListedStocks(sheet: Sheet) returns (result: seq<ListedStock>)
    ensures result == ListedStocks(sheet)
  {
    var rows := PrimeRows(sheet);
    result := [];
    for i := 0 to |rows|
      invariant result == ExtractAll(rows[..i])
    {
      ExtractAllStep(rows, i);
      var stock := ExtractOne(rows[i]);
      if stock.Some? {
        result := result + [stock.value];
      }
    }
    assert rows[..|rows|] == rows;
  }

  /** The body of the write loop for one row. */
  method WriteRow(db: Database, stock: ListedStock, mode: Mode, validate: Validator) returns (outcome: RowOutcome)
    modifies db`master
    ensures (db.master, outcome) == ImportRow(old(db.master), stock, mode, validate)
  {
    var code := ZFill(stock.code, 4);
    if mode == SkipExisting && code in db.master {
      return Existing;
    }
    var v := validate(SymbolOf(code));
    if !v.valid {
      return Invalid;
    }
    var row := NewMasterRow(code, stock, v);
    if mode == UpdateExisting && code in db.master {
      row := row.(symbol := db.master[code].symbol);
    }
    db.master := db.master[code := row];
    return Saved;
  }

  /** save_stock_master_to_db: writes every row under the mode and returns the
      success, invalid-ticker and already-existing counts. */
  method SaveStockMaster(db: Database, stocks: seq<ListedStock>, mode: Mode, validate: Validator)
    returns (success: nat, skipped: nat, existing: nat)
    modifies db`master
    ensures ImportResult(db.master, success, skipped, existing) == ImportAll(old(db.master), stocks, mode, validate)
  {
    success, skipped, existing := 0, 0, 0;
    for i := 0 to |stocks|
      invariant ImportResult(db.master, success, skipped, existing) == ImportAll(old(db.master), stocks[..i], mode, validate)
    {
      ImportAllStep(old(db.master), stocks, mode, validate, i);
      var outcome := WriteRow(db, stocks[i], mode, validate);
      match outcome {
        case Saved => success := success + 1;
        case Invalid => skipped := skipped + 1;
        case Existing => existing := existing + 1;
      }
    }
    assert stocks[..|stocks|] == stocks;
  }
}
