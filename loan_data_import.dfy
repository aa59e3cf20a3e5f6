/**
 * `LoanDataImporter`: reads the rate table from CSV rows. A `value_index` row
 * selects a (company, loan type, addition type) scope, records the ten value
 * index thresholds and deletes the scope's rows; each following `values` row
 * adds one row per threshold for one credit score.
 *
 * A CSV row is a map from column name to cell text. The database is four
 * tables: company titles, loan type names, addition type names and the rate
 * table itself. Entities are identified by their name.
 */
module LoanDataImport {
  import opened Wrappers
  import opened RateTable

  type CsvRow = map<string, string>

  /** The three kinds of named entity `get_or_create` is called on. */
  datatype Kind = CompanyKind | LoanTypeKind | ValueTypeKind

  /** Why an import stops: a missing column (`KeyError`), a cell `int` or
      `float` cannot read (`ValueError`), a `values` row before any header
      (iterating `None`), a row of another type (the debugger hook), or a
      name that matches several objects. */
  datatype ImportError =
    | MissingColumn(column: string)
    | NotAnInteger(text: string)
    | NotANumber(text: string)
    | NoHeaderYet
    | UnknownRowType(rowType: string)
    | MultipleObjects(kind: Kind, key: string)

  // ---------------------------------------------------------------------------
  // Reading numbers

  predicate IsDecimalDigit(c: char) {
    '0' <= c && c <= '9'
  }

  predicate AllDigits(s: string) {
    forall i :: 0 <= i < |s| ==> IsDecimalDigit(s[i])
  }

  /** The number a string of decimal digits spells. */
  function DigitsValue(s: string): nat
    requires AllDigits(s)
    decreases |s|
  {
    if s == [] then 0 else DigitsValue(s[..|s| - 1]) * 10 + (s[|s| - 1] as int - '0' as int)
  }

  /** `int(text)` on an optionally signed run of digits. */
  function ParseInt(text: string): Option<int> {
    if |text| > 0 && (text[0] == '-' || text[0] == '+') then
      if |text| > 1 && AllDigits(text[1..]) then
        var n: int := DigitsValue(text[1..]);
        Some(if text[0] == '-' then -n else n)
      else None
    else if |text| > 0 && AllDigits(text) then Some(DigitsValue(text))
    else None
  }

  function Power10(n: nat): (p: nat)
    ensures p > 0
  {
    if n == 0 then 1 else 10 * Power10(n - 1)
  }

  /** The position of the first `.` in `s`, or `|s|` when there is none. */
  function DotIndex(s: string): (i: nat)
    ensures i <= |s|
    ensures i < |s| ==> s[i] == '.'
    ensures forall j :: 0 <= j < i ==> s[j] != '.'
  {
    if s == [] then 0 else if s[0] == '.' then 0 else 1 + DotIndex(s[1..])
  }

  /** Digits with at most one decimal point and at least one digit. */
  function UnsignedDecimal(s: string): Option<real> {
    var i := DotIndex(s);
    var whole := s[..i];
    var fraction := if i < |s| then s[i + 1..] else "";
    if AllDigits(whole) && AllDigits(fraction) && |whole| + |fraction| > 0 then
      Some(DigitsValue(whole) as real + DigitsValue(fraction) as real / Power10(|fraction|) as real)
    else None
  }

  /** `float(text)` on an optionally signed decimal. */
  function ParseFloat(text: string): Option<real> {
    if |text| > 0 && (text[0] == '-' || text[0] == '+') then
      match UnsignedDecimal(text[1..])
      case None => None
      case Some(x) => Some(if text[0] == '-' then -x else x)
    else UnsignedDecimal(text)
  }

  function DigitChar(d: nat): char
    requires d < 10
  {
    ('0' as int + d) as char
  }

  /** The decimal spelling of a natural number. */
  function NatToString(n: nat): string
    decreases n
  {
    if n < 10 then [DigitChar(n)] else NatToString(n / 10) + [DigitChar(n % 10)]
  }

  /** `str(n)` / `'{0}'.format(n)` for an integer. */
  function IntToString(n: int): string {
    if n < 0 then "-" + NatToString(-n) else NatToString(n)
  }

  lemma {:induction false} NatToStringIsDigits(n: nat)
    ensures |NatToString(n)| > 0 && AllDigits(NatToString(n)) && DigitsValue(NatToString(n)) == n
    decreases n
  {
    if n >= 10 {
      NatToStringIsDigits(n / 10);
      var s := NatToString(n);
      assert s[..|s| - 1] == NatToString(n / 10);
    }
  }

  /** `int` reads back every integer `str` writes. */
  lemma ParseIntOfIntToString(n: int)
    ensures ParseInt(IntToString(n)) == Some(n)
  {
    var digits := NatToString(if n < 0 then -n else n);
    NatToStringIsDigits(if n < 0 then -n else n);
    if n < 0 {
      assert IntToString(n)[1..] == digits;
    }
  }

  lemma {:induction false} DotIndexOfDigits(s: string)
    requires AllDigits(s)
    ensures DotIndex(s) == |s|
    decreases |s|
  {
    if s != [] {
      DotIndexOfDigits(s[1..]);
    }
  }

  /** A string without a decimal point reads as its digits. */
  lemma UnsignedDecimalOfDigits(s: string)
    requires |s| > 0 && AllDigits(s)
    ensures UnsignedDecimal(s) == Some(DigitsValue(s) as real)
  {
    DotIndexOfDigits(s);
    assert s[..DotIndex(s)] == s;
    assert AllDigits("") && DigitsValue("") == 0 && Power10(0) == 1;
  }

  /** `float` reads a whole number the way `int` does. */
  lemma ParseFloatOfIntToString(n: int)
    ensures ParseFloat(IntToString(n)) == Some(n as real)
  {
    var m := if n < 0 then -n else n;
    NatToStringIsDigits(m);
    UnsignedDecimalOfDigits(NatToString(m));
    if n < 0 {
      assert IntToString(n)[1..] == NatToString(m);
    }
  }

  // ---------------------------------------------------------------------------
  // Columns

  /** `value_keys`: the ten threshold columns `vi1` … `vi10`. */
  const ValueKeys: seq<string> := ["vi1", "vi2", "vi3", "vi4", "vi5", "vi6", "vi7", "vi8", "vi9", "vi10"]

  /** The threshold columns are `vi` followed by 1 … 10, in that order. */
  lemma ValueKeysAreNumbered()
    ensures |ValueKeys| == 10
    ensures forall i :: 0 <= i < 10 ==> ValueKeys[i] == "vi" + IntToString(i + 1)
  {
    assert NatToString(10) == NatToString(1) + [DigitChar(0)];
  }

  /** `row[name]`. */
  function Column(row: CsvRow, name: string): Result<string, ImportError> {
    if name in row then Success(row[name]) else Failure(MissingColumn(name))
  }

  /** `int(row[name])`. */
  function IntColumn(row: CsvRow, name: string): Result<int, ImportError> {
    var text :- Column(row, name);
    match ParseInt(text)
    case Some(n) => Success(n)
    case None => Failure(NotAnInteger(text))
  }

  /** `float(row[name])`. */
  function FloatColumn(row: CsvRow, name: string): Result<real, ImportError> {
    var text :- Column(row, name);
    match ParseFloat(text)
    case Some(x) => Success(x)
    case None => Failure(NotANumber(text))
  }

  /** `[(k, int(row[k])) for k in keys]`: the first unreadable cell stops it. */
  function ParseIndices(row: CsvRow, keys: seq<string>): Result<seq<(string, int)>, ImportError>
    decreases |keys|
  {
    if keys == [] then Success([])
    else
      var init :- ParseIndices(row, keys[..|keys| - 1]);
      var n :- IntColumn(row, keys[|keys| - 1]);
      Success(init + [(keys[|keys| - 1], n)])
  }

  /** The recorded thresholds pair each key, in order, with its cell read as an integer. */
  lemma {:induction false} ParseIndicesPairs(row: CsvRow, keys: seq<string>)
    requires ParseIndices(row, keys).Success?
    ensures var indices := ParseIndices(row, keys).value;
            |indices| == |keys| &&
            forall k :: 0 <= k < |keys| ==>
              indices[k].0 == keys[k] && IntColumn(row, keys[k]) == Success(indices[k].1)
    decreases |keys|
  {
    if keys != [] {
      ParseIndicesPairs(row, keys[..|keys| - 1]);
    }
  }

  // ---------------------------------------------------------------------------
  // get_or_create over a table of names

  function Count(table: seq<string>, key: string): nat
    decreases |table|
  {
    if table == [] then 0
    else Count(table[..|table| - 1], key) + (if table[|table| - 1] == key then 1 else 0)
  }

  lemma {:induction false} CountPositive(table: seq<string>, key: string)
    ensures Count(table, key) > 0 <==> key in table
    decreases |table|
  {
    if table != [] {
      CountPositive(table[..|table| - 1], key);
      assert key in table <==> key in table[..|table| - 1] || table[|table| - 1] == key;
    }
  }

  /** The position of the first entry equal to `key`. */
  function IndexOf(table: seq<string>, key: string): (i: nat)
    requires key in table
    ensures i < |table| && table[i] == key
    ensures forall j :: 0 <= j < i ==> table[j] != key
  {
    if table[0] == key then 0 else 1 + IndexOf(table[1..], key)
  }

  /** `get_or_create`: the one entry named `key`, or a new entry appended for
      it; several entries with that name is an error. The result is the new
      table and the entry's position. */
  function GetOrCreateIn(kind: Kind, table: seq<string>, key: string): Result<(seq<string>, nat), ImportError> {
    if Count(table, key) > 1 then Failure(MultipleObjects(kind, key))
    else if key in table then Success((table, IndexOf(table, key)))
    else Success((table + [key], |table|))
  }

  /** `get_or_create` returns the existing entry when there is exactly one,
      creates exactly one when there is none, and fails when there are several. */
  lemma GetOrCreateFindsOrCreates(kind: Kind, table: seq<string>, key: string)
    ensures GetOrCreateIn(kind, table, key).Failure? <==> Count(table, key) > 1
    ensures GetOrCreateIn(kind, table, key).Success? ==>
              var (table', i) := GetOrCreateIn(kind, table, key).value;
              i < |table'| && table'[i] == key && Count(table', key) == 1 &&
              (key in table ==> table' == table) &&
              (key !in table ==> table' == table + [key])
  {
    CountPositive(table, key);
    if key !in table {
      assert (table + [key])[..|table|] == table;
    }
  }

  /** A second `get_or_create` with the same name returns the same entry and
      creates nothing. */
  lemma GetOrCreateIsIdempotent(kind: Kind, table: seq<string>, key: string)
    requires GetOrCreateIn(kind, table, key).Success?
    ensures var (table', i) := GetOrCreateIn(kind, table, key).value;
            GetOrCreateIn(kind, table', key) == Success((table', i))
  {
    GetOrCreateFindsOrCreates(kind, table, key);
    var (table', i) := GetOrCreateIn(kind, table, key).value;
    CountPositive(table', key);
    if key !in table {
      CountPositive(table, key);
      assert IndexOf(table', key) == |table|;
    }
  }

  // ---------------------------------------------------------------------------
  // The import, as a function of the importer and database it starts from

  /** The importer's fields: the current scope and `value_indices`. */
  datatype Cursor = Cursor(company: string, loanType: string, valueType: string,
                           valueIndices: Option<seq<(string, int)>>)

  /** The database: the three name tables and the rate table. */
  datatype Db = Db(companies: seq<string>, loanTypes: seq<string>, valueTypes: seq<string>, additions: seq<Row>)

  /** Where an import, or one step of it, leaves the importer and the database,
      and the error that stopped it. */
  datatype Outcome = Outcome(cursor: Cursor, db: Db, error: Option<ImportError>)

  function TableOf(db: Db, kind: Kind): seq<string> {
    match kind
    case CompanyKind => db.companies
    case LoanTypeKind => db.loanTypes
    case ValueTypeKind => db.valueTypes
  }

  function WithTable(db: Db, kind: Kind, table: seq<string>): Db {
    match kind
    case CompanyKind => db.(companies := table)
    case LoanTypeKind => db.(loanTypes := table)
    case ValueTypeKind => db.(valueTypes := table)
  }

  /** The rows left after deleting one scope. */
  function OutsideScope(rows: seq<Row>, company: string, loanType: string, valueType: string): seq<Row>
    decreases |rows|
  {
    if rows == [] then []
    else
      var kept := OutsideScope(rows[..|rows| - 1], company, loanType, valueType);
      if InScope(rows[|rows| - 1], company, loanType, valueType) then kept else kept + [rows[|rows| - 1]]
  }

  /** A `value_index` row: look up or create the company, the loan type and the
      addition type (each is remembered as soon as it is found), read the ten
      thresholds, then delete the scope's rows. */
  function Header(c: Cursor, db: Db, row: CsvRow): Outcome {
    match Column(row, "LoanCompany_title")
    case Failure(e) => Outcome(c, db, Some(e))
    case Success(title) =>
      match GetOrCreateIn(CompanyKind, db.companies, title)
      case Failure(e) => Outcome(c, db, Some(e))
      case Success(companies) =>
        var c1 := c.(company := title);
        var db1 := db.(companies := companies.0);
        match Column(row, "LoanType_name")
        case Failure(e) => Outcome(c1, db1, Some(e))
        case Success(typeName) =>
          match GetOrCreateIn(LoanTypeKind, db1.loanTypes, typeName)
          case Failure(e) => Outcome(c1, db1, Some(e))
          case Success(loanTypes) =>
            var c2 := c1.(loanType := typeName);
            var db2 := db1.(loanTypes := loanTypes.0);
            match Column(row, "LoanAdditionLookupValueType")
            case Failure(e) => Outcome(c2, db2, Some(e))
            case Success(valueTypeName) =>
              match GetOrCreateIn(ValueTypeKind, db2.valueTypes, valueTypeName)
              case Failure(e) => Outcome(c2, db2, Some(e))
              case Success(valueTypes) =>
                var c3 := c2.(valueType := valueTypeName);
                var db3 := db2.(valueTypes := valueTypes.0);
                match ParseIndices(row, ValueKeys)
                case Failure(e) => Outcome(c3, db3, Some(e))
                case Success(indices) =>
                  Outcome(c3.(valueIndices := Some(indices)),
                          db3.(additions := OutsideScope(db3.additions, title, typeName, valueTypeName)),
                          None)
  }

  /** The rate-table row one threshold of a `values` row adds. */
  function ValueRow(c: Cursor, row: CsvRow, index: (string, int)): Result<Row, ImportError> {
    var creditScore :- IntColumn(row, "credit_score");
    var value :- FloatColumn(row, index.0);
    Success(Row(c.company, c.loanType, c.valueType, creditScore, index.1, value))
  }

  /** The rows a `values` row adds for `indices`, in order, up to the first
      unreadable cell, and that cell's error. */
  function ValueRows(c: Cursor, row: CsvRow, indices: seq<(string, int)>): (seq<Row>, Option<ImportError>)
    decreases |indices|
  {
    if indices == [] then ([], None)
    else
      var (rows, err) := ValueRows(c, row, indices[..|indices| - 1]);
      if err.Some? then (rows, err)
      else
        match ValueRow(c, row, indices[|indices| - 1])
        case Failure(e) => (rows, Some(e))
        case Success(r) => (rows + [r], None)
  }

  /** A `values` row: one new row per recorded threshold. */
  function Values(c: Cursor, db: Db, row: CsvRow): Outcome {
    match c.valueIndices
    case None => Outcome(c, db, Some(NoHeaderYet))
    case Some(indices) =>
      var (rows, err) := ValueRows(c, row, indices);
      Outcome(c, db.(additions := db.additions + rows), err)
  }

  /** One CSV row, dispatched on its `Type` column. */
  function ImportRow(c: Cursor, db: Db, row: CsvRow): Outcome {
    match Column(row, "Type")
    case Failure(e) => Outcome(c, db, Some(e))
    case Success(rowType) =>
      if rowType == "value_index" then Header(c, db, row)
      else if rowType == "values" then Values(c, db, row)
      else Outcome(c, db, Some(UnknownRowType(rowType)))
  }

  /** `import_file`: the rows in order; the first error stops the import and
      leaves what was written before it. */
  function Run(c: Cursor, db: Db, rows: seq<CsvRow>): Outcome
    decreases |rows|
  {
    if rows == [] then Outcome(c, db, None)
    else
      var before := Run(c, db, rows[..|rows| - 1]);
      if before.error.Some? then before else ImportRow(before.cursor, before.db, rows[|rows| - 1])
  }

  // ---------------------------------------------------------------------------
  // The database and the importer

  class Database {
    var companies: seq<string>
    var loanTypes: seq<string>
    var valueTypes: seq<string>
    var additions: seq<Row>

    function State(): Db
      reads this
    {
      Db(companies, loanTypes, valueTypes, additions)
    }

    constructor (db: Db)
      ensures State() == db
    {
      companies, loanTypes, valueTypes, additions := db.companies, db.loanTypes, db.valueTypes, db.additions;
    }

    /** `get_or_create` on one of the name tables. */
    method GetOrCreate(kind: Kind, key: string) returns (r: Result<nat, ImportError>)
      modifies this`companies, this`loanTypes, this`valueTypes
      ensures var spec := GetOrCreateIn(kind, TableOf(old(State()), kind), key);
              match spec
              case Failure(e) => r == Failure(e) && State() == old(State())
              case Success((table, i)) => r == Success(i) && State() == WithTable(old(State()), kind, table)
    {
      var table := TableOf(State(), kind);
      if Count(table, key) > 1 {
        return Failure(MultipleObjects(kind, key));
      }
      if key in table {
        return Success(IndexOf(table, key));
      }
      match kind {
        case CompanyKind => companies := companies + [key];
        case LoanTypeKind => loanTypes := loanTypes + [key];
        case ValueTypeKind => valueTypes := valueTypes + [key];
      }
      r := Success(|table|);
    }

    /** Delete every rate-table row of one scope. */
    method DeleteScope(company: string, loanType: string, valueType: string)
      modifies this`additions
      ensures additions == OutsideScope(old(additions), company, loanType, valueType)
    {
      var kept := [];
      for i := 0 to |additions|
        invariant kept == OutsideScope(additions[..i], company, loanType, valueType)
      {
        assert additions[..i + 1][..i] == additions[..i];
        if !InScope(additions[i], company, loanType, valueType) {
          kept := kept + [additions[i]];
        }
      }
      assert additions[..|additions|] == additions;
      additions := kept;
    }

    /** `save` of a new rate-table row. */
    method Add(r: Row)
      modifies this`additions
      ensures additions == old(additions) + [r]
    {
      additions := additions + [r];
    }
  }

  class LoanDataImporter {
    var loanCompany: string
    var loanType: string
    var valueType: string
    /** `value_indices`: `None` until a header has been read. */
    var valueIndices: Option<seq<(string, int)>>

    function State(): Cursor
      reads this
    {
      Cursor(loanCompany, loanType, valueType, valueIndices)
    }

    /** A new importer has read no header. */
    constructor ()
      ensures State() == Cursor("", "", "", None)
    {
      loanCompany, loanType, valueType, valueIndices := "", "", "", None;
    }

    /** The `value_index` branch of `import_file`. */
    method ReadHeader(db: Database, row: CsvRow) returns (err: Option<ImportError>)
      modifies this, db
      ensures Header(old(State()), old(db.State()), row) == Outcome(State(), db.State(), err)
    {
      if "LoanCompany_title" !in row {
        return Some(MissingColumn("LoanCompany_title"));
      }
      var company := db.GetOrCreate(CompanyKind, row["LoanCompany_title"]);
      if company.Failure? {
        return Some(company.error);
      }
      loanCompany := row["LoanCompany_title"];
      if "LoanType_name" !in row {
        return Some(MissingColumn("LoanType_name"));
      }
      var loanTypeRecord := db.GetOrCreate(LoanTypeKind, row["LoanType_name"]);
      if loanTypeRecord.Failure? {
        return Some(loanTypeRecord.error);
      }
      loanType := row["LoanType_name"];
      if "LoanAdditionLookupValueType" !in row {
        return Some(MissingColumn("LoanAdditionLookupValueType"));
      }
      var valueTypeRecord := db.GetOrCreate(ValueTypeKind, row["LoanAdditionLookupValueType"]);
      if valueTypeRecord.Failure? {
        return Some(valueTypeRecord.error);
      }
      valueType := row["LoanAdditionLookupValueType"];
      var indices := ParseIndices(row, ValueKeys);
      if indices.Failure? {
        return Some(indices.error);
      }
      valueIndices := Some(indices.value);
      db.DeleteScope(loanCompany, loanType, valueType);
      err := None;
    }

    /** The `values` branch of `import_file`: one new row per threshold. */
    method AddValues(db: Database, row: CsvRow) returns (err: Option<ImportError>)
      modifies db`additions
      ensures Values(old(State()), old(db.State()), row) == Outcome(State(), db.State(), err)
    {
      if valueIndices.None? {
        return Some(NoHeaderYet);
      }
      var indices := valueIndices.value;
      ghost var start := db.additions;
      assert indices[..0] == [] && db.additions[|start|..] == [];
      for i := 0 to |indices|
        invariant |start| <= |db.additions| && db.additions[..|start|] == start
        invariant ValueRows(State(), row, indices[..i]) == (db.additions[|start|..], None)
      {
        assert indices[..i + 1][..i] == indices[..i];
        var r := ValueRow(State(), row, indices[i]);
        if r.Failure? {
          assert ValueRows(State(), row, indices[..i + 1]) == (db.additions[|start|..], Some(r.error));
          ValueRowsStopAtError(State(), row, indices, i + 1);
          assert db.additions == start + db.additions[|start|..];
          return Some(r.error);
        }
        ghost var before := db.additions;
        db.Add(r.value);
        assert db.additions[|start|..] == before[|start|..] + [r.value];
      }
      assert indices[..|indices|] == indices;
      assert db.additions == start + db.additions[|start|..];
      err := None;
    }

    /** `import_file`. */
    method ImportFile(db: Database, rows: seq<CsvRow>) returns (err: Option<ImportError>)
      modifies this, db
      ensures Run(old(State()), old(db.State()), rows) == Outcome(State(), db.State(), err)
    {
      for i := 0 to |rows|
        invariant Run(old(State()), old(db.State()), rows[..i]) == Outcome(State(), db.State(), None)
      {
        assert rows[..i + 1][..i] == rows[..i];
        var row := rows[i];
        if "Type" !in row {
          err := Some(MissingColumn("Type"));
        } else if row["Type"] == "value_index" {
          err := ReadHeader(db, row);
        } else if row["Type"] == "values" {
          err := AddValues(db, row);
        } else {
          err := Some(UnknownRowType(row["Type"]));
        }
        if err.Some? {
          RunStopsAtError(old(State()), old(db.State()), rows, i + 1);
          return;
        }
      }
      assert rows[..|rows|] == rows;
      err := None;
    }
  }

  // ---------------------------------------------------------------------------
  // Properties of the import

  /** Once a `values` row stops at an error, reading further thresholds changes nothing. */
  lemma {:induction false} ValueRowsStopAtError(c: Cursor, row: CsvRow, indices: seq<(string, int)>, k: nat)
    requires k <= |indices| && ValueRows(c, row, indices[..k]).1.Some?
    ensures ValueRows(c, row, indices) == ValueRows(c, row, indices[..k])
    decreases |indices| - k
  {
    if k < |indices| {
      assert indices[..k + 1][..k] == indices[..k];
      ValueRowsStopAtError(c, row, indices, k + 1);
    } else {
      assert indices[..k] == indices;
    }
  }

  /** Once an import stops at an error, the rows after it are not read. */
  lemma {:induction false} RunStopsAtError(c: Cursor, db: Db, rows: seq<CsvRow>, k: nat)
    requires k <= |rows| && Run(c, db, rows[..k]).error.Some?
    ensures Run(c, db, rows) == Run(c, db, rows[..k])
    decreases |rows| - k
  {
    if k < |rows| {
      assert rows[..k + 1][..k] == rows[..k];
      RunStopsAtError(c, db, rows, k + 1);
    } else {
      assert rows[..k] == rows;
    }
  }

  /** `OutsideScope` keeps exactly the rows of other scopes, in order. */
  lemma {:induction false} OutsideScopeMembers(rows: seq<Row>, company: string, loanType: string, valueType: string)
    ensures forall r :: r in OutsideScope(rows, company, loanType, valueType)
                        <==> r in rows && !InScope(r, company, loanType, valueType)
    decreases |rows|
  {
    if rows != [] {
      OutsideScopeMembers(rows[..|rows| - 1], company, loanType, valueType);
      assert forall r :: r in rows <==> r in rows[..|rows| - 1] || r == rows[|rows| - 1];
    }
  }

  /** A successful header sets the scope and the thresholds from the row,
      deletes every row of that scope and keeps every row of other scopes. */
  lemma HeaderSetsScope(c: Cursor, db: Db, row: CsvRow)
    requires Header(c, db, row).error.None?
    ensures var o := Header(c, db, row);
            "LoanCompany_title" in row && "LoanType_name" in row && "LoanAdditionLookupValueType" in row &&
            o.cursor.company == row["LoanCompany_title"] &&
            o.cursor.loanType == row["LoanType_name"] &&
            o.cursor.valueType == row["LoanAdditionLookupValueType"] &&
            o.cursor.valueIndices.Some? && |o.cursor.valueIndices.value| == 10 &&
            (forall k :: 0 <= k < 10 ==>
               o.cursor.valueIndices.value[k].0 == ValueKeys[k] &&
               IntColumn(row, ValueKeys[k]) == Success(o.cursor.valueIndices.value[k].1)) &&
            (forall r :: r in o.db.additions <==>
               r in db.additions && !InScope(r, o.cursor.company, o.cursor.loanType, o.cursor.valueType))
  {
    var o := Header(c, db, row);
    ParseIndicesPairs(row, ValueKeys);
    OutsideScopeMembers(db.additions, o.cursor.company, o.cursor.loanType, o.cursor.valueType);
  }

  /** A `values` row before any header fails and changes nothing. */
  lemma ValuesBeforeHeaderFails(db: Db, row: CsvRow, company: string, loanType: string, valueType: string)
    requires Column(row, "Type") == Success("values")
    ensures ImportRow(Cursor(company, loanType, valueType, None), db, row)
         == Outcome(Cursor(company, loanType, valueType, None), db, Some(NoHeaderYet))
  {
  }

  /** A row of any other type fails and changes nothing. */
  lemma UnknownRowTypeFails(c: Cursor, db: Db, row: CsvRow)
    requires "Type" in row && row["Type"] != "value_index" && row["Type"] != "values"
    ensures ImportRow(c, db, row) == Outcome(c, db, Some(UnknownRowType(row["Type"])))
  {
  }

  /** A `values` row whose cells all read adds one row per threshold: the
      current scope, the row's credit score, the threshold and its cell. */
  lemma {:induction false} ValueRowsAllRead(c: Cursor, row: CsvRow, indices: seq<(string, int)>)
    requires IntColumn(row, "credit_score").Success?
    requires forall k :: 0 <= k < |indices| ==> FloatColumn(row, indices[k].0).Success?
    ensures var (rows, err) := ValueRows(c, row, indices);
            err.None? && |rows| == |indices| &&
            forall k :: 0 <= k < |indices| ==>
              rows[k] == Row(c.company, c.loanType, c.valueType, IntColumn(row, "credit_score").value,
                             indices[k].1, FloatColumn(row, indices[k].0).value)
    decreases |indices|
  {
    if indices != [] {
      ValueRowsAllRead(c, row, indices[..|indices| - 1]);
    }
  }

  /** A `values` row after a header appends exactly ten rows, one per threshold. */
  lemma ValuesAppendsTen(c: Cursor, db: Db, row: CsvRow)
    requires c.valueIndices.Some? && |c.valueIndices.value| == 10
    requires IntColumn(row, "credit_score").Success?
    requires forall k :: 0 <= k < 10 ==> FloatColumn(row, c.valueIndices.value[k].0).Success?
    ensures var o := Values(c, db, row);
            o.error.None? && o.cursor == c && |o.db.additions| == |db.additions| + 10 &&
            o.db.additions[..|db.additions|] == db.additions &&
            forall k :: 0 <= k < 10 ==>
              o.db.additions[|db.additions| + k]
              == Row(c.company, c.loanType, c.valueType, IntColumn(row, "credit_score").value,
                     c.valueIndices.value[k].1, FloatColumn(row, c.valueIndices.value[k].0).value)
  {
    ValueRowsAllRead(c, row, c.valueIndices.value);
    var o := Values(c, db, row);
    var rows := ValueRows(c, row, c.valueIndices.value).0;
    assert o.db.additions == db.additions + rows;
  }

  // ---------------------------------------------------------------------------
  // A header followed by values rows builds a full grid

  /** Every cell of a `values` row reads. */
  predicate ValuesRowReads(row: CsvRow, indices: seq<(string, int)>) {
    Column(row, "Type") == Success("values") &&
    IntColumn(row, "credit_score").Success? &&
    forall k :: 0 <= k < |indices| ==> FloatColumn(row, indices[k].0).Success?
  }

  /** The rows the `values` rows add, block after block. */
  function Grid(c: Cursor, indices: seq<(string, int)>, rows: seq<CsvRow>): seq<Row>
    decreases |rows|
  {
    if rows == [] then []
    else Grid(c, indices, rows[..|rows| - 1]) + ValueRows(c, rows[|rows| - 1], indices).0
  }

  lemma {:induction false} ScopeOfConcat(a: seq<Row>, b: seq<Row>, company: string, loanType: string, valueType: string)
    ensures Scope(a + b, company, loanType, valueType)
         == Scope(a, company, loanType, valueType) + Scope(b, company, loanType, valueType)
    decreases |a|
  {
    if a == [] {
      assert a + b == b;
    } else {
      ScopeOfConcat(a[1..], b, company, loanType, valueType);
      assert (a + b)[0] == a[0];
      assert (a + b)[1..] == a[1..] + b;
    }
  }

  lemma {:induction false} ScopeOfScopedRows(rows: seq<Row>, company: string, loanType: string, valueType: string)
    requires forall r :: r in rows ==> InScope(r, company, loanType, valueType)
    ensures Scope(rows, company, loanType, valueType) == rows
    decreases |rows|
  {
    if rows != [] {
      assert forall r :: r in rows[1..] ==> r in rows;
      ScopeOfScopedRows(rows[1..], company, loanType, valueType);
      assert rows == [rows[0]] + rows[1..];
    }
  }

  lemma ScopeOfOutsideScope(rows: seq<Row>, company: string, loanType: string, valueType: string)
    ensures Scope(OutsideScope(rows, company, loanType, valueType), company, loanType, valueType) == []
  {
    var kept := OutsideScope(rows, company, loanType, valueType);
    OutsideScopeMembers(rows, company, loanType, valueType);
    ScopeMembers(kept, company, loanType, valueType);
    if Scope(kept, company, loanType, valueType) != [] {
      assert Scope(kept, company, loanType, valueType)[0] in Scope(kept, company, loanType, valueType);
    }
  }

  /** Every row of the grid comes from the block of one values row. */
  lemma {:induction false} GridRowInBlock(c: Cursor, indices: seq<(string, int)>, rows: seq<CsvRow>, r: Row)
    requires r in Grid(c, indices, rows)
    ensures exists j :: 0 <= j < |rows| && r in ValueRows(c, rows[j], indices).0
    decreases |rows|
  {
    var n := |rows| - 1;
    assert Grid(c, indices, rows) == Grid(c, indices, rows[..n]) + ValueRows(c, rows[n], indices).0;
    if r !in ValueRows(c, rows[n], indices).0 {
      GridRowInBlock(c, indices, rows[..n], r);
      var j :| 0 <= j < n && r in ValueRows(c, rows[..n][j], indices).0;
      assert rows[..n][j] == rows[j];
    }
  }

  /** Every row of every block is in the grid. */
  lemma {:induction false} BlockInGrid(c: Cursor, indices: seq<(string, int)>, rows: seq<CsvRow>, j: nat, r: Row)
    requires j < |rows| && r in ValueRows(c, rows[j], indices).0
    ensures r in Grid(c, indices, rows)
    decreases |rows|
  {
    var n := |rows| - 1;
    assert Grid(c, indices, rows) == Grid(c, indices, rows[..n]) + ValueRows(c, rows[n], indices).0;
    if j < n {
      assert rows[..n][j] == rows[j];
      BlockInGrid(c, indices, rows[..n], j, r);
    }
  }

  /** The grid is made of the blocks its values rows add, and of nothing else. */
  lemma GridMembers(c: Cursor, indices: seq<(string, int)>, rows: seq<CsvRow>)
    ensures forall r :: r in Grid(c, indices, rows) <==>
              exists j :: 0 <= j < |rows| && r in ValueRows(c, rows[j], indices).0
  {
    forall r | r in Grid(c, indices, rows)
      ensures exists j :: 0 <= j < |rows| && r in ValueRows(c, rows[j], indices).0
    {
      GridRowInBlock(c, indices, rows, r);
    }
    forall r, j | 0 <= j < |rows| && r in ValueRows(c, rows[j], indices).0
      ensures r in Grid(c, indices, rows)
    {
      BlockInGrid(c, indices, rows, j, r);
    }
  }

  /** After a header and `N` readable `values` rows, the scope holds exactly the
      grid of those `N` credit scores by the ten thresholds. */
  lemma {:induction false} HeaderThenValuesGrid(c: Cursor, db: Db, header: CsvRow, rows: seq<CsvRow>)
    requires Column(header, "Type") == Success("value_index")
    requires Header(c, db, header).error.None?
    requires forall j :: 0 <= j < |rows| ==>
               ValuesRowReads(rows[j], Header(c, db, header).cursor.valueIndices.value)
    ensures var h := Header(c, db, header).cursor;
            var o := Run(c, db, [header] + rows);
            o.error.None? && o.cursor == h &&
            Scope(o.db.additions, h.company, h.loanType, h.valueType)
            == Grid(h, h.valueIndices.value, rows)
    decreases |rows|
  {
    var h := Header(c, db, header).cursor;
    if rows == [] {
      assert [header] + rows == [header];
      HeaderClearsScope(c, db, header);
    } else {
      var n := |rows| - 1;
      HeaderThenValuesGrid(c, db, header, rows[..n]);
      assert ([header] + rows)[..|[header] + rows| - 1] == [header] + rows[..n];
      var before := Run(c, db, [header] + rows[..n]);
      ValuesRowExtendsScope(h, before.db, rows[n]);
    }
  }

  /** A header alone is a run that ends with its scope empty. */
  lemma HeaderClearsScope(c: Cursor, db: Db, header: CsvRow)
    requires Column(header, "Type") == Success("value_index")
    requires Header(c, db, header).error.None?
    ensures Run(c, db, [header]) == Header(c, db, header)
    ensures var h := Header(c, db, header).cursor;
            Scope(Header(c, db, header).db.additions, h.company, h.loanType, h.valueType) == []
  {
    assert [header][..0] == [];
    var h := Header(c, db, header).cursor;
    assert Header(c, db, header).db.additions == OutsideScope(db.additions, h.company, h.loanType, h.valueType);
    ScopeOfOutsideScope(db.additions, h.company, h.loanType, h.valueType);
  }

  /** A readable values row appends its block to the current scope. */
  lemma ValuesRowExtendsScope(h: Cursor, db: Db, row: CsvRow)
    requires h.valueIndices.Some? && ValuesRowReads(row, h.valueIndices.value)
    ensures var block := ValueRows(h, row, h.valueIndices.value).0;
            ImportRow(h, db, row) == Outcome(h, db.(additions := db.additions + block), None) &&
            Scope(db.additions + block, h.company, h.loanType, h.valueType)
            == Scope(db.additions, h.company, h.loanType, h.valueType) + block
  {
    ValueRowsAllRead(h, row, h.valueIndices.value);
    var block := ValueRows(h, row, h.valueIndices.value).0;
    ScopeOfConcat(db.additions, block, h.company, h.loanType, h.valueType);
    ScopeOfScopedRows(block, h.company, h.loanType, h.valueType);
  }

  /** The grid of at least one values row holds its own corner row: the largest
      credit score at the largest threshold. */
  lemma GridHasCorner(c: Cursor, indices: seq<(string, int)>, rows: seq<CsvRow>)
    requires |rows| > 0 && |indices| > 0
    requires forall j :: 0 <= j < |rows| ==> ValuesRowReads(rows[j], indices)
    ensures Grid(c, indices, rows) != []
    ensures HasCorner(Grid(c, indices, rows))
  {
    var g := Grid(c, indices, rows);
    BlockRow(c, rows[0], indices, 0);
    BlockInGrid(c, indices, rows, 0, ValueRows(c, rows[0], indices).0[0]);
    MaxThresholdIsMaximum(g, CreditScore);
    MaxThresholdIsMaximum(g, ValueIndex);
    var top :| top in g && Threshold(top, CreditScore) == MaxThreshold(g, CreditScore);
    var right :| right in g && Threshold(right, ValueIndex) == MaxThreshold(g, ValueIndex);
    var corner := GridCrossing(c, indices, rows, top, right);
  }

  /** For any two rows of the grid, the grid also holds the row with the
      first one's credit score and the second one's threshold. */
  lemma GridCrossing(c: Cursor, indices: seq<(string, int)>, rows: seq<CsvRow>, top: Row, right: Row)
    returns (corner: Row)
    requires forall j :: 0 <= j < |rows| ==> ValuesRowReads(rows[j], indices)
    requires top in Grid(c, indices, rows) && right in Grid(c, indices, rows)
    ensures corner in Grid(c, indices, rows)
    ensures corner.creditScore == top.creditScore && corner.valueIndex == right.valueIndex
  {
    GridRowInBlock(c, indices, rows, top);
    GridRowInBlock(c, indices, rows, right);
    var j1 :| 0 <= j1 < |rows| && top in ValueRows(c, rows[j1], indices).0;
    var j2 :| 0 <= j2 < |rows| && right in ValueRows(c, rows[j2], indices).0;
    var block1 := ValueRows(c, rows[j1], indices).0;
    var block2 := ValueRows(c, rows[j2], indices).0;
    var m1 :| 0 <= m1 < |block1| && block1[m1] == top;
    var m2 :| 0 <= m2 < |block2| && block2[m2] == right;
    BlockRow(c, rows[j1], indices, 0);
    BlockRow(c, rows[j2], indices, 0);
    BlockRow(c, rows[j1], indices, m1);
    BlockRow(c, rows[j2], indices, m2);
    BlockRow(c, rows[j1], indices, m2);
    corner := block1[m2];
    BlockInGrid(c, indices, rows, j1, corner);
  }

  /** The `k`-th row a readable `values` row adds. */
  lemma BlockRow(c: Cursor, row: CsvRow, indices: seq<(string, int)>, k: nat)
    requires ValuesRowReads(row, indices) && k < |indices|
    ensures |ValueRows(c, row, indices).0| == |indices|
    ensures ValueRows(c, row, indices).0[k]
         == Row(c.company, c.loanType, c.valueType, IntColumn(row, "credit_score").value,
                indices[k].1, FloatColumn(row, indices[k].0).value)
  {
    ValueRowsAllRead(c, row, indices);
  }

  /** A header followed by at least one readable `values` row gives a scope in
      which `get_addition` answers every query. */
  lemma ImportedScopeAnswersEveryLookup(c: Cursor, db: Db, header: CsvRow, rows: seq<CsvRow>,
                                        creditScore: int, valueIndex: real)
    requires Column(header, "Type") == Success("value_index")
    requires Header(c, db, header).error.None?
    requires |rows| > 0
    requires forall j :: 0 <= j < |rows| ==>
               ValuesRowReads(rows[j], Header(c, db, header).cursor.valueIndices.value)
    ensures var h := Header(c, db, header).cursor;
            var o := Run(c, db, [header] + rows);
            o.error.None? &&
            Lookup(o.db.additions, h.company, h.loanType, h.valueType, creditScore, valueIndex).Success?
  {
    var h := Header(c, db, header).cursor;
    HeaderSetsScope(c, db, header);
    HeaderThenValuesGrid(c, db, header, rows);
    GridHasCorner(h, h.valueIndices.value, rows);
    var o := Run(c, db, [header] + rows);
    CornerGuaranteesLookup(o.db.additions, h.company, h.loanType, h.valueType, creditScore, valueIndex);
  }
}
