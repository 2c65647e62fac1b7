/**
 * The store of `src/core.py` without the database engine: the SQL text that
 * `DB` builds, the reshaping of fetched tuples into column-to-value
 * dictionaries, and the `DB` object itself. What the engine would answer to a
 * SELECT is passed in as a sequence of tuples; what is sent to the engine is
 * recorded, statement by statement, in `DB.log`.
 */
module Store {
  import opened Wrappers
  import opened Text
  import opened Dict
  import opened Schema

  /** A value the engine returns: an int, a float (exact hundredths here), a str, or NULL. */
  datatype Value = IntValue(i: int) | RealValue(hundredths: int) | TextValue(s: string) | NullValue

  /** A fetched tuple, and the dictionary it is reshaped into. */
  type Record = seq<Value>
  type RecordDict = ODict<Value>

  // ---------------------------------------------------------------------
  // SQL text

  /** A value spliced into a statement between single quotes, with nothing escaped. */
  function Quote(v: string): (q: string)
    ensures |q| == |v| + 2 && q[0] == '\'' && q[|q| - 1] == '\'' && q[1..|q| - 1] == v
  {
    "'" + v + "'"
  }

  function QuoteAll(vs: seq<string>): (qs: seq<string>)
    ensures |qs| == |vs| && forall k :: 0 <= k < |vs| ==> qs[k] == Quote(vs[k])
  {
    if vs == [] then [] else [Quote(vs[0])] + QuoteAll(vs[1..])
  }

  /** The statement `DB.Create` executes. */
  function InsertQuery(table: string, columns: seq<string>, values: seq<string>): string
  {
    "INSERT INTO " + (table + (" (" + (Join(columns, ", ") + (") VALUES (" + (Join(QuoteAll(values), ", ") + ")")))))
  }

  /** The statement `DB.FetchAll` executes. */
  function SelectQuery(table: string, columns: seq<string>): string
  {
    "SELECT " + Join(columns, ", ") + " FROM " + table
  }

  /** The statement `DB.FetchDate` executes: `SelectQuery` restricted to a closed range of the date column. */
  function SelectBetweenQuery(table: string, columns: seq<string>, lo: string, hi: string): string
  {
    SelectQuery(table, columns) + " WHERE " + ColumnDate + " BETWEEN " + Quote(lo) + " AND " + Quote(hi)
  }

  function ColumnDefinition(c: Column): string
  {
    "\"" + c.name + "\" " + c.attributes + ","
  }

  /** The lines of the CREATE TABLE statement `DB.__init__` issues for one table. */
  function CreateTableLines(t: Table): (lines: seq<string>)
    ensures |lines| == |t.columns| + 3
    ensures forall k :: 0 <= k < |t.columns| ==> lines[k + 1] == ColumnDefinition(t.columns[k])
  {
    ["CREATE TABLE IF NOT EXISTS \"" + t.name + "\" ("]
      + seq(|t.columns|, k requires 0 <= k < |t.columns| => ColumnDefinition(t.columns[k]))
      + ["PRIMARY KEY(\"" + ColumnId + "\" AUTOINCREMENT)", ");"]
  }

  function CreateTableText(t: Table): string
  {
    Join(CreateTableLines(t), "\n")
  }

  /** The statements a fresh database is set up with, one per table, in registry order. */
  function SetupStatements(tables: seq<Table>): (qs: seq<string>)
    ensures |qs| == |tables| && forall k :: 0 <= k < |tables| ==> qs[k] == CreateTableText(tables[k])
  {
    seq(|tables|, k requires 0 <= k < |tables| => CreateTableText(tables[k]))
  }

  /** The text of the first `k + 1` lines, each followed by a line break. */
  lemma CreateTablePrefixStep(t: Table, k: nat)
    requires k < |t.columns|
    ensures var lines := CreateTableLines(t);
      Join(lines[..k + 2], "\n") + "\n" == (Join(lines[..k + 1], "\n") + "\n") + (ColumnDefinition(t.columns[k]) + "\n")
  {
    var lines := CreateTableLines(t);
    JoinSnoc(lines[..k + 1], lines[k + 1], "\n");
    assert lines[..k + 2] == lines[..k + 1] + [lines[k + 1]];
  }

  /** The last two lines close the statement. */
  lemma CreateTableClose(t: Table)
    ensures var lines, n := CreateTableLines(t), |t.columns|;
      Join(lines[..n + 1], "\n") + "\n" + "PRIMARY KEY(\"" + ColumnId + "\" AUTOINCREMENT)\n" + ");" == CreateTableText(t)
  {
    var lines, n := CreateTableLines(t), |t.columns|;
    JoinSnoc(lines[..n + 1], lines[n + 1], "\n");
    assert lines[..n + 2] == lines[..n + 1] + [lines[n + 1]];
    JoinSnoc(lines[..n + 2], lines[n + 2], "\n");
    assert lines[..n + 3] == lines[..n + 2] + [lines[n + 2]];
    assert lines[..n + 3] == lines;
  }

  /** Builds the CREATE TABLE statement line by line, as `DB.__init__` does with `+=`. */
  method CreateTableQuery(t: Table) returns (query: string)
    ensures query == CreateTableText(t)
  {
    ghost var lines := CreateTableLines(t);
    query := "CREATE TABLE IF NOT EXISTS \"" + t.name + "\" (\n";
    assert query == Join(lines[..1], "\n") + "\n";
    var i := 0;
    while i < |t.columns|
      invariant 0 <= i <= |t.columns|
      invariant query == Join(lines[..i + 1], "\n") + "\n"
    {
      CreateTablePrefixStep(t, i);
      assert ColumnDefinition(t.columns[i]) + "\n" == "\"" + t.columns[i].name + "\" " + t.columns[i].attributes + ",\n";
      query := query + ("\"" + t.columns[i].name + "\" " + t.columns[i].attributes + ",\n");
      i := i + 1;
    }
    CreateTableClose(t);
    query := query + "PRIMARY KEY(\"" + ColumnId + "\" AUTOINCREMENT)\n";
    query := query + ");";
  }

  // ---------------------------------------------------------------------
  // Reading the statements back

  /** The three parts of an INSERT statement. */
  datatype InsertParts = InsertParts(table: string, columns: seq<string>, values: seq<string>)

  /**
   * Reads a list of quoted values separated by `, `; as in SQL, a value
   * ends at the next single quote.
   */
  function ParseQuotedList(s: string): Option<seq<string>>
    decreases |s|
  {
    if |s| < 2 || s[0] != '\'' then None
    else
      var body := s[1..];
      var i := IndexOf(body, '\'');
      if i == |body| then None
      else
        var after := body[i + 1..];
        if after == [] then Some([body[..i]])
        else if |after| >= 2 && after[..2] == ", " then
          match ParseQuotedList(after[2..])
          case None => None
          case Some(rest) => Some([body[..i]] + rest)
        else None
  }

  /** Reads an INSERT statement back into table, columns and values. */
  function ParseInsert(q: string): Option<InsertParts>
  {
    if |q| >= 12 && q[..12] == "INSERT INTO " then ParseInsertTable(q[12..]) else None
  }

  /** The table name runs up to the first space; the column list follows in parentheses. */
  function ParseInsertTable(s: string): Option<InsertParts>
  {
    var i := IndexOf(s, ' ');
    var after := s[i..];
    if |after| >= 2 && after[..2] == " (" then
      match ParseColumnsValues(after[2..])
      case None => None
      case Some(cv) => Some(InsertParts(s[..i], cv.0, cv.1))
    else None
  }

  /** The column list runs up to the first `)`; then ` VALUES (`, the quoted values and a final `)`. */
  function ParseColumnsValues(s: string): Option<(seq<string>, seq<string>)>
  {
    var j := IndexOf(s, ')');
    var after := s[j..];
    if |after| >= 11 && after[..10] == ") VALUES (" && after[|after| - 1] == ')' then
      match ParseQuotedList(after[10..|after| - 1])
      case None => None
      case Some(vs) => Some((Split(s[..j], ", "), vs))
    else None
  }

  /** One quoted value at the head of `s`, then `tail`. */
  lemma QuotedHead(v: string, tail: string)
    requires '\'' !in v
    ensures var s := "'" + v + "'" + tail;
      |s| >= 2 && s[0] == '\'' && IndexOf(s[1..], '\'') == |v| && s[1..][..|v|] == v && s[1..][|v| + 1..] == tail
  {
    var s := "'" + v + "'" + tail;
    assert s[1..] == v + ("'" + tail);
    IndexOfAppend(v, "'" + tail, '\'');
  }

  lemma ParseQuotedLast(v: string)
    requires '\'' !in v
    ensures ParseQuotedList("'" + v + "'") == Some([v])
  {
    QuotedHead(v, "");
    assert "'" + v + "'" + "" == "'" + v + "'";
  }

  lemma ParseQuotedMore(v: string, rest: string)
    requires '\'' !in v
    ensures ParseQuotedList("'" + v + "'" + (", " + rest)) ==
      if ParseQuotedList(rest).Some? then Some([v] + ParseQuotedList(rest).value) else None
  {
    QuotedHead(v, ", " + rest);
    var after := ", " + rest;
    assert after[..2] == ", " && after[2..] == rest;
  }

  lemma {:induction false} QuotedListRoundTrip(vs: seq<string>)
    requires |vs| > 0 && forall k :: 0 <= k < |vs| ==> '\'' !in vs[k]
    ensures ParseQuotedList(Join(QuoteAll(vs), ", ")) == Some(vs)
  {
    if |vs| == 1 {
      assert Join(QuoteAll(vs), ", ") == "'" + vs[0] + "'";
      ParseQuotedLast(vs[0]);
      assert vs == [vs[0]];
    } else {
      var rest := Join(QuoteAll(vs[1..]), ", ");
      assert QuoteAll(vs)[1..] == QuoteAll(vs[1..]);
      assert Join(QuoteAll(vs), ", ") == "'" + vs[0] + "'" + (", " + rest);
      ParseQuotedMore(vs[0], rest);
      QuotedListRoundTrip(vs[1..]);
      assert vs == [vs[0]] + vs[1..];
    }
  }

  /** The column text runs up to the first `)`; the quoted list sits between ` VALUES (` and the final `)`. */
  lemma ColumnsValuesStep(cs: string, vs: string)
    requires ')' !in cs
    ensures ParseColumnsValues(cs + (") VALUES (" + (vs + ")"))) ==
      if ParseQuotedList(vs).Some? then Some((Split(cs, ", "), ParseQuotedList(vs).value)) else None
  {
    var tail := ") VALUES (" + (vs + ")");
    var s := cs + tail;
    assert tail[0] == ')';
    assert IndexOf(tail, ')') == 0;
    IndexOfAppend(cs, tail, ')');
    assert s[|cs|..] == tail;
    assert |tail| >= 11 && tail[|tail| - 1] == ')';
    assert tail[..10] == ") VALUES (";
    assert tail[10..|tail| - 1] == vs;
    assert s[..|cs|] == cs;
  }

  lemma ColumnsValuesRoundTrip(columns: seq<string>, values: seq<string>)
    requires |columns| > 0 && forall k :: 0 <= k < |columns| ==> ',' !in columns[k] && ')' !in columns[k]
    requires |values| > 0 && forall k :: 0 <= k < |values| ==> '\'' !in values[k]
    ensures ParseColumnsValues(Join(columns, ", ") + (") VALUES (" + (Join(QuoteAll(values), ", ") + ")")))
      == Some((columns, values))
  {
    JoinAvoids(columns, ", ", ')');
    ColumnsValuesStep(Join(columns, ", "), Join(QuoteAll(values), ", "));
    QuotedListRoundTrip(values);
    SplitJoin(columns, ", ");
  }

  lemma ParseInsertPrefix(rest: string)
    ensures ParseInsert("INSERT INTO " + rest) == ParseInsertTable(rest)
  {
    assert ("INSERT INTO " + rest)[..12] == "INSERT INTO ";
    assert ("INSERT INTO " + rest)[12..] == rest;
  }

  lemma ParseInsertTableStep(table: string, cv: string)
    requires ' ' !in table
    ensures ParseInsertTable(table + (" (" + cv)) ==
      if ParseColumnsValues(cv).Some?
      then Some(InsertParts(table, ParseColumnsValues(cv).value.0, ParseColumnsValues(cv).value.1))
      else None
  {
    var rest := table + (" (" + cv);
    IndexOfAppend(table, " (" + cv, ' ');
    assert rest[..|table|] == table;
    var after := rest[|table|..];
    assert after == " (" + cv;
    assert after[..2] == " (" && after[2..] == cv;
  }

  /**
   * An INSERT statement can be read back into what it was built from,
   * provided no value holds a single quote (nothing is escaped), the table
   * name holds no space and no column name a comma or a closing parenthesis.
   * The column and value counts need not agree.
   */
  lemma InsertRoundTrip(table: string, columns: seq<string>, values: seq<string>)
    requires ' ' !in table
    requires |columns| > 0 && forall k :: 0 <= k < |columns| ==> ',' !in columns[k] && ')' !in columns[k]
    requires |values| > 0 && forall k :: 0 <= k < |values| ==> '\'' !in values[k]
    ensures ParseInsert(InsertQuery(table, columns, values)) == Some(InsertParts(table, columns, values))
  {
    var cv := Join(columns, ", ") + (") VALUES (" + (Join(QuoteAll(values), ", ") + ")"));
    ParseInsertPrefix(table + (" (" + cv));
    ParseInsertTableStep(table, cv);
    ColumnsValuesRoundTrip(columns, values);
  }

  /** A value holding a single quote ends its literal early: the statement no longer reads back. */
  lemma QuoteInValueBreaksInsert()
    ensures ParseQuotedList(Join(QuoteAll(["O'Brien"]), ", ")) == None
  {
    var s := Join(QuoteAll(["O'Brien"]), ", ");
    assert s == "'O'Brien'";
    assert IndexOf(s[1..], '\'') == 1;
    assert s[1..][2..] == "Brien'";
  }

  /**
   * Reads the column list of a SELECT and what follows ` FROM `: columns
   * are separated by `, ` and end at the first space not preceded by a comma.
   */
  function ParseColumnsFrom(s: string): Option<(seq<string>, string)>
    decreases |s|
  {
    var i := IndexOf(s, ' ');
    if i == |s| then None
    else if i > 0 && s[i - 1] == ',' then
      match ParseColumnsFrom(s[i + 1..])
      case None => None
      case Some(r) => Some(([s[..i - 1]] + r.0, r.1))
    else if |s[i..]| >= 6 && s[i..][..6] == " FROM " then Some(([s[..i]], s[i + 6..]))
    else None
  }

  /** Reads a SELECT statement back into its table and columns. */
  function ParseSelect(q: string): Option<(string, seq<string>)>
  {
    if !(|q| >= 7 && q[..7] == "SELECT ") then None
    else match ParseColumnsFrom(q[7..])
      case None => None
      case Some(r) => Some((r.1, r.0))
  }

  lemma ParseColumnsLast(c: string, tail: string)
    requires ',' !in c && ' ' !in c
    ensures ParseColumnsFrom(c + " FROM " + tail) == Some(([c], tail))
  {
    var s := c + (" FROM " + tail);
    assert c + " FROM " + tail == s;
    IndexOfAppend(c, " FROM " + tail, ' ');
    assert s[|c|..] == " FROM " + tail;
    assert s[..|c|] == c;
    if |c| > 0 {
      assert s[|c| - 1] == c[|c| - 1];
      assert c[|c| - 1] in c;
    }
  }

  lemma ParseColumnsMore(c: string, rest: string)
    requires ',' !in c && ' ' !in c
    ensures ParseColumnsFrom(c + ", " + rest) ==
      if ParseColumnsFrom(rest).Some?
      then Some(([c] + ParseColumnsFrom(rest).value.0, ParseColumnsFrom(rest).value.1))
      else None
  {
    var s := (c + ",") + (" " + rest);
    assert c + ", " + rest == s;
    IndexOfAppend(c + ",", " " + rest, ' ');
    assert s[..|c|] == c;
    assert s[|c| + 2..] == rest;
  }

  lemma {:induction false} ColumnsFromRoundTrip(columns: seq<string>, tail: string)
    requires |columns| > 0 && forall k :: 0 <= k < |columns| ==> ',' !in columns[k] && ' ' !in columns[k]
    ensures ParseColumnsFrom(Join(columns, ", ") + " FROM " + tail) == Some((columns, tail))
  {
    if |columns| == 1 {
      ParseColumnsLast(columns[0], tail);
      assert columns == [columns[0]];
    } else {
      var rest := Join(columns[1..], ", ");
      assert Join(columns, ", ") + " FROM " + tail == columns[0] + ", " + (rest + " FROM " + tail);
      ParseColumnsMore(columns[0], rest + " FROM " + tail);
      ColumnsFromRoundTrip(columns[1..], tail);
      assert columns == [columns[0]] + columns[1..];
    }
  }

  /** A SELECT statement names its table and its columns, in order, recoverably. */
  lemma SelectRoundTrip(table: string, columns: seq<string>)
    requires |columns| > 0 && forall k :: 0 <= k < |columns| ==> ',' !in columns[k] && ' ' !in columns[k]
    ensures ParseSelect(SelectQuery(table, columns)) == Some((table, columns))
  {
    var q := SelectQuery(table, columns);
    assert q[7..] == Join(columns, ", ") + " FROM " + table;
    ColumnsFromRoundTrip(columns, table);
  }

  /** The CREATE TABLE text splits back into its lines when no name or attribute holds a line break. */
  lemma CreateTableLinesRecovered(t: Table)
    requires '\n' !in t.name
    requires forall k :: 0 <= k < |t.columns| ==> '\n' !in t.columns[k].name && '\n' !in t.columns[k].attributes
    ensures Split(CreateTableText(t), "\n") == CreateTableLines(t)
  {
    var lines := CreateTableLines(t);
    forall k | 0 <= k < |lines| ensures '\n' !in lines[k] {
      if 1 <= k <= |t.columns| {
        assert lines[k] == ColumnDefinition(t.columns[k - 1]);
      }
    }
    SplitJoin(lines, "\n");
  }

  // ---------------------------------------------------------------------
  // Reshaping fetched tuples

  /** The dictionary of one tuple: the i-th column is assigned the i-th value, in column order. */
  function RecordDictOf(columns: seq<string>, record: Record): RecordDict
    requires |record| >= |columns|
  {
    PutAll([], columns, record[..|columns|])
  }

  /** With distinct columns, the dictionary has exactly the columns as keys, in order, each with its value. */
  lemma RecordDictShape(columns: seq<string>, record: Record)
    requires |record| >= |columns| && Distinct(columns)
    ensures Keys(RecordDictOf(columns, record)) == columns
    ensures forall k :: 0 <= k < |columns| ==> Get(RecordDictOf(columns, record), columns[k]) == Some(record[k])
  {
    PutAllFromEmpty(columns, record[..|columns|]);
    var d := RecordDictOf(columns, record);
    forall k | 0 <= k < |columns| ensures Get(d, columns[k]) == Some(record[k]) {
      ZipGet(columns, record[..|columns|], k);
    }
  }

  /** The inner loop of `FetchAll`/`FetchDate`: one tuple to a dictionary, with a manual index. */
  method RecordToDict(columns: seq<string>, record: Record) returns (d: RecordDict)
    requires |record| >= |columns|
    ensures d == RecordDictOf(columns, record)
  {
    d := [];
    var i := 0;
    while i < |columns|
      invariant 0 <= i <= |columns|
      invariant PutAll(d, columns[i..], record[i..|columns|]) == RecordDictOf(columns, record)
    {
      assert columns[i..][1..] == columns[i + 1..];
      assert record[i..|columns|][1..] == record[i + 1..|columns|];
      d := Put(d, columns[i], record[i]);
      i := i + 1;
    }
  }

  predicate RecordsFit(columns: seq<string>, records: seq<Record>) {
    forall k :: 0 <= k < |records| ==> |records[k]| >= |columns|
  }

  /** The outer loop: one dictionary per fetched tuple, in the order fetched. */
  method RecordsToDicts(columns: seq<string>, records: seq<Record>) returns (ds: seq<RecordDict>)
    requires RecordsFit(columns, records)
    ensures |ds| == |records|
    ensures forall k :: 0 <= k < |records| ==> ds[k] == RecordDictOf(columns, records[k])
  {
    ds := [];
    for i := 0 to |records|
      invariant |ds| == i
      invariant forall k :: 0 <= k < i ==> ds[k] == RecordDictOf(columns, records[k])
    {
      var d := RecordToDict(columns, records[i]);
      ds := ds + [d];
    }
  }

  // ---------------------------------------------------------------------
  // The store object

  /** The fetched tuples fit the columns of the table they are fetched from. */
  predicate FitsTable(tableName: string, records: seq<Record>) {
    Lookup(Registry(), tableName).Some? ==>
      RecordsFit(ColumnNames(Lookup(Registry(), tableName).value.columns), records)
  }

  /** The loop of `DB.__init__` over the tables: one CREATE TABLE statement each, in order. */
  method CreateTableQueries(tables: seq<Table>) returns (statements: seq<string>)
    ensures statements == SetupStatements(tables)
  {
    statements := [];
    for i := 0 to |tables|
      invariant |statements| == i
      invariant forall k :: 0 <= k < i ==> statements[k] == CreateTableText(tables[k])
    {
      var q := CreateTableQuery(tables[i]);
      statements := statements + [q];
    }
  }

  class DB {
    /** `DB.tables`. */
    const tables: seq<Table>
    /** The statements sent to the database engine so far, oldest first. */
    var log: seq<string>

    predicate Valid() {
      tables == Registry()
    }

    /** `DB()`: a database file that does not exist yet is set up with one CREATE TABLE per table. */
    constructor (databaseExists: bool)
      ensures Valid()
      ensures log == if databaseExists then [] else SetupStatements(Registry())
    {
      var statements := [];
      if !databaseExists {
        statements := CreateTableQueries(Registry());
      }
      tables := Registry();
      log := statements;
    }

    /** The column names of a registered table, in declared order; any other name is an error. */
    method GetColumnsAsStrings(tableName: string) returns (r: Result<seq<string>, Error>)
      requires Valid()
      ensures tableName !in {TableCategories, TableExpenses, TableIncomes} ==> r == Failure(UnknownTable(tableName))
      ensures tableName == TableCategories ==> r == Success(["ID", "PARENT", "TITLE", "DESCRIPTION"])
      ensures tableName == TableExpenses || tableName == TableIncomes ==>
        r == Success(["ID", "CATEGORY", "AMOUNT", "DATETIME", "TITLE", "NOTES"])
    {
      match Lookup(tables, tableName)
      case None =>
        RegistryLookup(tableName);
        r := Failure(UnknownTable(tableName));
      case Some(t) =>
        var names := [];
        for i := 0 to |t.columns|
          invariant |names| == i
          invariant forall k :: 0 <= k < i ==> names[k] == t.columns[k].name
        {
          names := names + [t.columns[i].name];
        }
        assert names == ColumnNames(t.columns);
        RegistryLookup(tableName);
        r := Success(names);
    }

    /** `DB.Create`: sends one INSERT; neither the table nor the column/value counts are checked. */
    method Create(tableName: string, columns: seq<string>, values: seq<string>)
      modifies this`log
      ensures log == old(log) + [InsertQuery(tableName, columns, values)]
    {
      log := log + [InsertQuery(tableName, columns, values)];
    }

    /** `DB.FetchAll`: every fetched tuple of a registered table as a dictionary keyed by its columns. */
    method FetchAll(tableName: string, fetched: seq<Record>) returns (r: Result<seq<RecordDict>, Error>)
      requires Valid() && FitsTable(tableName, fetched)
      modifies this`log
      ensures Lookup(Registry(), tableName).None? ==> r == Failure(UnknownTable(tableName)) && log == old(log)
      ensures Lookup(Registry(), tableName).Some? ==>
        var columns := ColumnNames(Lookup(Registry(), tableName).value.columns);
        && log == old(log) + [SelectQuery(tableName, columns)]
        && r.Success? && |r.value| == |fetched|
        && forall k :: 0 <= k < |fetched| ==> r.value[k] == RecordDictOf(columns, fetched[k])
    {
      var columns :- GetColumnsAsStrings(tableName);
      RegistryLookup(tableName);
      log := log + [SelectQuery(tableName, columns)];
      var ds := RecordsToDicts(columns, fetched);
      r := Success(ds);
    }

    /** `DB.FetchDate`: like `FetchAll`, with the SELECT restricted to dates between `dateFrom` and `dateTo`. */
    method FetchDate(tableName: string, dateFrom: string, dateTo: string, fetched: seq<Record>)
      returns (r: Result<seq<RecordDict>, Error>)
      requires Valid() && FitsTable(tableName, fetched)
      modifies this`log
      ensures Lookup(Registry(), tableName).None? ==> r == Failure(UnknownTable(tableName)) && log == old(log)
      ensures Lookup(Registry(), tableName).Some? ==>
        var columns := ColumnNames(Lookup(Registry(), tableName).value.columns);
        && log == old(log) + [SelectBetweenQuery(tableName, columns, dateFrom, dateTo)]
        && r.Success? && |r.value| == |fetched|
        && forall k :: 0 <= k < |fetched| ==> r.value[k] == RecordDictOf(columns, fetched[k])
    {
      var columns :- GetColumnsAsStrings(tableName);
      RegistryLookup(tableName);
      log := log + [SelectBetweenQuery(tableName, columns, dateFrom, dateTo)];
      var ds := RecordsToDicts(columns, fetched);
      r := Success(ds);
    }
  }
}
