/**
 * The schema registry of the expense tracker: three tables, each an ordered
 * list of columns with the Python type of its values and the SQL attributes
 * it is declared with (`DB.tables` in `src/core.py`).
 */
module Schema {
  import opened Wrappers

  const TableCategories := "CATEGORIES"
  const TableExpenses := "EXPENSES"
  const TableIncomes := "INCOMES"

  /** The id column shared by all tables, and the date column of the two transaction tables. */
  const ColumnId := "ID"
  const ColumnDate := "DATETIME"

  const ColumnParent := "PARENT"
  const ColumnTitle := "TITLE"
  const ColumnDescription := "DESCRIPTION"
  const ColumnCategory := "CATEGORY"
  const ColumnAmount := "AMOUNT"
  const ColumnNotes := "NOTES"

  /** The Python type a column holds: `int`, `str` or `float`. */
  datatype ColumnType = IntType | StrType | FloatType

  datatype Column = Column(name: string, typ: ColumnType, attributes: string)

  datatype Table = Table(name: string, columns: seq<Column>)

  /** Failures of the data layer, each the exception the source raises. */
  datatype Error =
    | UnknownTable(table: string)       // ValueError from `getColumnsAsStrings`
    | TableNotRecognized(table: string) // ValueError from the `TransactionItem` constructor
    | MissingColumn(column: string)     // KeyError when a fetched row lacks a column
    | WrongType(column: string)         // a fetched value of another type than its column declares

  function CategoryColumns(): seq<Column> {
    [ Column(ColumnId, IntType, "INTEGER NOT NULL"),
      Column(ColumnParent, IntType, "INTEGER NOT NULL"),
      Column(ColumnTitle, StrType, "TEXT NOT NULL"),
      Column(ColumnDescription, StrType, "TEXT") ]
  }

  /** The columns of EXPENSES and of INCOMES, which are declared alike. */
  function TransactionColumns(): seq<Column> {
    [ Column(ColumnId, IntType, "INTEGER NOT NULL"),
      Column(ColumnCategory, IntType, "INTEGER NOT NULL"),
      Column(ColumnAmount, FloatType, "REAL NOT NULL"),
      Column(ColumnDate, StrType, "TEXT NOT NULL"),
      Column(ColumnTitle, StrType, "TEXT"),
      Column(ColumnNotes, StrType, "TEXT") ]
  }

  /** `DB.tables`, in the order the dictionary is written. */
  function Registry(): seq<Table> {
    [ Table(TableCategories, CategoryColumns()),
      Table(TableExpenses, TransactionColumns()),
      Table(TableIncomes, TransactionColumns()) ]
  }

  /** `table_name in self.tables` followed by `self.tables[table_name]`. */
  function Lookup(tables: seq<Table>, name: string): (r: Option<Table>)
    ensures r.Some? ==> r.value in tables && r.value.name == name
    ensures r.None? ==> forall t :: t in tables ==> t.name != name
  {
    if tables == [] then None
    else if tables[0].name == name then Some(tables[0])
    else Lookup(tables[1..], name)
  }

  function ColumnNames(columns: seq<Column>): (names: seq<string>)
    ensures |names| == |columns|
    ensures forall i :: 0 <= i < |columns| ==> names[i] == columns[i].name
  {
    if columns == [] then [] else [columns[0].name] + ColumnNames(columns[1..])
  }

  /** The column names of CATEGORIES, in declared order. */
  lemma CategoryColumnNames()
    ensures ColumnNames(CategoryColumns()) == ["ID", "PARENT", "TITLE", "DESCRIPTION"]
  {
  }

  /** The column names of EXPENSES and INCOMES, in declared order. */
  lemma TransactionColumnNames()
    ensures ColumnNames(TransactionColumns()) == ["ID", "CATEGORY", "AMOUNT", "DATETIME", "TITLE", "NOTES"]
  {
  }

  /** Only three table names are registered. */
  lemma RegistryLookup(name: string)
    ensures Lookup(Registry(), name).Some? <==> name in {TableCategories, TableExpenses, TableIncomes}
    ensures name == TableCategories ==>
      ColumnNames(Lookup(Registry(), name).value.columns) == ["ID", "PARENT", "TITLE", "DESCRIPTION"]
    ensures name == TableExpenses || name == TableIncomes ==>
      ColumnNames(Lookup(Registry(), name).value.columns) == ["ID", "CATEGORY", "AMOUNT", "DATETIME", "TITLE", "NOTES"]
  {
    CategoryColumnNames();
    TransactionColumnNames();
    var r := Registry();
    assert r[1..] == [r[1], r[2]] && r[1..][1..] == [r[2]] && r[1..][1..][1..] == [];
    if name == TableCategories {
      assert Lookup(r, name) == Some(r[0]);
    } else if name == TableExpenses {
      assert Lookup(r, name) == Some(r[1]);
    } else if name == TableIncomes {
      assert Lookup(r, name) == Some(r[2]);
    } else {
      assert Lookup(r, name) == None;
    }
  }

  /** EXPENSES and INCOMES are found with the transaction columns. */
  lemma LookupTransactions(name: string)
    requires name == TableExpenses || name == TableIncomes
    ensures Lookup(Registry(), name) == Some(Table(name, TransactionColumns()))
  {
    var r := Registry();
    assert r[0].name[0] == 'C' && name[0] != 'C';
    assert r[1..] == [r[1], r[2]] && r[1..][1..] == [r[2]];
    assert r[1].name[0] == 'E' && r[2].name[0] == 'I';
  }
}
