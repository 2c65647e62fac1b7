/**
 * The record types of `src/core.py`: categories, and the expense and income
 * transactions that share one shape and differ only in the table behind them.
 * A transaction is an object: `Add` fills its query dictionary in place before
 * handing the columns and values to the store.
 */
module Records {
  import opened Wrappers
  import opened Text
  import opened Dict
  import opened Schema
  import opened Store
  import opened Calendar

  // ---------------------------------------------------------------------
  // Categories

  /** `FormatType.LIST`, `FormatType.TREE`, and any other value passed as a format. */
  datatype Format = List | Tree | Unrecognized

  /** A category; unlike transactions it keeps the id it is constructed with. */
  datatype Category = Category(parent: int, title: string, description: string, id: int)

  /** The tree-node label: `{id} | {title} ({description})`. */
  function TreeLabel(c: Category): string
  {
    IntToString(c.id) + " | " + c.title + " (" + c.description + ")"
  }

  /** `Category.to_string`. */
  function CategoryToString(c: Category, format: Format): string
  {
    match format
    case List =>
      PadLeft(IntToString(c.id), 5) + " | " + PadLeft(IntToString(c.parent), 10) + " | "
        + PadRight(c.title, 20) + " | " + PadRight(c.description, 50)
    case Tree => TreeLabel(c)
    case Unrecognized => ""
  }

  /** `Category.get_list_header`. */
  function ListHeader(): string
  {
    Repeat(' ', 5 - |"ID"|) + "ID | " + Repeat(' ', 10 - |"PARENT"|) + "PARENT | TITLE "
      + Repeat(' ', 20 - |"TITLE"|) + "| DESCRIPTION " + Repeat(' ', 50 - |"DESCRIPTION"|)
  }

  /** The header's column separators sit at positions 6, 19 and 42. */
  lemma ListHeaderBars()
    ensures |ListHeader()| == 95
    ensures ListHeader()[6] == '|' && ListHeader()[19] == '|' && ListHeader()[42] == '|'
  {
    var h := ListHeader();
    var p1, p2, p3 := Repeat(' ', 3) + "ID | ", Repeat(' ', 4) + "PARENT | TITLE ", Repeat(' ', 15) + "| DESCRIPTION ";
    assert h == p1 + p2 + p3 + Repeat(' ', 39);
    assert |p1| == 8 && p1[6] == '|';
    assert |p2| == 19 && p2[11] == '|';
    assert |p3| == 29 && p3[15] == '|';
    assert (p1 + p2)[19] == p2[11];
    assert (p1 + p2 + p3)[42] == p3[15];
  }

  /** Four fields of widths 5, 10, 20 and 50 joined by ` | ` occupy fixed columns. */
  lemma FixedColumns(a: string, b: string, t: string, d: string)
    requires |a| == 5 && |b| == 10 && |t| == 20 && |d| == 50
    ensures var row := a + " | " + b + " | " + t + " | " + d;
      && |row| == 94
      && row[..5] == a && row[8..18] == b && row[21..41] == t && row[44..] == d
      && row[6] == '|' && row[19] == '|' && row[42] == '|'
  {
    var x := a + " | ";
    var y := x + b + " | ";
    var z := y + t + " | ";
    assert (x + b)[8..] == b;
    assert (y + t)[21..] == t;
    assert (z + d)[44..] == d;
    assert (z + d)[..41] == (y + t);
    assert (y + t)[..18] == (x + b);
    assert (x + b)[..5] == a;
  }

  /**
   * The LIST row puts each field in a fixed-width column: id right-aligned in
   * 5, parent right-aligned in 10, title left-aligned in 20, description
   * left-aligned in 50, separated by ` | `. When the fields fit, the row's
   * separators fall exactly under the header's.
   */
  lemma ListRowColumns(c: Category)
    requires |IntToString(c.id)| <= 5 && |IntToString(c.parent)| <= 10
    requires |c.title| <= 20 && |c.description| <= 50
    ensures var row := CategoryToString(c, List);
      && |row| == 94 && |ListHeader()| == 95
      && row[..5] == PadLeft(IntToString(c.id), 5)
      && row[8..18] == PadLeft(IntToString(c.parent), 10)
      && row[21..41] == PadRight(c.title, 20)
      && row[44..] == PadRight(c.description, 50)
      && row[6] == ListHeader()[6] == '|'
      && row[19] == ListHeader()[19] == '|'
      && row[42] == ListHeader()[42] == '|'
  {
    FixedColumns(PadLeft(IntToString(c.id), 5), PadLeft(IntToString(c.parent), 10),
      PadRight(c.title, 20), PadRight(c.description, 50));
    ListHeaderBars();
  }

  /** A tree label starts with the category's id, which reads back from the text before the first space. */
  lemma TreeLabelId(c: Category)
    ensures var text := TreeLabel(c);
      var i := IndexOf(text, ' ');
      && text[0] != '\t'
      && text[..i] == IntToString(c.id)
      && ParseInt(text[..i]) == c.id
  {
    var s := IntToString(c.id);
    IntToStringChars(c.id);
    var text := TreeLabel(c);
    assert text == s + (" | " + c.title + " (" + c.description + ")");
    assert ' ' !in s;
    IndexOfAppend(s, " | " + c.title + " (" + c.description + ")", ' ');
    assert text[..|s|] == s;
    IntToStringRoundTrip(c.id);
  }

  // ---------------------------------------------------------------------
  // Transactions

  /** Which table backs a transaction. */
  datatype Kind = Expenses | Incomes

  function TableOf(kind: Kind): string
  {
    match kind
    case Expenses => TableExpenses
    case Incomes => TableIncomes
  }

  /** The table check of the `TransactionItem` constructor: only EXPENSES and INCOMES are accepted. */
  function KindOf(table: string): (r: Result<Kind, Error>)
    ensures r.Success? <==> table == TableExpenses || table == TableIncomes
    ensures r.Success? ==> TableOf(r.value) == table
    ensures r.Failure? ==> r.error == TableNotRecognized(table)
  {
    if table == TableExpenses then Success(Expenses)
    else if table == TableIncomes then Success(Incomes)
    else Failure(TableNotRecognized(table))
  }

  /** The fractional digits Python prints for a float that is a whole number of hundredths. */
  function FractionText(c: nat): (s: string)
    requires c < 100
    ensures 1 <= |s| <= 2 && AllDigits(s)
  {
    if c % 10 == 0 then [DigitChar(c / 10)] else FixedDigits(c, 2)
  }

  /** `str(x)` for a non-negative float `x` of `a` hundredths: whole part, a dot, one or two fractional digits. */
  function UnsignedAmountText(a: nat): (s: string)
    ensures |s| >= 3 && IsDigit(s[0]) && '\'' !in s
  {
    var w, f := NatToString(a / 100), FractionText(a % 100);
    assert forall k :: 0 <= k < |w| ==> w[k] != '\'';
    assert forall k :: 0 <= k < |f| ==> f[k] != '\'';
    w + "." + f
  }

  /**
   * `str(amount)` for an amount of `h` hundredths: the shortest decimal that
   * denotes it, with at least one fractional digit (`12.0`, `12.5`, `12.05`).
   */
  function AmountText(h: int): (s: string)
    ensures '\'' !in s
    ensures |s| >= 3 && (s[0] == '-' <==> h < 0)
  {
    if h < 0 then "-" + UnsignedAmountText(-h) else UnsignedAmountText(h)
  }

  /** Reads a decimal with one or two fractional digits and no sign as a number of hundredths. */
  function ParseUnsignedAmount(s: string): Option<nat>
  {
    var i := IndexOf(s, '.');
    if i == |s| then None
    else
      var whole, frac := s[..i], s[i + 1..];
      if !(AllDigits(whole) && AllDigits(frac) && 1 <= |frac| <= 2) then None
      else Some(ParseDigits(whole) * 100 + (if |frac| == 1 then ParseDigits(frac) * 10 else ParseDigits(frac)))
  }

  /** Reads an amount's text back, with an optional leading minus. */
  function ParseAmount(s: string): Option<int>
  {
    if |s| > 0 && s[0] == '-' then
      match ParseUnsignedAmount(s[1..])
      case None => None
      case Some(v) => Some(-(v as int))
    else
      match ParseUnsignedAmount(s)
      case None => None
      case Some(v) => Some(v)
  }

  lemma FractionRoundTrip(c: nat)
    requires c < 100
    ensures var f := FractionText(c); (if |f| == 1 then ParseDigits(f) * 10 else ParseDigits(f)) == c
  {
    if c % 10 == 0 {
      assert ParseDigits([DigitChar(c / 10)]) == c / 10 by {
        assert [DigitChar(c / 10)][..0] == [];
      }
    } else {
      assert Pow10(2) == 100 by { assert Pow10(1) == 10; }
      FixedDigitsRoundTrip(c, 2);
    }
  }

  /** The unsigned part of an amount's text reads back as the magnitude. */
  lemma UnsignedAmountRoundTrip(a: nat)
    ensures ParseUnsignedAmount(UnsignedAmountText(a)) == Some(a)
  {
    var w, f := NatToString(a / 100), FractionText(a % 100);
    var body := UnsignedAmountText(a);
    assert body == w + ("." + f);
    assert '.' !in w;
    IndexOfAppend(w, "." + f, '.');
    var i := IndexOf(body, '.');
    assert i == |w|;
    assert body[..i] == w && body[i + 1..] == f;
    NatToStringRoundTrip(a / 100);
    FractionRoundTrip(a % 100);
    var frac := if |f| == 1 then ParseDigits(f) * 10 else ParseDigits(f);
    assert frac == a % 100;
    assert ParseDigits(w) == a / 100;
    assert ParseDigits(w) * 100 + frac == a;
  }

  /** A leading minus negates what the rest reads as; without one the text reads unsigned. */
  lemma ParseAmountSign(body: string)
    requires |body| > 0 && IsDigit(body[0])
    ensures ParseAmount(body) == ParseUnsignedAmount(body)
    ensures ParseAmount("-" + body) ==
      if ParseUnsignedAmount(body).Some? then Some(-(ParseUnsignedAmount(body).value as int)) else None
  {
    assert ("-" + body)[1..] == body;
  }

  /** The text of an amount denotes exactly that amount. */
  lemma AmountRoundTrip(h: int)
    ensures ParseAmount(AmountText(h)) == Some(h)
  {
    var a: nat := if h < 0 then -h else h;
    UnsignedAmountRoundTrip(a);
    ParseAmountSign(UnsignedAmountText(a));
  }

  /** The columns `Add` fills, in the order it fills them: never ID, which the engine assigns. */
  function AddColumns(): seq<string>
  {
    [ColumnCategory, ColumnDate, ColumnAmount, ColumnTitle, ColumnNotes]
  }

  /** The values `Add` puts under `AddColumns`, as text. */
  function AddValues(categoryId: int, date: string, amount: int, title: string, notes: string): seq<string>
  {
    [IntToString(categoryId), date, AmountText(amount), title, notes]
  }

  class Transaction {
    const kind: Kind
    var categoryId: int
    /** The date as the text it is stored as (`YYYY-MM-DD`). */
    const date: string
    /** The amount in hundredths. */
    const amount: int
    const title: string
    const notes: string
    const id: int
    /** `Item._query_dict`: the column/value pairs of the next insertion. */
    var queryDict: ODict<string>

    /** The `TransactionItem` constructor once the table has passed its check: the id is kept. */
    constructor Make(kind: Kind, categoryId: int, date: string, amount: int, title: string, notes: string, id: int)
      ensures this.kind == kind && this.categoryId == categoryId && this.date == date
      ensures this.amount == amount && this.title == title && this.notes == notes
      ensures this.id == id && queryDict == []
    {
      this.kind, this.categoryId, this.date := kind, categoryId, date;
      this.amount, this.title, this.notes := amount, title, notes;
      this.id := id;
      queryDict := [];
    }

    /** `Expense(...)`: the `id` argument is dropped and 0 stored instead. */
    constructor Expense(categoryId: int, date: string, amount: int, title: string, notes: string, id: int)
      ensures kind == Expenses && this.categoryId == categoryId && this.date == date
      ensures this.amount == amount && this.title == title && this.notes == notes
      ensures this.id == 0 && queryDict == []
    {
      kind, this.categoryId, this.date := Expenses, categoryId, date;
      this.amount, this.title, this.notes := amount, title, notes;
      this.id := 0;
      queryDict := [];
    }

    /** `Income(...)`: the `id` argument is dropped and 0 stored instead. */
    constructor Income(categoryId: int, date: string, amount: int, title: string, notes: string, id: int)
      ensures kind == Incomes && this.categoryId == categoryId && this.date == date
      ensures this.amount == amount && this.title == title && this.notes == notes
      ensures this.id == 0 && queryDict == []
    {
      kind, this.categoryId, this.date := Incomes, categoryId, date;
      this.amount, this.title, this.notes := amount, title, notes;
      this.id := 0;
      queryDict := [];
    }

    /** The `category_id` setter, the one transaction setter that assigns its field. */
    method SetCategoryId(value: int)
      modifies this`categoryId
      ensures categoryId == value
    {
      categoryId := value;
    }

    /** `Item.add_dict_element`. */
    method AddDictElement(column: string, data: string)
      modifies this`queryDict
      ensures queryDict == Put(old(queryDict), column, data)
    {
      queryDict := Put(queryDict, column, data);
    }

    /** `Expense.Add` / `Income.Add`: fills the query dictionary, then inserts its keys and values into the own table. */
    method Add(db: DB)
      modifies this`queryDict, db`log
      ensures queryDict == PutAll(old(queryDict), AddColumns(), AddValues(categoryId, date, amount, title, notes))
      ensures db.log == old(db.log) + [InsertQuery(TableOf(kind), Keys(queryDict), Values(queryDict))]
    {
      var values := AddValues(categoryId, date, amount, title, notes);
      ghost var d0 := queryDict;
      AddDictElement(ColumnCategory, IntToString(categoryId));
      AddDictElement(ColumnDate, date);
      AddDictElement(ColumnAmount, AmountText(amount));
      AddDictElement(ColumnTitle, title);
      AddDictElement(ColumnNotes, notes);
      PutAllFive(d0, AddColumns(), values);
      db.Create(TableOf(kind), Keys(queryDict), Values(queryDict));
    }
  }

  /** The `TransactionItem` constructor: a table other than EXPENSES or INCOMES is refused with an error. */
  method NewTransactionItem(table: string, categoryId: int, date: string, amount: int, title: string, notes: string, id: int)
    returns (r: Result<Transaction, Error>)
    ensures r.Success? <==> table == TableExpenses || table == TableIncomes
    ensures r.Failure? ==> r.error == TableNotRecognized(table)
    ensures r.Success? ==>
      && fresh(r.value) && TableOf(r.value.kind) == table && r.value.id == id
      && r.value.categoryId == categoryId && r.value.date == date && r.value.amount == amount
      && r.value.title == title && r.value.notes == notes && r.value.queryDict == []
  {
    var kind :- KindOf(table);
    var t := new Transaction.Make(kind, categoryId, date, amount, title, notes, id);
    r := Success(t);
  }

  /** On a new transaction, `Add` fills exactly the five columns, in order, each with its value. */
  lemma AddFromEmpty(values: seq<string>)
    requires |values| == 5
    ensures PutAll([], AddColumns(), values) == Zip(AddColumns(), values)
    ensures Keys(PutAll([], AddColumns(), values)) == AddColumns()
    ensures ColumnId !in Keys(PutAll([], AddColumns(), values))
  {
    AddColumnsDistinct();
    PutAllFromEmpty(AddColumns(), values);
    ZipKeysValues(AddColumns(), values);
  }

  /** The five columns of `Add` are distinct, and none of them is ID. */
  lemma AddColumnsDistinct()
    ensures Distinct(AddColumns()) && ColumnId !in AddColumns()
  {
    var cs := AddColumns();
    assert cs[0][0] == 'C' && cs[1][0] == 'D' && cs[2][0] == 'A' && cs[3][0] == 'T' && cs[4][0] == 'N';
    assert ColumnId[0] == 'I';
  }

  /** Calling `Add` again overwrites the same five keys, in the same order, with the current values. */
  lemma AddTwice(first: seq<string>, second: seq<string>)
    requires |first| == 5 && |second| == 5
    ensures PutAll(PutAll([], AddColumns(), first), AddColumns(), second) == PutAll([], AddColumns(), second)
  {
    AddColumnsDistinct();
    PutAllFromEmpty(AddColumns(), first);
    PutAllFromEmpty(AddColumns(), second);
    PutAllOverwrite(AddColumns(), first, second);
  }

  /**
   * The INSERT that a first `Add` sends reads back as the transaction's own
   * table, the five columns and the five values, provided the date, title
   * and notes hold no single quote.
   */
  lemma AddStatementRoundTrip(kind: Kind, categoryId: int, date: string, amount: int, title: string, notes: string)
    requires '\'' !in date && '\'' !in title && '\'' !in notes
    ensures var d := PutAll([], AddColumns(), AddValues(categoryId, date, amount, title, notes));
      ParseInsert(InsertQuery(TableOf(kind), Keys(d), Values(d)))
        == Some(InsertParts(TableOf(kind), AddColumns(), AddValues(categoryId, date, amount, title, notes)))
  {
    var values := AddValues(categoryId, date, amount, title, notes);
    AddFromEmpty(values);
    ZipKeysValues(AddColumns(), values);
    AddInsertable(categoryId, date, amount, title, notes);
    InsertRoundTrip(TableOf(kind), AddColumns(), values);
  }

  /** The table, columns and values of `Add` meet what an INSERT needs to read back. */
  lemma AddInsertable(categoryId: int, date: string, amount: int, title: string, notes: string)
    requires '\'' !in date && '\'' !in title && '\'' !in notes
    ensures forall kind: Kind :: ' ' !in TableOf(kind)
    ensures forall k :: 0 <= k < |AddColumns()| ==> ',' !in AddColumns()[k] && ')' !in AddColumns()[k]
    ensures var values := AddValues(categoryId, date, amount, title, notes);
      forall k :: 0 <= k < |values| ==> '\'' !in values[k]
  {
    IntToStringChars(categoryId);
    assert '\'' !in IntToString(categoryId);
  }

  // ---------------------------------------------------------------------
  // Records rebuilt from fetched dictionaries

  function IntField(d: RecordDict, column: string): (r: Result<int, Error>)
    ensures r.Success? <==> Get(d, column).Some? && Get(d, column).value.IntValue?
    ensures r.Success? ==> Get(d, column) == Some(IntValue(r.value))
    ensures r.Failure? ==> r.error == if Get(d, column).None? then MissingColumn(column) else WrongType(column)
  {
    match Get(d, column)
    case None => Failure(MissingColumn(column))
    case Some(v) => if v.IntValue? then Success(v.i) else Failure(WrongType(column))
  }

  function TextField(d: RecordDict, column: string): (r: Result<string, Error>)
    ensures r.Success? <==> Get(d, column).Some? && Get(d, column).value.TextValue?
    ensures r.Success? ==> Get(d, column) == Some(TextValue(r.value))
    ensures r.Failure? ==> r.error == if Get(d, column).None? then MissingColumn(column) else WrongType(column)
  {
    match Get(d, column)
    case None => Failure(MissingColumn(column))
    case Some(v) => if v.TextValue? then Success(v.s) else Failure(WrongType(column))
  }

  function AmountField(d: RecordDict, column: string): (r: Result<int, Error>)
    ensures r.Success? <==> Get(d, column).Some? && Get(d, column).value.RealValue?
    ensures r.Success? ==> Get(d, column) == Some(RealValue(r.value))
    ensures r.Failure? ==> r.error == if Get(d, column).None? then MissingColumn(column) else WrongType(column)
  {
    match Get(d, column)
    case None => Failure(MissingColumn(column))
    case Some(v) => if v.RealValue? then Success(v.hundredths) else Failure(WrongType(column))
  }

  /** `Category(parent=d[PARENT], title=d[TITLE], description=d[DESCRIPTION], id=d[ID])`, looked up in that order. */
  function CategoryFromDict(d: RecordDict): (r: Result<Category, Error>)
    ensures r.Success? ==>
      && Get(d, ColumnId) == Some(IntValue(r.value.id))
      && Get(d, ColumnParent) == Some(IntValue(r.value.parent))
      && Get(d, ColumnTitle) == Some(TextValue(r.value.title))
      && Get(d, ColumnDescription) == Some(TextValue(r.value.description))
    ensures r.Failure? ==> r.error in {MissingColumn(ColumnParent), WrongType(ColumnParent),
      MissingColumn(ColumnTitle), WrongType(ColumnTitle), MissingColumn(ColumnDescription),
      WrongType(ColumnDescription), MissingColumn(ColumnId), WrongType(ColumnId)}
  {
    var parent :- IntField(d, ColumnParent);
    var title :- TextField(d, ColumnTitle);
    var description :- TextField(d, ColumnDescription);
    var id :- IntField(d, ColumnId);
    Success(Category(parent, title, description, id))
  }

  /** The fields a transaction is rebuilt from; the stored id is looked up but not kept. */
  datatype TransactionFields = TransactionFields(categoryId: int, date: string, amount: int, title: string, notes: string)

  /** The keyword arguments of `_from_dict_to_tuple`, looked up in order: CATEGORY, DATETIME, AMOUNT, TITLE, NOTES, ID. */
  function FieldsFromDict(d: RecordDict): (r: Result<TransactionFields, Error>)
    ensures r.Success? ==>
      && Get(d, ColumnId).Some?
      && Get(d, ColumnCategory) == Some(IntValue(r.value.categoryId))
      && Get(d, ColumnDate) == Some(TextValue(r.value.date))
      && Get(d, ColumnAmount) == Some(RealValue(r.value.amount))
      && Get(d, ColumnTitle) == Some(TextValue(r.value.title))
      && Get(d, ColumnNotes) == Some(TextValue(r.value.notes))
  {
    var categoryId :- IntField(d, ColumnCategory);
    var date :- TextField(d, ColumnDate);
    var amount :- AmountField(d, ColumnAmount);
    var title :- TextField(d, ColumnTitle);
    var notes :- TextField(d, ColumnNotes);
    if Get(d, ColumnId).None? then Failure(MissingColumn(ColumnId))
    else Success(TransactionFields(categoryId, date, amount, title, notes))
  }

  /** Rebuilds every dictionary in order with `rebuild`; the first that cannot be rebuilt decides the error. */
  function RebuildAll<T>(ds: seq<RecordDict>, rebuild: RecordDict -> Result<T, Error>): (r: Result<seq<T>, Error>)
    ensures r.Success? ==> |r.value| == |ds|
  {
    if ds == [] then Success([])
    else
      var init :- RebuildAll(ds[..|ds| - 1], rebuild);
      var x :- rebuild(ds[|ds| - 1]);
      Success(init + [x])
  }

  /** `Category.FetchAll`'s rebuilding of every fetched dictionary. */
  function AllCategories(ds: seq<RecordDict>): Result<seq<Category>, Error>
  {
    RebuildAll(ds, CategoryFromDict)
  }

  /** `_from_dict_to_tuple`'s rebuilding of every fetched dictionary. */
  function AllFields(ds: seq<RecordDict>): Result<seq<TransactionFields>, Error>
  {
    RebuildAll(ds, FieldsFromDict)
  }

  /** A non-empty list rebuilds when all but the last and the last do, and then in that order. */
  lemma RebuildAllSnoc<T>(ds: seq<RecordDict>, rebuild: RecordDict -> Result<T, Error>)
    requires ds != []
    ensures RebuildAll(ds, rebuild).Success? <==>
      RebuildAll(ds[..|ds| - 1], rebuild).Success? && rebuild(ds[|ds| - 1]).Success?
    ensures RebuildAll(ds, rebuild).Success? ==>
      RebuildAll(ds, rebuild).value == RebuildAll(ds[..|ds| - 1], rebuild).value + [rebuild(ds[|ds| - 1]).value]
  {
  }

  /** The list rebuilds exactly when every dictionary does, and then entry `k` is what dictionary `k` rebuilds to. */
  lemma {:induction false} RebuildAllAt<T>(ds: seq<RecordDict>, rebuild: RecordDict -> Result<T, Error>)
    ensures RebuildAll(ds, rebuild).Success? <==> forall k :: 0 <= k < |ds| ==> rebuild(ds[k]).Success?
    ensures RebuildAll(ds, rebuild).Success? ==>
      forall k :: 0 <= k < |ds| ==> RebuildAll(ds, rebuild).value[k] == rebuild(ds[k]).value
    decreases |ds|
  {
    if ds != [] {
      var n := |ds| - 1;
      var init := ds[..n];
      RebuildAllAt(init, rebuild);
      RebuildAllSnoc(ds, rebuild);
      if RebuildAll(ds, rebuild).Success? {
        forall k | 0 <= k < |ds|
          ensures rebuild(ds[k]).Success? && RebuildAll(ds, rebuild).value[k] == rebuild(ds[k]).value
        {
          if k < n {
            assert ds[k] == init[k];
          }
        }
      } else if RebuildAll(init, rebuild).Failure? {
        var k :| 0 <= k < n && rebuild(init[k]).Failure?;
        assert ds[k] == init[k];
      }
    }
  }

  /** A dictionary that fails makes every longer list fail with the same error. */
  lemma {:induction false} RebuildAllFailureSticks<T>(ds: seq<RecordDict>, rebuild: RecordDict -> Result<T, Error>, n: nat)
    requires n <= |ds| && RebuildAll(ds[..n], rebuild).Failure?
    ensures RebuildAll(ds, rebuild) == RebuildAll(ds[..n], rebuild)
    decreases |ds| - n
  {
    if n < |ds| {
      assert ds[..n + 1][..n] == ds[..n];
      RebuildAllFailureSticks(ds, rebuild, n + 1);
    } else {
      assert ds[..n] == ds;
    }
  }

  /** Transaction fields: one per dictionary, in order, exactly when every dictionary rebuilds. */
  lemma AllFieldsAt(ds: seq<RecordDict>)
    ensures AllFields(ds).Success? <==> forall k :: 0 <= k < |ds| ==> FieldsFromDict(ds[k]).Success?
    ensures AllFields(ds).Success? ==>
      |AllFields(ds).value| == |ds| &&
      forall k :: 0 <= k < |ds| ==> AllFields(ds).value[k] == FieldsFromDict(ds[k]).value
  {
    RebuildAllAt(ds, FieldsFromDict);
  }

  /** Categories: one per dictionary, in order, exactly when every dictionary rebuilds. */
  lemma AllCategoriesAt(ds: seq<RecordDict>)
    ensures AllCategories(ds).Success? <==> forall k :: 0 <= k < |ds| ==> CategoryFromDict(ds[k]).Success?
    ensures AllCategories(ds).Success? ==>
      |AllCategories(ds).value| == |ds| &&
      forall k :: 0 <= k < |ds| ==> AllCategories(ds).value[k] == CategoryFromDict(ds[k]).value
  {
    RebuildAllAt(ds, CategoryFromDict);
  }

  /** `Category.FetchAll`'s loop: one category per dictionary, in order. */
  method CategoriesFromDicts(ds: seq<RecordDict>) returns (r: Result<seq<Category>, Error>)
    ensures r == AllCategories(ds)
  {
    var categories := [];
    for i := 0 to |ds|
      invariant AllCategories(ds[..i]) == Success(categories)
    {
      assert ds[..i + 1][..i] == ds[..i];
      var c := CategoryFromDict(ds[i]);
      if c.Failure? {
        RebuildAllFailureSticks(ds, CategoryFromDict, i + 1);
        return Failure(c.error);
      }
      categories := categories + [c.value];
    }
    assert ds[..|ds|] == ds;
    r := Success(categories);
  }

  /** A rebuilt transaction of the given kind carries the fields it was built from and id 0. */
  predicate Rebuilt(t: Transaction, kind: Kind, f: TransactionFields)
    reads t
  {
    && t.kind == kind && t.id == 0 && t.queryDict == []
    && t.categoryId == f.categoryId && t.date == f.date && t.amount == f.amount
    && t.title == f.title && t.notes == f.notes
  }

  /** `_from_dict_to_tuple`: one new Expense or Income per dictionary, in order, every one with id 0. */
  method TransactionsFromDicts(kind: Kind, ds: seq<RecordDict>) returns (r: Result<seq<Transaction>, Error>)
    ensures r.Success? <==> AllFields(ds).Success?
    ensures r.Failure? ==> r.error == AllFields(ds).error
    ensures r.Success? ==> |r.value| == |ds| && forall k :: 0 <= k < |ds| ==>
      fresh(r.value[k]) && Rebuilt(r.value[k], kind, AllFields(ds).value[k])
  {
    var ts: seq<Transaction> := [];
    ghost var fs: seq<TransactionFields> := [];
    for i := 0 to |ds|
      invariant AllFields(ds[..i]) == Success(fs) && |ts| == i
      invariant forall k :: 0 <= k < i ==> fresh(ts[k]) && Rebuilt(ts[k], kind, fs[k])
    {
      assert ds[..i + 1][..i] == ds[..i];
      var f := FieldsFromDict(ds[i]);
      if f.Failure? {
        RebuildAllFailureSticks(ds, FieldsFromDict, i + 1);
        return Failure(f.error);
      }
      var t;
      if kind == Expenses {
        t := new Transaction.Expense(f.value.categoryId, f.value.date, f.value.amount, f.value.title, f.value.notes, 0);
      } else {
        t := new Transaction.Income(f.value.categoryId, f.value.date, f.value.amount, f.value.title, f.value.notes, 0);
      }
      ts, fs := ts + [t], fs + [f.value];
    }
    assert ds[..|ds|] == ds;
    r := Success(ts);
  }

  /** No two CATEGORIES columns share a name. */
  lemma CategoryColumnsDistinct()
    ensures Distinct(ColumnNames(CategoryColumns()))
  {
    var columns := ColumnNames(CategoryColumns());
    CategoryColumnNames();
    assert columns[0][0] == 'I' && columns[1][0] == 'P' && columns[2][0] == 'T' && columns[3][0] == 'D';
  }

  /** No two EXPENSES or INCOMES columns share a name. */
  lemma TransactionColumnsDistinct()
    ensures Distinct(ColumnNames(TransactionColumns()))
  {
    var columns := ColumnNames(TransactionColumns());
    TransactionColumnNames();
    assert columns[0][0] == 'I' && columns[1][0] == 'C' && columns[2][0] == 'A';
    assert columns[3][0] == 'D' && columns[4][0] == 'T' && columns[5][0] == 'N';
  }

  /** Each column of a fetched CATEGORIES tuple reads back its own cell. */
  lemma CategoryRowGets(row: Record)
    requires |row| >= 4
    ensures var d := RecordDictOf(ColumnNames(CategoryColumns()), row);
      && Get(d, ColumnId) == Some(row[0]) && Get(d, ColumnParent) == Some(row[1])
      && Get(d, ColumnTitle) == Some(row[2]) && Get(d, ColumnDescription) == Some(row[3])
  {
    var columns := ColumnNames(CategoryColumns());
    CategoryColumnsDistinct();
    CategoryColumnNames();
    RecordDictShape(columns, row);
    var d := RecordDictOf(columns, row);
    assert Get(d, columns[0]) == Some(row[0]) && Get(d, columns[1]) == Some(row[1]);
    assert Get(d, columns[2]) == Some(row[2]) && Get(d, columns[3]) == Some(row[3]);
  }

  /** Each column of a fetched EXPENSES or INCOMES tuple reads back its own cell. */
  lemma TransactionRowGets(row: Record)
    requires |row| >= 6
    ensures var d := RecordDictOf(ColumnNames(TransactionColumns()), row);
      && Get(d, ColumnId) == Some(row[0]) && Get(d, ColumnCategory) == Some(row[1])
      && Get(d, ColumnAmount) == Some(row[2]) && Get(d, ColumnDate) == Some(row[3])
      && Get(d, ColumnTitle) == Some(row[4]) && Get(d, ColumnNotes) == Some(row[5])
  {
    var columns := ColumnNames(TransactionColumns());
    TransactionColumnsDistinct();
    TransactionColumnNames();
    RecordDictShape(columns, row);
    var d := RecordDictOf(columns, row);
    assert Get(d, columns[0]) == Some(row[0]) && Get(d, columns[1]) == Some(row[1]);
    assert Get(d, columns[2]) == Some(row[2]) && Get(d, columns[3]) == Some(row[3]);
    assert Get(d, columns[4]) == Some(row[4]) && Get(d, columns[5]) == Some(row[5]);
  }

  /** A fetched CATEGORIES tuple becomes the category with those values, its stored id included. */
  lemma CategoryRowKeepsId(id: int, parent: int, title: string, description: string)
    ensures CategoryFromDict(RecordDictOf(ColumnNames(CategoryColumns()),
      [IntValue(id), IntValue(parent), TextValue(title), TextValue(description)]))
      == Success(Category(parent, title, description, id))
  {
    CategoryRowGets([IntValue(id), IntValue(parent), TextValue(title), TextValue(description)]);
  }

  /** A fetched EXPENSES or INCOMES tuple yields the stored fields, and the stored id is lost. */
  lemma TransactionRowFields(id: int, categoryId: int, amount: int, date: string, title: string, notes: string)
    ensures FieldsFromDict(RecordDictOf(ColumnNames(TransactionColumns()),
      [IntValue(id), IntValue(categoryId), RealValue(amount), TextValue(date), TextValue(title), TextValue(notes)]))
      == Success(TransactionFields(categoryId, date, amount, title, notes))
  {
    TransactionRowGets([IntValue(id), IntValue(categoryId), RealValue(amount), TextValue(date), TextValue(title), TextValue(notes)]);
  }

  /** The amount a fetched EXPENSES or INCOMES tuple rebuilds to is its AMOUNT cell, the third one. */
  lemma RowAmount(row: Record)
    requires |row| >= 6
    requires FieldsFromDict(RecordDictOf(ColumnNames(TransactionColumns()), row)).Success?
    ensures row[2] == RealValue(FieldsFromDict(RecordDictOf(ColumnNames(TransactionColumns()), row)).value.amount)
  {
    TransactionRowGets(row);
  }

  // ---------------------------------------------------------------------
  // Fetching

  /** The dictionaries `DB.FetchAll`/`DB.FetchDate` build from CATEGORIES tuples. */
  function CategoryDicts(fetched: seq<Record>): seq<RecordDict>
    requires RecordsFit(ColumnNames(CategoryColumns()), fetched)
  {
    seq(|fetched|, k requires 0 <= k < |fetched| => RecordDictOf(ColumnNames(CategoryColumns()), fetched[k]))
  }

  /** When the fetched CATEGORIES tuples rebuild, category `k` holds exactly the four cells of tuple `k`, stored id included. */
  lemma FetchedCategories(fetched: seq<Record>)
    requires RecordsFit(ColumnNames(CategoryColumns()), fetched)
    ensures |ColumnNames(CategoryColumns())| == 4
    ensures var r := AllCategories(CategoryDicts(fetched));
      r.Success? ==> |r.value| == |fetched| && forall k :: 0 <= k < |fetched| ==>
        && fetched[k][0] == IntValue(r.value[k].id) && fetched[k][1] == IntValue(r.value[k].parent)
        && fetched[k][2] == TextValue(r.value[k].title) && fetched[k][3] == TextValue(r.value[k].description)
  {
    CategoryColumnNames();
    var ds := CategoryDicts(fetched);
    AllCategoriesAt(ds);
    if AllCategories(ds).Success? {
      forall k | 0 <= k < |fetched|
        ensures var c := AllCategories(ds).value[k];
          && fetched[k][0] == IntValue(c.id) && fetched[k][1] == IntValue(c.parent)
          && fetched[k][2] == TextValue(c.title) && fetched[k][3] == TextValue(c.description)
      {
        assert ds[k] == RecordDictOf(ColumnNames(CategoryColumns()), fetched[k]);
        CategoryRowCells(fetched[k]);
      }
    }
  }

  lemma CategoryRowCells(row: Record)
    requires |row| >= 4 && CategoryFromDict(RecordDictOf(ColumnNames(CategoryColumns()), row)).Success?
    ensures var c := CategoryFromDict(RecordDictOf(ColumnNames(CategoryColumns()), row)).value;
      row[0] == IntValue(c.id) && row[1] == IntValue(c.parent) && row[2] == TextValue(c.title) && row[3] == TextValue(c.description)
  {
    CategoryRowGets(row);
  }

  /** The dictionaries `DB.FetchAll`/`DB.FetchDate` build from EXPENSES or INCOMES tuples. */
  function TransactionDicts(fetched: seq<Record>): seq<RecordDict>
    requires RecordsFit(ColumnNames(TransactionColumns()), fetched)
  {
    seq(|fetched|, k requires 0 <= k < |fetched| => RecordDictOf(ColumnNames(TransactionColumns()), fetched[k]))
  }

  /** Dictionaries built tuple by tuple from the transaction columns are `TransactionDicts`. */
  lemma TransactionDictsAre(ds: seq<RecordDict>, fetched: seq<Record>)
    requires RecordsFit(ColumnNames(TransactionColumns()), fetched) && |ds| == |fetched|
    requires forall k :: 0 <= k < |fetched| ==> ds[k] == RecordDictOf(ColumnNames(TransactionColumns()), fetched[k])
    ensures ds == TransactionDicts(fetched)
  {
  }

  /** `Category.FetchAll`. */
  method FetchAllCategories(db: DB, fetched: seq<Record>) returns (r: Result<seq<Category>, Error>)
    requires db.Valid() && RecordsFit(ColumnNames(CategoryColumns()), fetched)
    modifies db`log
    ensures db.log == old(db.log) + [SelectQuery(TableCategories, ColumnNames(CategoryColumns()))]
    ensures r == AllCategories(CategoryDicts(fetched))
  {
    RegistryLookup(TableCategories);
    var ds := db.FetchAll(TableCategories, fetched);
    assert ds.Success?;
    assert ds.value == CategoryDicts(fetched);
    r := CategoriesFromDicts(ds.value);
  }

  /** `Expense.FetchAll` / `Income.FetchAll`. */
  method FetchAllTransactions(db: DB, kind: Kind, fetched: seq<Record>) returns (r: Result<seq<Transaction>, Error>)
    requires db.Valid() && RecordsFit(ColumnNames(TransactionColumns()), fetched)
    modifies db`log
    ensures db.log == old(db.log) + [SelectQuery(TableOf(kind), ColumnNames(TransactionColumns()))]
    ensures var ds := TransactionDicts(fetched);
      && (r.Success? <==> AllFields(ds).Success?)
      && (r.Failure? ==> r.error == AllFields(ds).error)
      && (r.Success? ==> |r.value| == |fetched| && forall k :: 0 <= k < |fetched| ==>
            fresh(r.value[k]) && Rebuilt(r.value[k], kind, AllFields(ds).value[k]))
  {
    LookupTransactions(TableOf(kind));
    var ds := db.FetchAll(TableOf(kind), fetched);
    TransactionDictsAre(ds.value, fetched);
    r := TransactionsFromDicts(kind, ds.value);
  }

  /** `Expense.FetchDateInterval` / `Income.FetchDateInterval`: the bounds reach the query as ISO text. */
  method FetchDateInterval(db: DB, kind: Kind, dateFrom: Date, dateTo: Date, fetched: seq<Record>)
    returns (r: Result<seq<Transaction>, Error>)
    requires ValidDate(dateFrom) && ValidDate(dateTo)
    requires db.Valid() && RecordsFit(ColumnNames(TransactionColumns()), fetched)
    modifies db`log
    ensures db.log == old(db.log) +
      [SelectBetweenQuery(TableOf(kind), ColumnNames(TransactionColumns()), DateText(dateFrom), DateText(dateTo))]
    ensures var ds := TransactionDicts(fetched);
      && (r.Success? <==> AllFields(ds).Success?)
      && (r.Failure? ==> r.error == AllFields(ds).error)
      && (r.Success? ==> |r.value| == |fetched| && forall k :: 0 <= k < |fetched| ==>
            fresh(r.value[k]) && Rebuilt(r.value[k], kind, AllFields(ds).value[k]))
  {
    LookupTransactions(TableOf(kind));
    var ds := db.FetchDate(TableOf(kind), DateText(dateFrom), DateText(dateTo), fetched);
    TransactionDictsAre(ds.value, fetched);
    r := TransactionsFromDicts(kind, ds.value);
  }
}
