/**
 * The reports of `src/utils.py`: the indented category tree, the balance of
 * a date interval, and the month and year intervals the balance commands
 * ask for. Printing is left to the caller: the tree is the sequence of lines
 * it would print, a balance is the three totals it would print, and the
 * current date is a parameter.
 */
module Reports {
  import opened Wrappers
  import opened Text
  import opened Schema
  import opened Store
  import opened Calendar
  import opened Records

  // ---------------------------------------------------------------------
  // Category tree

  /** One printed line of the tree: a category and the depth it is printed at. */
  datatype Entry = Entry(depth: int, category: Category)

  /** The categories whose parent is `parentId`, in input order. */
  function Children(cats: seq<Category>, parentId: int): (children: seq<Category>)
    ensures |children| <= |cats|
    ensures forall c :: c in children <==> c in cats && c.parent == parentId
  {
    if cats == [] then []
    else if cats[|cats| - 1].parent == parentId then Children(cats[..|cats| - 1], parentId) + [cats[|cats| - 1]]
    else Children(cats[..|cats| - 1], parentId)
  }

  /** Selecting children keeps input order: the children of a concatenation are those of each part, in turn. */
  lemma {:induction false} ChildrenAppend(a: seq<Category>, b: seq<Category>, parentId: int)
    ensures Children(a + b, parentId) == Children(a, parentId) + Children(b, parentId)
    decreases |b|
  {
    if b == [] {
      assert a + b == a;
    } else {
      var n := |b| - 1;
      assert (a + b)[..|a + b| - 1] == a + b[..n];
      assert (a + b)[|a + b| - 1] == b[n];
      ChildrenAppend(a, b[..n], parentId);
    }
  }

  /**
   * `print_categories_tree(cats, parentId, depth, maxDepth)`: below the depth
   * cap, each child of `parentId` in turn, followed by its own subtree one
   * level deeper. The cap alone guarantees termination, whatever the parent
   * links (cycles included).
   */
  function Walk(cats: seq<Category>, parentId: int, depth: int, maxDepth: int): seq<Entry>
    decreases maxDepth - depth, 1, 0
  {
    if maxDepth > depth then WalkSiblings(cats, Children(cats, parentId), depth, maxDepth) else []
  }

  /** The loop over the children of one parent. */
  function WalkSiblings(cats: seq<Category>, siblings: seq<Category>, depth: int, maxDepth: int): seq<Entry>
    requires depth < maxDepth
    decreases maxDepth - depth, 0, |siblings|
  {
    if siblings == [] then []
    else
      [Entry(depth, siblings[0])] + Walk(cats, siblings[0].id, depth + 1, maxDepth)
      + WalkSiblings(cats, siblings[1..], depth, maxDepth)
  }

  /** `'\t' * depth`: no tab at all for a depth of zero or less. */
  function Tabs(depth: int): (s: string)
    ensures |s| == (if depth > 0 then depth else 0) && forall k :: 0 <= k < |s| ==> s[k] == '\t'
  {
    if depth > 0 then Repeat('\t', depth) else ""
  }

  /** The text printed for one entry. */
  function Line(e: Entry): string
  {
    Tabs(e.depth) + TreeLabel(e.category)
  }

  /** The lines `print_categories_tree` prints, in order. */
  function TreeLines(cats: seq<Category>, parentId: int, depth: int, maxDepth: int): (lines: seq<string>)
    ensures |lines| == |Walk(cats, parentId, depth, maxDepth)|
  {
    var es := Walk(cats, parentId, depth, maxDepth);
    seq(|es|, k requires 0 <= k < |es| => Line(es[k]))
  }

  /** The number of tabs a line starts with. */
  function LeadingTabs(s: string): nat
  {
    if s != [] && s[0] == '\t' then 1 + LeadingTabs(s[1..]) else 0
  }

  /** The shape of a pre-order listing: each entry is at most one level deeper than the one before, and one level deeper only as its child. */
  ghost predicate Adjacent(es: seq<Entry>)
  {
    forall i :: 0 < i < |es| ==>
      es[i].depth <= es[i - 1].depth + 1 &&
      (es[i].depth == es[i - 1].depth + 1 ==> es[i].category.parent == es[i - 1].category.id)
  }

  /** Every entry is one of the categories, printed at a depth in `[depth, maxDepth)`, and the first is a child of `parentId` at `depth`. */
  ghost predicate Shaped(cats: seq<Category>, es: seq<Entry>, parentId: int, depth: int, maxDepth: int)
  {
    && (forall e :: e in es ==> depth <= e.depth < maxDepth && e.category in cats)
    && (es != [] ==> es[0].depth == depth && es[0].category.parent == parentId)
    && Adjacent(es)
  }

  lemma AdjacentJoin(a: seq<Entry>, b: seq<Entry>)
    requires Adjacent(a) && Adjacent(b)
    requires a != [] && b != [] ==>
      b[0].depth <= a[|a| - 1].depth + 1 &&
      (b[0].depth == a[|a| - 1].depth + 1 ==> b[0].category.parent == a[|a| - 1].category.id)
    ensures Adjacent(a + b)
  {
    var ab := a + b;
    forall i | 0 < i < |ab|
      ensures ab[i].depth <= ab[i - 1].depth + 1 &&
        (ab[i].depth == ab[i - 1].depth + 1 ==> ab[i].category.parent == ab[i - 1].category.id)
    {
      if i < |a| {
        assert ab[i] == a[i] && ab[i - 1] == a[i - 1];
      } else if i > |a| {
        assert ab[i] == b[i - |a|] && ab[i - 1] == b[i - 1 - |a|];
      }
    }
  }

  /** The walk prints only categories from the list, below the cap, each line at most one level deeper than the one before. */
  lemma {:induction false} WalkShape(cats: seq<Category>, parentId: int, depth: int, maxDepth: int)
    ensures Shaped(cats, Walk(cats, parentId, depth, maxDepth), parentId, depth, maxDepth)
    decreases maxDepth - depth, 1, 0
  {
    if maxDepth > depth {
      SiblingsShape(cats, Children(cats, parentId), parentId, depth, maxDepth);
    }
  }

  lemma {:induction false} SiblingsShape(cats: seq<Category>, siblings: seq<Category>, parentId: int, depth: int, maxDepth: int)
    requires depth < maxDepth
    requires forall c :: c in siblings ==> c in cats && c.parent == parentId
    ensures Shaped(cats, WalkSiblings(cats, siblings, depth, maxDepth), parentId, depth, maxDepth)
    decreases maxDepth - depth, 0, |siblings|
  {
    if siblings != [] {
      var c := siblings[0];
      var head := [Entry(depth, c)];
      var sub := Walk(cats, c.id, depth + 1, maxDepth);
      var rest := WalkSiblings(cats, siblings[1..], depth, maxDepth);
      WalkShape(cats, c.id, depth + 1, maxDepth);
      SiblingsShape(cats, siblings[1..], parentId, depth, maxDepth);
      AdjacentJoin(head, sub);
      if sub != [] {
        assert sub[|sub| - 1] in sub;
      }
      AdjacentJoin(head + sub, rest);
      assert WalkSiblings(cats, siblings, depth, maxDepth) == head + sub + rest;
    }
  }

  /** Every entry of `es` is followed at once by `sub` of that entry. */
  ghost predicate Followed(es: seq<Entry>, sub: Entry -> seq<Entry>)
  {
    forall i :: 0 <= i < |es| ==> i + 1 + |sub(es[i])| <= |es| && es[i + 1..i + 1 + |sub(es[i])|] == sub(es[i])
  }

  /** The walk below an entry: its category's children one level deeper. */
  ghost function Subtree(cats: seq<Category>, maxDepth: int): Entry -> seq<Entry>
  {
    (e: Entry) => Walk(cats, e.category.id, e.depth + 1, maxDepth)
  }

  lemma FollowedAppend(a: seq<Entry>, b: seq<Entry>, sub: Entry -> seq<Entry>)
    requires Followed(a, sub) && Followed(b, sub)
    ensures Followed(a + b, sub)
  {
    var ab := a + b;
    forall i | 0 <= i < |ab|
      ensures i + 1 + |sub(ab[i])| <= |ab| && ab[i + 1..i + 1 + |sub(ab[i])|] == sub(ab[i])
    {
      if i < |a| {
        assert ab[i] == a[i];
        assert ab[i + 1..i + 1 + |sub(a[i])|] == a[i + 1..i + 1 + |sub(a[i])|];
      } else {
        var j := i - |a|;
        assert ab[i] == b[j];
        assert ab[i + 1..i + 1 + |sub(b[j])|] == b[j + 1..j + 1 + |sub(b[j])|];
      }
    }
  }

  /** An entry followed by its own `sub` keeps the property. */
  lemma FollowedHead(e: Entry, sub: Entry -> seq<Entry>)
    requires Followed(sub(e), sub)
    ensures Followed([e] + sub(e), sub)
  {
    var es := [e] + sub(e);
    forall i | 0 <= i < |es|
      ensures i + 1 + |sub(es[i])| <= |es| && es[i + 1..i + 1 + |sub(es[i])|] == sub(es[i])
    {
      if i == 0 {
        assert es[1..1 + |sub(e)|] == sub(e);
      } else {
        var x := sub(e)[i - 1];
        assert es[i] == x;
        assert es[i + 1..i + 1 + |sub(x)|] == sub(e)[i..i + |sub(x)|];
      }
    }
  }

  /**
   * The walk is complete: each printed category is followed immediately by
   * the walk of its own children one level deeper (which `TopLevelIsChildren`
   * says are exactly its children, in input order), so the output is the
   * pre-order of the tree below `parentId`, cut at the depth cap.
   */
  lemma {:induction false} WalkSubtrees(cats: seq<Category>, parentId: int, depth: int, maxDepth: int)
    ensures Followed(Walk(cats, parentId, depth, maxDepth), Subtree(cats, maxDepth))
    decreases maxDepth - depth, 1, 0
  {
    if maxDepth > depth {
      SiblingsSubtrees(cats, Children(cats, parentId), depth, maxDepth);
    }
  }

  lemma {:induction false} SiblingsSubtrees(cats: seq<Category>, siblings: seq<Category>, depth: int, maxDepth: int)
    requires depth < maxDepth
    ensures Followed(WalkSiblings(cats, siblings, depth, maxDepth), Subtree(cats, maxDepth))
    decreases maxDepth - depth, 0, |siblings|
  {
    if siblings != [] {
      var c := siblings[0];
      var f := Subtree(cats, maxDepth);
      var sub := Walk(cats, c.id, depth + 1, maxDepth);
      var rest := WalkSiblings(cats, siblings[1..], depth, maxDepth);
      assert f(Entry(depth, c)) == sub;
      WalkSubtrees(cats, c.id, depth + 1, maxDepth);
      SiblingsSubtrees(cats, siblings[1..], depth, maxDepth);
      FollowedHead(Entry(depth, c), f);
      FollowedAppend([Entry(depth, c)] + sub, rest, f);
      assert WalkSiblings(cats, siblings, depth, maxDepth) == [Entry(depth, c)] + sub + rest;
    }
  }

  /** The categories printed at a given depth, in order. */
  function AtDepth(es: seq<Entry>, d: int): (cs: seq<Category>)
    ensures |cs| <= |es|
  {
    if es == [] then []
    else if es[|es| - 1].depth == d then AtDepth(es[..|es| - 1], d) + [es[|es| - 1].category]
    else AtDepth(es[..|es| - 1], d)
  }

  lemma {:induction false} AtDepthAppend(a: seq<Entry>, b: seq<Entry>, d: int)
    ensures AtDepth(a + b, d) == AtDepth(a, d) + AtDepth(b, d)
    decreases |b|
  {
    if b == [] {
      assert a + b == a;
    } else {
      assert (a + b)[..|a + b| - 1] == a + b[..|b| - 1];
      AtDepthAppend(a, b[..|b| - 1], d);
    }
  }

  lemma {:induction false} AtDepthNone(es: seq<Entry>, d: int)
    requires forall e :: e in es ==> e.depth != d
    ensures AtDepth(es, d) == []
    decreases |es|
  {
    if es != [] {
      assert es[|es| - 1] in es;
      AtDepthNone(es[..|es| - 1], d);
    }
  }

  /** The lines printed at the starting depth are exactly the children of `parentId`, in input order. */
  lemma TopLevelIsChildren(cats: seq<Category>, parentId: int, depth: int, maxDepth: int)
    requires depth < maxDepth
    ensures AtDepth(Walk(cats, parentId, depth, maxDepth), depth) == Children(cats, parentId)
  {
    SiblingsTopLevel(cats, Children(cats, parentId), depth, maxDepth);
  }

  lemma {:induction false} SiblingsTopLevel(cats: seq<Category>, siblings: seq<Category>, depth: int, maxDepth: int)
    requires depth < maxDepth
    ensures AtDepth(WalkSiblings(cats, siblings, depth, maxDepth), depth) == siblings
    decreases |siblings|
  {
    if siblings != [] {
      var c := siblings[0];
      var head := [Entry(depth, c)];
      var sub := Walk(cats, c.id, depth + 1, maxDepth);
      var rest := WalkSiblings(cats, siblings[1..], depth, maxDepth);
      WalkShape(cats, c.id, depth + 1, maxDepth);
      AtDepthNone(sub, depth);
      SiblingsTopLevel(cats, siblings[1..], depth, maxDepth);
      AtDepthAppend(head, sub, depth);
      AtDepthAppend(head + sub, rest, depth);
      assert AtDepth(head, depth) == [c] by {
        assert head[..0] == [];
      }
      assert WalkSiblings(cats, siblings, depth, maxDepth) == head + sub + rest;
      assert siblings == [c] + siblings[1..];
    }
  }

  /**
   * Pre-order, completely: right after any printed category come the lines
   * of its own subtree, and the ones among them one level deeper are exactly
   * its children, in input order, unless the cap stops the walk there.
   */
  lemma ChildrenFollow(cats: seq<Category>, parentId: int, depth: int, maxDepth: int, i: nat)
    requires i < |Walk(cats, parentId, depth, maxDepth)|
    ensures var es := Walk(cats, parentId, depth, maxDepth);
      var e := es[i];
      var sub := Walk(cats, e.category.id, e.depth + 1, maxDepth);
      && i + 1 + |sub| <= |es| && es[i + 1..i + 1 + |sub|] == sub
      && (e.depth + 1 < maxDepth ==> AtDepth(sub, e.depth + 1) == Children(cats, e.category.id))
  {
    var es := Walk(cats, parentId, depth, maxDepth);
    WalkSubtrees(cats, parentId, depth, maxDepth);
    assert Subtree(cats, maxDepth)(es[i]) == Walk(cats, es[i].category.id, es[i].depth + 1, maxDepth);
    if es[i].depth + 1 < maxDepth {
      TopLevelIsChildren(cats, es[i].category.id, es[i].depth + 1, maxDepth);
    }
  }

  lemma {:induction false} LeadingTabsAppend(t: string, s: string)
    requires forall k :: 0 <= k < |t| ==> t[k] == '\t'
    requires s == [] || s[0] != '\t'
    ensures LeadingTabs(t + s) == |t|
    decreases |t|
  {
    if t == [] {
      assert t + s == s;
    } else {
      assert (t + s)[1..] == t[1..] + s;
      LeadingTabsAppend(t[1..], s);
    }
  }

  /** Each printed line is `depth` tabs, then the TREE label; so no line has `maxDepth` tabs or more. */
  lemma TreeLinesIndent(cats: seq<Category>, parentId: int, depth: int, maxDepth: int, k: nat)
    requires 0 <= depth && k < |TreeLines(cats, parentId, depth, maxDepth)|
    ensures var e := Walk(cats, parentId, depth, maxDepth)[k];
      var line := TreeLines(cats, parentId, depth, maxDepth)[k];
      && line == Tabs(e.depth) + TreeLabel(e.category)
      && LeadingTabs(line) == e.depth < maxDepth
  {
    var es := Walk(cats, parentId, depth, maxDepth);
    WalkShape(cats, parentId, depth, maxDepth);
    assert es[k] in es;
    TreeLabelId(es[k].category);
    LeadingTabsAppend(Tabs(es[k].depth), TreeLabel(es[k].category));
  }

  /** A category that is its own parent is printed once per level until the cap. */
  lemma {:induction false} SelfLoopRepeats(c: Category, depth: int, maxDepth: int)
    requires c.parent == c.id
    ensures |Walk([c], c.id, depth, maxDepth)| == if maxDepth > depth then maxDepth - depth else 0
    decreases maxDepth - depth
  {
    if maxDepth > depth {
      assert Children([c], c.id) == [c];
      SelfLoopRepeats(c, depth + 1, maxDepth);
      assert WalkSiblings([c], [c], depth, maxDepth)
        == [Entry(depth, c)] + Walk([c], c.id, depth + 1, maxDepth) + WalkSiblings([c], [], depth, maxDepth);
    }
  }

  /** One root category, given id 1 by the engine, prints as a single unindented line. */
  lemma SingleRootCategory()
    ensures TreeLines([Category(0, "Food", "Groceries", 1)], 0, 0, 10) == ["1 | Food (Groceries)"]
  {
    var c := Category(0, "Food", "Groceries", 1);
    assert Children([c], 0) == [c];
    assert Children([c], 1) == [] by {
      assert [c][..0] == [];
    }
    assert Walk([c], 1, 1, 10) == [];
    assert WalkSiblings([c], [], 0, 10) == [];
    assert Walk([c], 0, 0, 10) == [Entry(0, c)];
    assert IntToString(1) == "1";
    assert TreeLabel(c) == "1 | Food (Groceries)";
    assert Line(Entry(0, c)) == "" + "1 | Food (Groceries)";
    var lines := TreeLines([c], 0, 0, 10);
    assert |lines| == 1 && lines[0] == Line(Entry(0, c));
    assert lines[0] == "1 | Food (Groceries)";
    assert lines == ["1 | Food (Groceries)"];
  }

  // ---------------------------------------------------------------------
  // Balance

  /** The three figures `balance` prints, in hundredths. */
  datatype Totals = Totals(expenses: int, incomes: int, balance: int)

  /** Sum of the amounts of a sequence of transactions. */
  function Sum(ts: seq<Transaction>): int
  {
    if ts == [] then 0 else Sum(ts[..|ts| - 1]) + ts[|ts| - 1].amount
  }

  /** Sum of the amounts of a sequence of rebuilt fields. */
  function SumFields(fs: seq<TransactionFields>): int
  {
    if fs == [] then 0 else SumFields(fs[..|fs| - 1]) + fs[|fs| - 1].amount
  }

  /** Sum of the AMOUNT cells (the third) of fetched EXPENSES or INCOMES tuples; a cell of another type counts 0. */
  function AmountColumn(rows: seq<Record>): int
    requires forall k :: 0 <= k < |rows| ==> |rows[k]| > 2
  {
    if rows == [] then 0
    else AmountColumn(rows[..|rows| - 1]) + (if rows[|rows| - 1][2].RealValue? then rows[|rows| - 1][2].hundredths else 0)
  }

  /** Summing is additive over concatenation. */
  lemma {:induction false} SumAppend(a: seq<Transaction>, b: seq<Transaction>)
    ensures Sum(a + b) == Sum(a) + Sum(b)
    decreases |b|
  {
    if b == [] {
      assert a + b == a;
    } else {
      assert (a + b)[..|a + b| - 1] == a + b[..|b| - 1];
      SumAppend(a, b[..|b| - 1]);
    }
  }

  /** Transactions carrying the rebuilt amounts sum to the same total. */
  lemma {:induction false} SumMatches(ts: seq<Transaction>, fs: seq<TransactionFields>)
    requires |ts| == |fs| && forall k :: 0 <= k < |ts| ==> ts[k].amount == fs[k].amount
    ensures Sum(ts) == SumFields(fs)
    decreases |ts|
  {
    if ts != [] {
      SumMatches(ts[..|ts| - 1], fs[..|fs| - 1]);
    }
  }

  /** The dictionaries of a prefix of the tuples are the prefix of the dictionaries. */
  lemma TransactionDictsPrefix(rows: seq<Record>, n: nat)
    requires RecordsFit(ColumnNames(TransactionColumns()), rows) && n <= |rows|
    ensures RecordsFit(ColumnNames(TransactionColumns()), rows[..n])
    ensures TransactionDicts(rows[..n]) == TransactionDicts(rows)[..n]
  {
  }

  /** The last fetched tuple adds its AMOUNT cell to the sum of the rebuilt amounts. */
  lemma SumFieldsStep(rows: seq<Record>)
    requires rows != [] && RecordsFit(ColumnNames(TransactionColumns()), rows)
    requires AllFields(TransactionDicts(rows)).Success?
    ensures RecordsFit(ColumnNames(TransactionColumns()), rows[..|rows| - 1])
    ensures AllFields(TransactionDicts(rows[..|rows| - 1])).Success?
    ensures rows[|rows| - 1][2].RealValue?
    ensures SumFields(AllFields(TransactionDicts(rows)).value)
      == SumFields(AllFields(TransactionDicts(rows[..|rows| - 1])).value) + rows[|rows| - 1][2].hundredths
  {
    TransactionColumnNames();
    var n := |rows| - 1;
    var ds := TransactionDicts(rows);
    TransactionDictsPrefix(rows, n);
    RebuildAllSnoc(ds, FieldsFromDict);
    var fs := AllFields(ds).value;
    assert fs[..n] == AllFields(ds[..n]).value;
    assert fs[n] == FieldsFromDict(ds[n]).value;
    RowAmount(rows[n]);
  }

  /** When every fetched tuple rebuilds, the rebuilt amounts sum to the AMOUNT column. */
  lemma {:induction false} FieldsSumIsAmountColumn(rows: seq<Record>)
    requires RecordsFit(ColumnNames(TransactionColumns()), rows)
    requires AllFields(TransactionDicts(rows)).Success?
    ensures |ColumnNames(TransactionColumns())| == 6
    ensures SumFields(AllFields(TransactionDicts(rows)).value) == AmountColumn(rows)
    decreases |rows|
  {
    TransactionColumnNames();
    if rows != [] {
      SumFieldsStep(rows);
      FieldsSumIsAmountColumn(rows[..|rows| - 1]);
    }
  }

  /** Transactions carrying the rebuilt amounts of the fetched tuples sum to the AMOUNT column. */
  lemma FetchedSum(ts: seq<Transaction>, rows: seq<Record>)
    requires RecordsFit(ColumnNames(TransactionColumns()), rows)
    requires AllFields(TransactionDicts(rows)).Success? && |ts| == |rows|
    requires forall k :: 0 <= k < |rows| ==> ts[k].amount == AllFields(TransactionDicts(rows)).value[k].amount
    ensures |ColumnNames(TransactionColumns())| == 6
    ensures Sum(ts) == AmountColumn(rows)
  {
    SumMatches(ts, AllFields(TransactionDicts(rows)).value);
    FieldsSumIsAmountColumn(rows);
  }

  /** The two loops of `balance`: one running sum per list, then their difference. */
  method ComputeTotals(expenses: seq<Transaction>, incomes: seq<Transaction>) returns (t: Totals)
    ensures t.expenses == Sum(expenses) && t.incomes == Sum(incomes)
    ensures t.balance == t.incomes - t.expenses
  {
    var expSum := 0;
    for i := 0 to |expenses|
      invariant expSum == Sum(expenses[..i])
    {
      assert expenses[..i + 1][..i] == expenses[..i];
      expSum := expSum + expenses[i].amount;
    }
    assert expenses[..|expenses|] == expenses;
    var incSum := 0;
    for i := 0 to |incomes|
      invariant incSum == Sum(incomes[..i])
    {
      assert incomes[..i + 1][..i] == incomes[..i];
      incSum := incSum + incomes[i].amount;
    }
    assert incomes[..|incomes|] == incomes;
    t := Totals(expSum, incSum, incSum - expSum);
  }

  /** A failure of the balance commands. */
  datatype ReportError =
    | YearOutOfRange(year: int)  // the shifted date would fall before year 1
    | FetchFailed(cause: Error)  // a fetched row could not be rebuilt

  /**
   * The statements `balance(date_from, date_to)` sends: the EXPENSES SELECT
   * over the interval, then the INCOMES one unless rebuilding the expenses
   * failed first.
   */
  function BalanceQueries(dateFrom: Date, dateTo: Date, expenseRows: seq<Record>): seq<string>
    requires ValidDate(dateFrom) && ValidDate(dateTo)
    requires RecordsFit(ColumnNames(TransactionColumns()), expenseRows)
  {
    var columns := ColumnNames(TransactionColumns());
    [SelectBetweenQuery(TableExpenses, columns, DateText(dateFrom), DateText(dateTo))]
      + if AllFields(TransactionDicts(expenseRows)).Success?
        then [SelectBetweenQuery(TableIncomes, columns, DateText(dateFrom), DateText(dateTo))]
        else []
  }

  /**
   * `balance(date_from, date_to)`: fetch the expenses, then the incomes, of
   * the interval and total them. The tuples the engine returns for the two
   * queries are parameters.
   */
  method Balance(db: DB, dateFrom: Date, dateTo: Date, expenseRows: seq<Record>, incomeRows: seq<Record>)
    returns (r: Result<Totals, ReportError>)
    requires ValidDate(dateFrom) && ValidDate(dateTo) && db.Valid()
    requires RecordsFit(ColumnNames(TransactionColumns()), expenseRows)
    requires RecordsFit(ColumnNames(TransactionColumns()), incomeRows)
    modifies db`log
    ensures db.log == old(db.log) + BalanceQueries(dateFrom, dateTo, expenseRows)
    ensures var exps, incs := AllFields(TransactionDicts(expenseRows)), AllFields(TransactionDicts(incomeRows));
      && (r.Success? <==> exps.Success? && incs.Success?)
      && (r.Failure? ==> r.error == FetchFailed(if exps.Failure? then exps.error else incs.error))
      && (r.Success? ==> r.value == Totals(AmountColumn(expenseRows), AmountColumn(incomeRows),
            AmountColumn(incomeRows) - AmountColumn(expenseRows)))
  {
    var exps := FetchDateInterval(db, Records.Expenses, dateFrom, dateTo, expenseRows);
    if exps.Failure? {
      return Failure(FetchFailed(exps.error));
    }
    var incs := FetchDateInterval(db, Records.Incomes, dateFrom, dateTo, incomeRows);
    if incs.Failure? {
      return Failure(FetchFailed(incs.error));
    }
    var t := ComputeTotals(exps.value, incs.value);
    FetchedSum(exps.value, expenseRows);
    FetchedSum(incs.value, incomeRows);
    r := Success(t);
  }

  // ---------------------------------------------------------------------
  // Month and year intervals

  /** A closed interval of dates. */
  datatype Range = Range(from: Date, to: Date)

  function Abs(r: int): nat
  {
    if r < 0 then -r else r
  }

  /**
   * `balance_month(r)`'s interval: the whole month lying `|r|` months before
   * the month of `today`. Python's `date` refuses a year below 1.
   */
  function MonthRange(today: Date, r: int): (result: Result<Range, ReportError>)
    requires ValidDate(today)
    ensures result.Success? <==> MonthIndex(today.year, today.month) - Abs(r) >= MonthIndex(MinYear, 1)
    ensures result.Success? ==>
      var rg := result.value;
      && ValidDate(rg.from) && ValidDate(rg.to)
      && rg.from.year == rg.to.year && rg.from.month == rg.to.month
      && MonthIndex(rg.from.year, rg.from.month) == MonthIndex(today.year, today.month) - Abs(r)
      && rg.from.day == 1 && rg.to.day == DaysInMonth(rg.to.year, rg.to.month)
      && !Before(rg.to, rg.from)
  {
    var (y, m) := ShiftMonthsBack(today.year, today.month, Abs(r));
    if y < MinYear then Failure(YearOutOfRange(y))
    else Success(Range(Date(y, m, 1), Date(y, m, DaysInMonth(y, m))))
  }

  /** The month interval holds exactly the days of its month. */
  lemma MonthRangeCovers(today: Date, r: int, d: Date)
    requires ValidDate(today) && ValidDate(d) && MonthRange(today, r).Success?
    ensures var rg := MonthRange(today, r).value;
      InRange(d, rg.from, rg.to) <==> d.year == rg.from.year && d.month == rg.from.month
  {
  }

  /** `balance_month(r)` and `balance_month(-r)` ask for the same month. */
  lemma MonthRangeSymmetric(today: Date, r: int)
    requires ValidDate(today)
    ensures MonthRange(today, r) == MonthRange(today, -r)
  {
  }

  /** The current month of 15 March 2024 is March, 31 days. */
  lemma MonthRangeCurrent()
    ensures MonthRange(Date(2024, 3, 15), 0) == Success(Range(Date(2024, 3, 1), Date(2024, 3, 31)))
  {
    assert ShiftMonthsBack(2024, 3, 0) == (2024, 3);
  }

  /** One month back from 15 March 2024 is February of a leap year, 29 days. */
  lemma MonthRangeLeapFebruary()
    ensures MonthRange(Date(2024, 3, 15), -1) == Success(Range(Date(2024, 2, 1), Date(2024, 2, 29)))
  {
    assert ShiftMonthsBack(2024, 3, 1) == (2024, 2);
    assert IsLeapYear(2024);
  }

  /** Fourteen months back from 15 March 2024 borrows a year: January 2023. */
  lemma MonthRangeBorrow()
    ensures MonthRange(Date(2024, 3, 15), -14) == Success(Range(Date(2023, 1, 1), Date(2023, 1, 31)))
  {
    assert ShiftMonthsBack(2024, 3, 14) == (2023, 1);
  }

  /** Three months back from March of year 1 falls in year 0, which `date` refuses. */
  lemma MonthRangeBeforeYearOne()
    ensures MonthRange(Date(1, 3, 15), 3) == Failure(YearOutOfRange(0))
  {
    assert ShiftMonthsBack(1, 3, 3) == (0, 12);
  }

  /**
   * `balance_year(r)`'s interval: from 1 January of this year to today when
   * `r` is 0, otherwise the whole year `|r|` years back.
   */
  function YearRange(today: Date, r: int): (result: Result<Range, ReportError>)
    requires ValidDate(today)
    ensures result.Success? <==> r == 0 || today.year - Abs(r) >= MinYear
    ensures result.Success? ==>
      var rg := result.value;
      && ValidDate(rg.from) && ValidDate(rg.to) && !Before(rg.to, rg.from)
      && rg.from == Date(rg.to.year, 1, 1)
      && (r == 0 ==> rg.to == today)
      && (r != 0 ==> rg.to == Date(today.year - Abs(r), 12, 31))
  {
    if r == 0 then Success(Range(Date(today.year, 1, 1), today))
    else
      var y := today.year - Abs(r);
      if y < MinYear then Failure(YearOutOfRange(y))
      else Success(Range(Date(y, 1, 1), Date(y, 12, 31)))
  }

  /** The year interval holds the days of its year up to today, or the whole year. */
  lemma YearRangeCovers(today: Date, r: int, d: Date)
    requires ValidDate(today) && ValidDate(d) && YearRange(today, r).Success?
    ensures var rg := YearRange(today, r).value;
      InRange(d, rg.from, rg.to) <==>
        d.year == today.year - Abs(r) && (r == 0 ==> !Before(today, d))
  {
  }

  /** From 15 March 2024: the year to date, and the whole previous year. */
  lemma YearRangeExamples()
    ensures YearRange(Date(2024, 3, 15), 0) == Success(Range(Date(2024, 1, 1), Date(2024, 3, 15)))
    ensures YearRange(Date(2024, 3, 15), -1) == Success(Range(Date(2023, 1, 1), Date(2023, 12, 31)))
    ensures YearRange(Date(2024, 3, 15), 2024) == Failure(YearOutOfRange(0))
  {
  }

  /** `balance_month(r)`. */
  method BalanceMonth(db: DB, today: Date, r: int, expenseRows: seq<Record>, incomeRows: seq<Record>)
    returns (result: Result<Totals, ReportError>)
    requires ValidDate(today) && db.Valid()
    requires RecordsFit(ColumnNames(TransactionColumns()), expenseRows)
    requires RecordsFit(ColumnNames(TransactionColumns()), incomeRows)
    modifies db`log
    ensures MonthRange(today, r).Failure? ==> result == Failure(MonthRange(today, r).error) && db.log == old(db.log)
    ensures MonthRange(today, r).Success? ==>
      var rg := MonthRange(today, r).value;
      var exps, incs := AllFields(TransactionDicts(expenseRows)), AllFields(TransactionDicts(incomeRows));
      && db.log == old(db.log) + BalanceQueries(rg.from, rg.to, expenseRows)
      && (result.Success? <==> exps.Success? && incs.Success?)
      && (result.Failure? ==> result.error == FetchFailed(if exps.Failure? then exps.error else incs.error))
    ensures result.Success? ==>
      && MonthRange(today, r).Success?
      && result.value.expenses == AmountColumn(expenseRows)
      && result.value.incomes == AmountColumn(incomeRows)
      && result.value.balance == AmountColumn(incomeRows) - AmountColumn(expenseRows)
  {
    var rg :- MonthRange(today, r);
    result := Balance(db, rg.from, rg.to, expenseRows, incomeRows);
  }

  /** `balance_year(r)`. */
  method BalanceYear(db: DB, today: Date, r: int, expenseRows: seq<Record>, incomeRows: seq<Record>)
    returns (result: Result<Totals, ReportError>)
    requires ValidDate(today) && db.Valid()
    requires RecordsFit(ColumnNames(TransactionColumns()), expenseRows)
    requires RecordsFit(ColumnNames(TransactionColumns()), incomeRows)
    modifies db`log
    ensures YearRange(today, r).Failure? ==> result == Failure(YearRange(today, r).error) && db.log == old(db.log)
    ensures YearRange(today, r).Success? ==>
      var rg := YearRange(today, r).value;
      var exps, incs := AllFields(TransactionDicts(expenseRows)), AllFields(TransactionDicts(incomeRows));
      && db.log == old(db.log) + BalanceQueries(rg.from, rg.to, expenseRows)
      && (result.Success? <==> exps.Success? && incs.Success?)
      && (result.Failure? ==> result.error == FetchFailed(if exps.Failure? then exps.error else incs.error))
    ensures result.Success? ==>
      && YearRange(today, r).Success?
      && result.value.expenses == AmountColumn(expenseRows)
      && result.value.incomes == AmountColumn(incomeRows)
      && result.value.balance == AmountColumn(incomeRows) - AmountColumn(expenseRows)
  {
    var rg :- YearRange(today, r);
    result := Balance(db, rg.from, rg.to, expenseRows, incomeRows);
  }
}
