/** The dashboard (components/Dashboard.tsx): income and expense totals, the
    low-stock count and the expense-by-category chart data. */
module Dashboard {
  import opened Collections
  import opened Types
  import opened Inventory

  function TransactionsOf(kind: TransactionType, transactions: seq<Transaction>): seq<Transaction>
  {
    Filter((t: Transaction) => t.kind == kind, transactions)
  }

  function Amount(t: Transaction): int
  {
    t.amount
  }

  /** `filter(t => t.type === kind).reduce((acc, t) => acc + t.amount, 0)`, in cents. */
  function TotalOf(kind: TransactionType, transactions: seq<Transaction>): int
  {
    Sum(Amount, TransactionsOf(kind, transactions))
  }

  /** totalIncome. */
  function TotalIncome(transactions: seq<Transaction>): int
  {
    TotalOf(Income, transactions)
  }

  /** totalExpense. */
  function TotalExpense(transactions: seq<Transaction>): int
  {
    TotalOf(Expense, transactions)
  }

  /** Every transaction is counted in exactly one of the two totals. */
  lemma {:induction false} TotalsSplitAll(transactions: seq<Transaction>)
    ensures TotalIncome(transactions) + TotalExpense(transactions) == Sum(Amount, transactions)
    decreases |transactions|
  {
    if transactions != [] {
      var t, rest := transactions[0], transactions[1..];
      TotalsSplitAll(rest);
      assert transactions == [t] + rest;
      assert TransactionsOf(Income, transactions) == (if t.kind == Income then [t] else []) + TransactionsOf(Income, rest);
      assert TransactionsOf(Expense, transactions) == (if t.kind == Expense then [t] else []) + TransactionsOf(Expense, rest);
      SumAppend(Amount, if t.kind == Income then [t] else [], TransactionsOf(Income, rest));
      SumAppend(Amount, if t.kind == Expense then [t] else [], TransactionsOf(Expense, rest));
    }
  }

  /** The totals of a longer history add up part by part. */
  lemma TotalOfAppend(kind: TransactionType, a: seq<Transaction>, b: seq<Transaction>)
    ensures TotalOf(kind, a + b) == TotalOf(kind, a) + TotalOf(kind, b)
  {
    FilterAppend((t: Transaction) => t.kind == kind, a, b);
    SumAppend(Amount, TransactionsOf(kind, a), TransactionsOf(kind, b));
  }

  /** lowStockItems. */
  function LowStockItems(inventory: seq<InventoryItem>): (r: seq<InventoryItem>)
    ensures forall x :: x in r <==> x in inventory && x.quantity <= x.lowStockThreshold
  {
    Filter(IsLowStock, inventory)
  }

  /** The dashboard's low-stock items are exactly the items of the inventory
      screen's shopping list, in the same order. */
  lemma LowStockMatchesShoppingList(inventory: seq<InventoryItem>)
    ensures LowStockItems(inventory) == LineItems(ShoppingList(inventory))
  {
    ShoppingListIsLowStock(inventory);
  }

  /** The chart label of a transaction: its category's name, or "Uncategorized"
      when no category has its id. */
  function CategoryName(t: Transaction, categories: seq<FinanceCategory>): string
  {
    match Find((c: FinanceCategory) => c.categoryId == t.categoryId, categories)
    case None => "Uncategorized"
    case Some(c) => c.name
  }

  /** The label is the name of the first category with the transaction's id,
      and "Uncategorized" when there is none. */
  lemma CategoryNameIsFirstMatch(t: Transaction, categories: seq<FinanceCategory>)
    ensures (forall c :: c in categories ==> c.categoryId != t.categoryId) ==> CategoryName(t, categories) == "Uncategorized"
    ensures forall i :: (0 <= i < |categories| && categories[i].categoryId == t.categoryId
                         && (forall j :: 0 <= j < i ==> categories[j].categoryId != t.categoryId))
                         ==> CategoryName(t, categories) == categories[i].name
  {
    var f := FindIndex((c: FinanceCategory) => c.categoryId == t.categoryId, categories);
    forall i | 0 <= i < |categories| && categories[i].categoryId == t.categoryId
      && (forall j :: 0 <= j < i ==> categories[j].categoryId != t.categoryId)
      ensures CategoryName(t, categories) == categories[i].name
    {
      assert f.Some?;
      assert f.value == i by {
        assert !(f.value < i);
        assert !(i < f.value);
      }
    }
  }

  /** The labelling the chart uses. */
  function ByCategory(categories: seq<FinanceCategory>): Transaction -> string
  {
    (t: Transaction) => CategoryName(t, categories)
  }

  /** One bar of the chart; the value is in currency units (`amount / 100`). */
  datatype ExpenseEntry = ExpenseEntry(name: string, expense: real)

  function Units(t: Transaction): real
  {
    t.amount as real / 100.0
  }

  function EntryName(e: ExpenseEntry): string
  {
    e.name
  }

  function EntryExpense(e: ExpenseEntry): real
  {
    e.expense
  }

  /** `acc.find(item => item.name === name)`, as a position. */
  function EntryIndex(acc: seq<ExpenseEntry>, name: string): (r: Option<nat>)
    ensures r.None? <==> forall k :: 0 <= k < |acc| ==> acc[k].name != name
    ensures r.Some? ==> r.value < |acc| && acc[r.value].name == name
  {
    FindIndex((e: ExpenseEntry) => e.name == name, acc)
  }

  /** One step of the reduce: add to the entry of that name, or push a new one. */
  function AddExpense(acc: seq<ExpenseEntry>, name: string, value: real): seq<ExpenseEntry>
  {
    match EntryIndex(acc, name)
    case Some(k) => acc[k := acc[k].(expense := acc[k].expense + value)]
    case None => acc + [ExpenseEntry(name, value)]
  }

  /** A label already charted: its entry's expense grows in place. */
  lemma AddToFound(acc: seq<ExpenseEntry>, name: string, value: real, k: nat)
    requires EntryIndex(acc, name) == Some(k)
    ensures k < |acc| && AddExpense(acc, name, value) == acc[k := acc[k].(expense := acc[k].expense + value)]
  {
  }

  /** A label not yet charted: a new entry is pushed at the end. */
  lemma AddToMissing(acc: seq<ExpenseEntry>, name: string, value: real)
    requires EntryIndex(acc, name).None?
    ensures AddExpense(acc, name, value) == acc + [ExpenseEntry(name, value)]
  {
  }

  /** The reduce over `expenses`, starting from `acc`. */
  function ExpenseFold(acc: seq<ExpenseEntry>, expenses: seq<Transaction>, labelOf: Transaction -> string): seq<ExpenseEntry>
    decreases |expenses|
  {
    if expenses == [] then acc
    else ExpenseFold(AddExpense(acc, labelOf(expenses[0]), Units(expenses[0])), expenses[1..], labelOf)
  }

  /** expenseData. */
  function ExpenseData(transactions: seq<Transaction>, categories: seq<FinanceCategory>): seq<ExpenseEntry>
  {
    ExpenseFold([], TransactionsOf(Expense, transactions), ByCategory(categories))
  }

  /** The labels of `p`, in order. */
  function NamesOf(p: seq<Transaction>, labelOf: Transaction -> string): (r: seq<string>)
    ensures |r| == |p| && forall i :: 0 <= i < |p| ==> r[i] == labelOf(p[i])
  {
    seq(|p|, i requires 0 <= i < |p| => labelOf(p[i]))
  }

  /** Where `name` first occurs among `names` (`|names|` when it does not). */
  function FirstIndex(name: string, names: seq<string>): (r: int)
    ensures name in names ==> 0 <= r < |names| && names[r] == name
    ensures name !in names ==> r == |names|
    ensures forall k :: 0 <= k < r && k < |names| ==> names[k] != name
  {
    match FindIndex((x: string) => x == name, names)
    case None => |names|
    case Some(i) => i
  }

  /** What the transactions of `p` labelled `name` add up to, in units. */
  function NameTotal(name: string, p: seq<Transaction>, labelOf: Transaction -> string): real
    decreases |p|
  {
    if p == [] then 0.0
    else
      var last := p[|p| - 1];
      NameTotal(name, p[..|p| - 1], labelOf) + (if labelOf(last) == name then Units(last) else 0.0)
  }

  /** One entry per label. */
  predicate Distinct(acc: seq<ExpenseEntry>)
  {
    UniqueKeys(EntryName, acc)
  }

  /** The entries' labels are exactly the labels in `names`. */
  predicate Covers(acc: seq<ExpenseEntry>, names: seq<string>)
  {
    (forall k :: 0 <= k < |acc| ==> acc[k].name in names)
    && (forall n :: n in names ==> exists k :: 0 <= k < |acc| && acc[k].name == n)
  }

  /** The entries come in the order their labels first occur in `names`. */
  predicate Ordered(acc: seq<ExpenseEntry>, names: seq<string>)
  {
    forall i, j :: 0 <= i < j < |acc| ==> FirstIndex(acc[i].name, names) < FirstIndex(acc[j].name, names)
  }

  /** Each entry holds the total of its label's transactions in `p`. */
  predicate Totals(acc: seq<ExpenseEntry>, p: seq<Transaction>, labelOf: Transaction -> string)
  {
    forall k :: 0 <= k < |acc| ==> acc[k].expense == NameTotal(acc[k].name, p, labelOf)
  }

  /** The entries add up to the total of `p`. */
  predicate AddsUp(acc: seq<ExpenseEntry>, p: seq<Transaction>)
  {
    SumReal(EntryExpense, acc) == SumReal(Units, p)
  }

  /** `acc` is the chart data of the transactions `p`. */
  predicate Summarises(acc: seq<ExpenseEntry>, p: seq<Transaction>, labelOf: Transaction -> string)
  {
    var names := NamesOf(p, labelOf);
    Distinct(acc) && Covers(acc, names) && Ordered(acc, names) && Totals(acc, p, labelOf) && AddsUp(acc, p)
  }

  lemma NamesOfAppend(p: seq<Transaction>, t: Transaction, labelOf: Transaction -> string)
    ensures NamesOf(p + [t], labelOf) == NamesOf(p, labelOf) + [labelOf(t)]
  {
  }

  lemma FirstIndexAppend(name: string, names: seq<string>, n: string)
    ensures name in names ==> FirstIndex(name, names + [n]) == FirstIndex(name, names)
    ensures name !in names && name == n ==> FirstIndex(name, names + [n]) == |names|
  {
    if name in names {
      var i := FirstIndex(name, names);
      var j := FirstIndex(name, names + [n]);
      assert (names + [n])[i] == name;
      assert j <= i;
      assert names[j] == name;
    } else if name == n {
      assert (names + [n])[|names|] == name;
    }
  }

  lemma NameTotalAppend(name: string, p: seq<Transaction>, t: Transaction, labelOf: Transaction -> string)
    ensures NameTotal(name, p + [t], labelOf)
      == NameTotal(name, p, labelOf) + (if labelOf(t) == name then Units(t) else 0.0)
  {
    assert (p + [t])[..|p|] == p;
  }

  lemma {:induction false} NameTotalOfUnseen(name: string, p: seq<Transaction>, labelOf: Transaction -> string)
    requires name !in NamesOf(p, labelOf)
    ensures NameTotal(name, p, labelOf) == 0.0
    decreases |p|
  {
    if p != [] {
      var init := p[..|p| - 1];
      assert NamesOf(p, labelOf)[|p| - 1] == labelOf(p[|p| - 1]);
      assert NamesOf(init, labelOf) == NamesOf(p, labelOf)[..|p| - 1];
      NameTotalOfUnseen(name, init, labelOf);
    }
  }

  lemma {:induction false} SumRealUpdate(s: seq<ExpenseEntry>, k: int, x: ExpenseEntry)
    requires 0 <= k < |s|
    ensures SumReal(EntryExpense, s[k := x]) == SumReal(EntryExpense, s) - s[k].expense + x.expense
    decreases |s|
  {
    if k > 0 {
      assert s[k := x][1..] == s[1..][k - 1 := x];
      SumRealUpdate(s[1..], k - 1, x);
    } else {
      assert s[k := x][1..] == s[1..];
    }
  }

  lemma SumRealOne(t: Transaction)
    ensures SumReal(Units, [t]) == Units(t)
  {
    assert [t][1..] == [];
  }

  /** Adding to the entry of an existing labelOf: the labels stay as they were. */
  lemma AddToExisting(acc: seq<ExpenseEntry>, p: seq<Transaction>, t: Transaction, labelOf: Transaction -> string, k: nat)
    requires Summarises(acc, p, labelOf)
    requires k < |acc| && acc[k].name == labelOf(t)
    ensures Summarises(acc[k := acc[k].(expense := acc[k].expense + Units(t))], p + [t], labelOf)
  {
    var n := labelOf(t);
    var next := acc[k := acc[k].(expense := acc[k].expense + Units(t))];
    var names := NamesOf(p, labelOf);
    NamesOfAppend(p, t, labelOf);
    assert n in names;
    ExistingKeepsLabels(acc, next, k, names, n, next[k].expense);
    ExistingKeepsTotals(acc, p, t, labelOf, k);
    SumRealUpdate(acc, k, next[k]);
    SumRealAppend(Units, p, [t]);
    SumRealOne(t);
  }

  lemma ExistingKeepsLabels(acc: seq<ExpenseEntry>, next: seq<ExpenseEntry>, k: nat, names: seq<string>, n: string, value: real)
    requires Distinct(acc) && Covers(acc, names) && Ordered(acc, names)
    requires k < |acc| && n in names && next == acc[k := acc[k].(expense := value)]
    ensures Distinct(next) && Covers(next, names + [n]) && Ordered(next, names + [n])
  {
    assert SameNames(acc, next);
    RenamedKeepsDistinct(acc, next);
    SeenKeepsCovers(acc, next, names, n);
    SeenKeepsOrdered(acc, next, names, n);
  }

  /** `next` has the labels of `acc`, position by position. */
  predicate SameNames(acc: seq<ExpenseEntry>, next: seq<ExpenseEntry>)
  {
    |next| == |acc| && forall i :: 0 <= i < |next| ==> next[i].name == acc[i].name
  }

  lemma RenamedKeepsDistinct(acc: seq<ExpenseEntry>, next: seq<ExpenseEntry>)
    requires Distinct(acc) && SameNames(acc, next)
    ensures Distinct(next)
  {
    forall i, j | 0 <= i < j < |next|
      ensures EntryName(next[i]) != EntryName(next[j])
    {
      assert EntryName(acc[i]) != EntryName(acc[j]);
    }
  }

  lemma SeenKeepsCovers(acc: seq<ExpenseEntry>, next: seq<ExpenseEntry>, names: seq<string>, n: string)
    requires Covers(acc, names) && SameNames(acc, next) && n in names
    ensures Covers(next, names + [n])
  {
    forall m | m in names + [n]
      ensures exists j :: 0 <= j < |next| && next[j].name == m
    {
      var j :| 0 <= j < |acc| && acc[j].name == m;
      assert next[j].name == m;
    }
  }

  lemma SeenKeepsOrdered(acc: seq<ExpenseEntry>, next: seq<ExpenseEntry>, names: seq<string>, n: string)
    requires Covers(acc, names) && Ordered(acc, names) && SameNames(acc, next) && n in names
    ensures Ordered(next, names + [n])
  {
    forall i | 0 <= i < |next|
      ensures FirstIndex(next[i].name, names + [n]) == FirstIndex(acc[i].name, names)
    {
      FirstIndexAppend(next[i].name, names, n);
    }
  }

  lemma ExistingKeepsTotals(acc: seq<ExpenseEntry>, p: seq<Transaction>, t: Transaction, labelOf: Transaction -> string, k: nat)
    requires Distinct(acc) && Totals(acc, p, labelOf)
    requires k < |acc| && acc[k].name == labelOf(t)
    ensures Totals(acc[k := acc[k].(expense := acc[k].expense + Units(t))], p + [t], labelOf)
  {
    var next := acc[k := acc[k].(expense := acc[k].expense + Units(t))];
    forall i | 0 <= i < |next|
      ensures next[i].expense == NameTotal(next[i].name, p + [t], labelOf)
    {
      NameTotalAppend(next[i].name, p, t, labelOf);
      if i != k {
        assert EntryName(acc[i]) != EntryName(acc[k]);
      }
    }
  }

  /** Pushing an entry for a new label. */
  lemma PushNew(acc: seq<ExpenseEntry>, p: seq<Transaction>, t: Transaction, labelOf: Transaction -> string)
    requires Summarises(acc, p, labelOf)
    requires forall k :: 0 <= k < |acc| ==> acc[k].name != labelOf(t)
    ensures Summarises(acc + [ExpenseEntry(labelOf(t), Units(t))], p + [t], labelOf)
  {
    var n := labelOf(t);
    var e := ExpenseEntry(n, Units(t));
    var names := NamesOf(p, labelOf);
    NamesOfAppend(p, t, labelOf);
    NewKeepsLabels(acc, e, names);
    NewKeepsTotals(acc, p, t, labelOf);
    SumRealAppend(EntryExpense, acc, [e]);
    SumRealAppend(Units, p, [t]);
    SumRealOne(t);
    assert [e][1..] == [];
  }

  lemma NewKeepsLabels(acc: seq<ExpenseEntry>, e: ExpenseEntry, names: seq<string>)
    requires Distinct(acc) && Covers(acc, names) && Ordered(acc, names)
    requires forall k :: 0 <= k < |acc| ==> acc[k].name != e.name
    ensures Distinct(acc + [e]) && Covers(acc + [e], names + [e.name]) && Ordered(acc + [e], names + [e.name])
  {
    var next := acc + [e];
    assert e.name !in names;
    forall i | 0 <= i < |next|
      ensures i < |acc| ==> FirstIndex(next[i].name, names + [e.name]) == FirstIndex(next[i].name, names) < |names|
      ensures i == |acc| ==> FirstIndex(next[i].name, names + [e.name]) == |names|
    {
      FirstIndexAppend(next[i].name, names, e.name);
    }
    forall m | m in names + [e.name]
      ensures exists j :: 0 <= j < |next| && next[j].name == m
    {
      if m == e.name {
        assert next[|acc|].name == m;
      } else {
        var j :| 0 <= j < |acc| && acc[j].name == m;
        assert next[j].name == m;
      }
    }
  }

  lemma NewKeepsTotals(acc: seq<ExpenseEntry>, p: seq<Transaction>, t: Transaction, labelOf: Transaction -> string)
    requires Covers(acc, NamesOf(p, labelOf)) && Totals(acc, p, labelOf)
    requires forall k :: 0 <= k < |acc| ==> acc[k].name != labelOf(t)
    ensures Totals(acc + [ExpenseEntry(labelOf(t), Units(t))], p + [t], labelOf)
  {
    var n := labelOf(t);
    var next := acc + [ExpenseEntry(n, Units(t))];
    forall i | 0 <= i < |next|
      ensures next[i].expense == NameTotal(next[i].name, p + [t], labelOf)
    {
      NameTotalAppend(next[i].name, p, t, labelOf);
      if i == |acc| {
        NameTotalOfUnseen(n, p, labelOf);
      }
    }
  }

  lemma AddExpenseSummarises(acc: seq<ExpenseEntry>, p: seq<Transaction>, t: Transaction, labelOf: Transaction -> string)
    requires Summarises(acc, p, labelOf)
    ensures Summarises(AddExpense(acc, labelOf(t), Units(t)), p + [t], labelOf)
  {
    var n := labelOf(t);
    var r := AddExpense(acc, n, Units(t));
    var found := EntryIndex(acc, n);
    if found.Some? {
      var k := found.value;
      AddToFound(acc, n, Units(t), k);
      assert r == acc[k := acc[k].(expense := acc[k].expense + Units(t))];
      AddToExisting(acc, p, t, labelOf, k);
    } else {
      AddToMissing(acc, n, Units(t));
      assert r == acc + [ExpenseEntry(n, Units(t))];
      PushNew(acc, p, t, labelOf);
    }
  }

  lemma {:induction false} FoldSummarises(acc: seq<ExpenseEntry>, p: seq<Transaction>, rest: seq<Transaction>, labelOf: Transaction -> string)
    requires Summarises(acc, p, labelOf)
    ensures Summarises(ExpenseFold(acc, rest, labelOf), p + rest, labelOf)
    decreases |rest|
  {
    if rest == [] {
      assert p + rest == p;
    } else {
      var t, more := rest[0], rest[1..];
      var next := AddExpense(acc, labelOf(t), Units(t));
      FoldStep(acc, p, rest, labelOf);
      AddExpenseSummarises(acc, p, t, labelOf);
      FoldSummarises(next, p + [t], more, labelOf);
    }
  }

  /** The first step of the fold, and where its transaction goes. */
  lemma FoldStep(acc: seq<ExpenseEntry>, p: seq<Transaction>, rest: seq<Transaction>, labelOf: Transaction -> string)
    requires rest != []
    ensures ExpenseFold(acc, rest, labelOf)
      == ExpenseFold(AddExpense(acc, labelOf(rest[0]), Units(rest[0])), rest[1..], labelOf)
    ensures (p + [rest[0]]) + rest[1..] == p + rest
  {
    assert rest == [rest[0]] + rest[1..];
  }

  /** The fold from position `i` of `expenses` takes that transaction first. */
  lemma FoldAt(acc: seq<ExpenseEntry>, expenses: seq<Transaction>, i: nat, labelOf: Transaction -> string, name: string)
    requires i < |expenses| && labelOf(expenses[i]) == name
    ensures ExpenseFold(acc, expenses[i..], labelOf)
      == ExpenseFold(AddExpense(acc, name, Units(expenses[i])), expenses[i + 1..], labelOf)
  {
    assert expenses[i..][0] == expenses[i] && expenses[i..][1..] == expenses[i + 1..];
  }

  lemma {:induction false} UnitsSum(p: seq<Transaction>)
    ensures SumReal(Units, p) == Sum(Amount, p) as real / 100.0
    decreases |p|
  {
    if p != [] {
      UnitsSum(p[1..]);
    }
  }

  /** The chart data has one entry per distinct label of the expense
      transactions and no other, in the order the labels first occur; each
      entry holds the total of its label's expenses, and the entries add up to
      totalExpense / 100. */
  lemma ExpenseDataSummarises(transactions: seq<Transaction>, categories: seq<FinanceCategory>)
    ensures var data, expenses := ExpenseData(transactions, categories), TransactionsOf(Expense, transactions);
      var names := NamesOf(expenses, ByCategory(categories));
      UniqueKeys(EntryName, data)
      && (forall n :: n in names <==> exists k :: 0 <= k < |data| && data[k].name == n)
      && (forall k :: 0 <= k < |data| ==> data[k].expense == NameTotal(data[k].name, expenses, ByCategory(categories)))
      && (forall i, j :: 0 <= i < j < |data| ==> FirstIndex(data[i].name, names) < FirstIndex(data[j].name, names))
      && SumReal(EntryExpense, data) == TotalExpense(transactions) as real / 100.0
  {
    var expenses := TransactionsOf(Expense, transactions);
    assert Summarises([], [], ByCategory(categories));
    FoldSummarises([], [], expenses, ByCategory(categories));
    assert [] + expenses == expenses;
    UnitsSum(expenses);
  }

  /** An expense whose category id is unknown shows under "Uncategorized". */
  lemma UnknownCategoryIsUncategorized(transactions: seq<Transaction>, categories: seq<FinanceCategory>, t: Transaction)
    requires t in transactions && t.kind == Expense
    requires forall c :: c in categories ==> c.categoryId != t.categoryId
    ensures exists k :: 0 <= k < |ExpenseData(transactions, categories)| && ExpenseData(transactions, categories)[k].name == "Uncategorized"
  {
    var expenses := TransactionsOf(Expense, transactions);
    assert t in expenses;
    var i :| 0 <= i < |expenses| && expenses[i] == t;
    CategoryNameIsFirstMatch(t, categories);
    var names := NamesOf(expenses, ByCategory(categories));
    assert names[i] == ByCategory(categories)(t) == CategoryName(t, categories) == "Uncategorized";
    assert "Uncategorized" in names;
    ExpenseDataSummarises(transactions, categories);
  }

  /** The reducer's body: add to the entry of `name` or push a new one. */
  method Accumulate(data: seq<ExpenseEntry>, name: string, value: real) returns (r: seq<ExpenseEntry>)
    ensures r == AddExpense(data, name, value)
  {
    var existing := EntryIndex(data, name);
    if existing.Some? {
      var k := existing.value;
      AddToFound(data, name, value, k);
      r := data[k := data[k].(expense := data[k].expense + value)];
    } else {
      AddToMissing(data, name, value);
      r := data + [ExpenseEntry(name, value)];
    }
  }

  /** The reduce as the component runs it: a loop over the expense
      transactions that applies the reducer to each in turn. */
  method ComputeExpenseData(transactions: seq<Transaction>, categories: seq<FinanceCategory>) returns (data: seq<ExpenseEntry>)
    ensures data == ExpenseData(transactions, categories)
  {
    var expenses := TransactionsOf(Expense, transactions);
    data := [];
    var i := 0;
    while i < |expenses|
      invariant 0 <= i <= |expenses|
      invariant ExpenseFold(data, expenses[i..], ByCategory(categories)) == ExpenseData(transactions, categories)
    {
      var t := expenses[i];
      var name := CategoryName(t, categories);
      FoldAt(data, expenses, i, ByCategory(categories), name);
      data := Accumulate(data, name, Units(t));
      i := i + 1;
    }
  }
}
