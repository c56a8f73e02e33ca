/** The ledger reduction inside the Dashboard screen's load: the stored records, the
    walk that adds every amount to the entries total or to the expenses total and formats
    each record for the list, and what the two totals are. */
module Ledger {
  import opened Outcomes

  /** The only `type` value counted as an entry; every other value is an expense. */
  const PositiveType: string := "positive"

  /** A transaction as stored, already decoded. `kind` is the record's `type` field;
      `amount` is in cents and `date` is the stored date text. */
  datatype StoredTransaction = StoredTransaction(
    id: string, name: string, amount: int, kind: string, category: string, date: string)

  /** A row of the displayed list: the amount and the date are display text. */
  datatype DisplayItem = DisplayItem(
    id: string, name: string, amount: string, kind: string, category: string, date: string)

  /** The locale formatters: currency text for an amount, and date text for a stored
      date, `None` when the date does not parse (the formatter throws a RangeError). */
  type CurrencyFormatter = int -> string
  type DateFormatter = string -> Option<string>

  predicate IsEntry(t: StoredTransaction) {
    t.kind == PositiveType
  }

  /** The entries total, accumulated record by record in list order. */
  function EntriesTotal(s: seq<StoredTransaction>): int {
    if s == [] then 0
    else EntriesTotal(s[..|s| - 1]) + (if IsEntry(s[|s| - 1]) then s[|s| - 1].amount else 0)
  }

  /** The expenses total, accumulated record by record in list order. */
  function ExpensesTotal(s: seq<StoredTransaction>): int {
    if s == [] then 0
    else ExpensesTotal(s[..|s| - 1]) + (if IsEntry(s[|s| - 1]) then 0 else s[|s| - 1].amount)
  }

  /** Reference definitions: the sum of a list's amounts, and the two sub-lists. */
  function AmountsTotal(s: seq<StoredTransaction>): int {
    if s == [] then 0 else s[0].amount + AmountsTotal(s[1..])
  }

  function Entries(s: seq<StoredTransaction>): seq<StoredTransaction> {
    if s == [] then [] else (if IsEntry(s[0]) then [s[0]] else []) + Entries(s[1..])
  }

  function Expenses(s: seq<StoredTransaction>): seq<StoredTransaction> {
    if s == [] then [] else (if IsEntry(s[0]) then [] else [s[0]]) + Expenses(s[1..])
  }

  /** Every stored date is one the date formatter accepts; formatting an unparseable
      date (`None`) throws a RangeError. */
  predicate DatesParse(s: seq<StoredTransaction>, formatDate: DateFormatter) {
    forall i :: 0 <= i < |s| ==> formatDate(s[i].date).Some?
  }

  /** `d` is the display row of `t`: id, name, type and category are copied unchanged,
      only the amount and the date are turned into text. */
  predicate DisplaysRecord(d: DisplayItem, t: StoredTransaction,
                           formatCurrency: CurrencyFormatter, formatDate: DateFormatter)
  {
    && d.id == t.id && d.name == t.name && d.kind == t.kind && d.category == t.category
    && d.amount == formatCurrency(t.amount) && formatDate(t.date) == Some(d.date)
  }

  /** The walk over the list (the `map` callback and its two accumulators). `completed` is false
      when a date fails to format, which throws out of the walk. */
  method SummarizeLedger(transactions: seq<StoredTransaction>,
                         formatCurrency: CurrencyFormatter, formatDate: DateFormatter)
    returns (formatted: seq<DisplayItem>, entriesTotal: int, expensiveTotal: int, completed: bool)
    ensures completed <==> DatesParse(transactions, formatDate)
    ensures completed ==> |formatted| == |transactions|
    ensures completed ==> forall i :: 0 <= i < |transactions| ==>
              DisplaysRecord(formatted[i], transactions[i], formatCurrency, formatDate)
    ensures completed ==> entriesTotal == EntriesTotal(transactions)
    ensures completed ==> expensiveTotal == ExpensesTotal(transactions)
  {
    formatted, entriesTotal, expensiveTotal, completed := [], 0, 0, true;
    var i := 0;
    while completed && i < |transactions|
      invariant 0 <= i <= |transactions|
      invariant |formatted| == i
      invariant forall k :: 0 <= k < i ==>
                  DisplaysRecord(formatted[k], transactions[k], formatCurrency, formatDate)
      invariant entriesTotal == EntriesTotal(transactions[..i])
      invariant expensiveTotal == ExpensesTotal(transactions[..i])
      invariant !completed ==> i < |transactions| && formatDate(transactions[i].date).None?
      decreases |transactions| - i, completed
    {
      var t := transactions[i];
      var amount := formatCurrency(t.amount);
      match formatDate(t.date)
      case None =>
        // the walk throws here; the totals it had gathered are discarded with it
        completed := false;
      case Some(date) =>
        assert transactions[..i + 1][..i] == transactions[..i];
        if t.kind == PositiveType {
          entriesTotal := entriesTotal + t.amount;
        } else {
          expensiveTotal := expensiveTotal + t.amount;
        }
        formatted := formatted + [DisplayItem(t.id, t.name, amount, t.kind, t.category, date)];
        i := i + 1;
    }
    assert transactions[..|transactions|] == transactions;
  }

  /** Splitting a list splits both totals. */
  lemma {:induction false} AppendTotals(a: seq<StoredTransaction>, b: seq<StoredTransaction>)
    ensures EntriesTotal(a + b) == EntriesTotal(a) + EntriesTotal(b)
    ensures ExpensesTotal(a + b) == ExpensesTotal(a) + ExpensesTotal(b)
  {
    if b == [] {
      assert a + b == a;
    } else {
      var n := |b| - 1;
      assert (a + b)[..|a + b| - 1] == a + b[..n];
      assert (a + b)[|a + b| - 1] == b[n];
      AppendTotals(a, b[..n]);
    }
  }

  /** AmountsTotal distributes over concatenation. */
  lemma {:induction false} AppendAmounts(a: seq<StoredTransaction>, b: seq<StoredTransaction>)
    ensures AmountsTotal(a + b) == AmountsTotal(a) + AmountsTotal(b)
  {
    if a == [] {
      assert a + b == b;
    } else {
      assert (a + b)[1..] == a[1..] + b;
      AppendAmounts(a[1..], b);
    }
  }

  /** The entries total is the sum of the records typed exactly "positive", and the
      expenses total the sum of all the others, whatever their type. */
  lemma {:induction false} TotalsAreFilteredSums(s: seq<StoredTransaction>)
    ensures EntriesTotal(s) == AmountsTotal(Entries(s))
    ensures ExpensesTotal(s) == AmountsTotal(Expenses(s))
  {
    if s != [] {
      var head := [s[0]];
      assert s == head + s[1..];
      AppendTotals(head, s[1..]);
      assert head[..0] == [];
      TotalsAreFilteredSums(s[1..]);
      AppendAmounts(if IsEntry(s[0]) then head else [], Entries(s[1..]));
      AppendAmounts(if IsEntry(s[0]) then [] else head, Expenses(s[1..]));
      assert AmountsTotal(head) == s[0].amount;
    }
  }

  /** Each record lands in exactly one of the two sub-lists. */
  lemma {:induction false} FiltersPartition(s: seq<StoredTransaction>)
    ensures multiset(Entries(s)) + multiset(Expenses(s)) == multiset(s)
    ensures forall t :: t in Entries(s) ==> IsEntry(t)
    ensures forall t :: t in Expenses(s) ==> !IsEntry(t)
  {
    if s != [] {
      FiltersPartition(s[1..]);
      assert s == [s[0]] + s[1..];
    }
  }

  /** Every amount is counted once, in exactly one total: together they add up to the
      sum of all amounts. */
  lemma {:induction false} TotalsCoverEveryAmount(s: seq<StoredTransaction>)
    ensures EntriesTotal(s) + ExpensesTotal(s) == AmountsTotal(s)
  {
    if s != [] {
      var n := |s| - 1;
      TotalsCoverEveryAmount(s[..n]);
      assert s == s[..n] + [s[n]];
      AppendAmounts(s[..n], [s[n]]);
      assert [s[n]][1..] == [];
    }
  }

  /** Taking one record out of a list takes its amount out of its total. */
  lemma {:induction false} RemoveOne(b: seq<StoredTransaction>, j: nat)
    requires j < |b|
    ensures multiset(b[..j] + b[j + 1..]) == multiset(b) - multiset{b[j]}
    ensures EntriesTotal(b) == EntriesTotal(b[..j] + b[j + 1..]) + (if IsEntry(b[j]) then b[j].amount else 0)
    ensures ExpensesTotal(b) == ExpensesTotal(b[..j] + b[j + 1..]) + (if IsEntry(b[j]) then 0 else b[j].amount)
  {
    var x, left, right := b[j], b[..j], b[j + 1..];
    assert b == left + [x] + right;
    assert multiset(b) == multiset(left) + multiset{x} + multiset(right);
    AppendTotals(left + [x], right);
    AppendTotals(left, [x]);
    AppendTotals(left, right);
    assert [x][..0] == [];
  }

  /** The totals do not depend on the order of the records. */
  lemma {:induction false} TotalsIgnoreOrder(a: seq<StoredTransaction>, b: seq<StoredTransaction>)
    requires multiset(a) == multiset(b)
    ensures EntriesTotal(a) == EntriesTotal(b)
    ensures ExpensesTotal(a) == ExpensesTotal(b)
    decreases |a|
  {
    if a == [] {
      assert |b| == |multiset(b)| == 0;
    } else {
      var n := |a| - 1;
      var x := a[n];
      assert x in multiset(a);
      assert x in b;
      var j :| 0 <= j < |b| && b[j] == x;
      RemoveOne(a, n);
      RemoveOne(b, j);
      assert a[..n] + a[n + 1..] == a[..n];
      TotalsIgnoreOrder(a[..n], b[..j] + b[j + 1..]);
    }
  }

  /** The types the Register screen assigns ("up" and "down") are never "positive", so
      records typed with them all count as expenses and the entries total stays zero. */
  lemma {:induction false} RegisterTypesCountAsExpenses(s: seq<StoredTransaction>)
    requires forall i :: 0 <= i < |s| ==> s[i].kind == "up" || s[i].kind == "down"
    ensures EntriesTotal(s) == 0
    ensures ExpensesTotal(s) == AmountsTotal(s)
  {
    if s != [] {
      var n := |s| - 1;
      RegisterTypesCountAsExpenses(s[..n]);
      TotalsCoverEveryAmount(s);
    }
  }
}
