/** The Dashboard screen's state and its load: read the stored transaction list, walk it,
    and publish the list, the three highlight amounts and the loading flag. */
module Dashboard {
  import opened Outcomes
  import opened Ledger

  /** The storage key the ledger is read from; it is the same for every user. */
  const DataKey: string := "@myfinances:transactions"

  /** The formatted amounts of the three highlight cards. */
  datatype HighlightData = HighlightData(entries: string, expensives: string, total: string)

  /** The list lines 52-54 produce: the stored list, or the empty list when nothing is stored. */
  function StoredTransactions(storage: map<string, seq<StoredTransaction>>): seq<StoredTransaction> {
    if DataKey in storage then storage[DataKey] else []
  }

  /** The Dashboard screen's state. */
  class DashboardScreen {
    var isLoading: bool
    var transactions: seq<DisplayItem>
    /** None until the first load (the source starts from an empty object). */
    var highlightData: Option<HighlightData>

    constructor ()
      ensures isLoading && transactions == [] && highlightData == None
    {
      isLoading := true;
      transactions := [];
      highlightData := None;
    }

    /** The screen shows the ledger stored in `storage`: loading is over, the list has one
        row per stored record in the same order, and the cards show the two totals and
        their difference. */
    predicate Shows(storage: map<string, seq<StoredTransaction>>,
                    formatCurrency: CurrencyFormatter, formatDate: DateFormatter)
      reads this
    {
      var stored := StoredTransactions(storage);
      && !isLoading
      && |transactions| == |stored|
      && (forall i :: 0 <= i < |stored| ==>
            DisplaysRecord(transactions[i], stored[i], formatCurrency, formatDate))
      && highlightData == Some(HighlightData(
           formatCurrency(EntriesTotal(stored)),
           formatCurrency(ExpensesTotal(stored)),
           formatCurrency(EntriesTotal(stored) - ExpensesTotal(stored))))
    }

    /** A stored date that does not format makes the load reject before any state is set:
        the screen keeps its list, its cards and its loading flag. */
    method LoadTransactions(storage: map<string, seq<StoredTransaction>>,
                            formatCurrency: CurrencyFormatter, formatDate: DateFormatter)
      modifies this
      ensures DatesParse(StoredTransactions(storage), formatDate) ==> Shows(storage, formatCurrency, formatDate)
      ensures !DatesParse(StoredTransactions(storage), formatDate) ==> unchanged(this)
      ensures DataKey !in storage ==>
                transactions == [] &&
                highlightData == Some(HighlightData(formatCurrency(0), formatCurrency(0), formatCurrency(0)))
      ensures old(Shows(storage, formatCurrency, formatDate)) ==> unchanged(this)
    {
      var stored := StoredTransactions(storage);
      var formatted, entriesTotal, expensiveTotal, completed := SummarizeLedger(stored, formatCurrency, formatDate);
      if !completed {
        return;
      }
      var total := entriesTotal - expensiveTotal;
      transactions := formatted;
      highlightData := Some(HighlightData(formatCurrency(entriesTotal), formatCurrency(expensiveTotal),
                                          formatCurrency(total)));
      isLoading := false;
      if old(Shows(storage, formatCurrency, formatDate)) {
        assert forall i :: 0 <= i < |stored| ==> transactions[i] == old(transactions)[i];
        assert transactions == old(transactions);
      }
    }
  }
}
