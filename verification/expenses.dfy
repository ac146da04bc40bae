/** The staff expenses page: the search over the fetched expenses, the total
    of the shown rows, the "Paid by" label, and the page's hooks as an object
    whose methods are the load effect, the fetch handlers and the search box.
    Amounts are whole cents. */
module StaffExpenses {
  import opened JsString
  import opened Lists
  import opened LoadFlow

  /** `expense.Staff`, which may be missing. */
  datatype StaffRef = StaffRef(name: string)

  /** A row of `expeces_table`. */
  datatype Expense = Expense(
    expenseId: int,
    description: Option<string>,
    amount: int,
    expenseDate: string,
    staff: Option<StaffRef>)

  predicate MatchesExpense(e: Expense, term: string) {
    term == "" || (Present(e.description) && CiIncludes(e.description.value, term))
  }

  /** `filteredExpenseList`: the shown expenses, in list order. */
  function FilteredExpenseList(expenses: seq<Expense>, term: string): (r: seq<Expense>)
    ensures forall e :: e in r <==> e in expenses && MatchesExpense(e, term)
    ensures SubList(r, expenses)
    ensures forall e :: multiset(r)[e] == if MatchesExpense(e, term) then multiset(expenses)[e] else 0
  {
    Filter(e => MatchesExpense(e, term), expenses)
  }

  /** An empty search keeps every expense, in order. */
  lemma EmptySearchShowsAll(expenses: seq<Expense>)
    ensures FilteredExpenseList(expenses, "") == expenses
  {
    FilterKeepsAll(e => MatchesExpense(e, ""), expenses);
  }

  /** A non-empty term keeps an expense exactly when its description
      includes the term case-insensitively; amount, date and staff are
      never searched. */
  lemma SearchIff(e: Expense, term: string, amount: int, date: string, staff: Option<StaffRef>)
    requires term != ""
    ensures MatchesExpense(e, term) <==> e.description.Some? && CiIncludes(e.description.value, term)
    ensures MatchesExpense(e.(amount := amount, expenseDate := date, staff := staff), term)
            == MatchesExpense(e, term)
  {
    if e.description == Some("") {
      CiIncludesLength("", term);
    }
  }

  /** The `reduce` that sums the amounts from the left, starting at 0. */
  function Total(expenses: seq<Expense>): int
    decreases |expenses|
  {
    if expenses == [] then 0
    else Total(expenses[..|expenses| - 1]) + expenses[|expenses| - 1].amount
  }

  lemma {:induction false} TotalAppend(a: seq<Expense>, b: seq<Expense>)
    ensures Total(a + b) == Total(a) + Total(b)
    decreases |b|
  {
    if b == [] {
      assert a + b == a;
    } else {
      var b' := b[..|b| - 1];
      assert (a + b)[..|a + b| - 1] == a + b';
      TotalAppend(a, b');
    }
  }

  /** The total shown beside the list: over the shown rows only. */
  function FilteredTotal(expenses: seq<Expense>, term: string): (r: int)
    ensures term == "" ==> r == Total(expenses)
    ensures FilteredExpenseList(expenses, term) == [] ==> r == 0
  {
    assert term == "" ==> FilteredExpenseList(expenses, term) == expenses by {
      if term == "" {
        EmptySearchShowsAll(expenses);
      }
    }
    Total(FilteredExpenseList(expenses, term))
  }

  /** The full total splits into the shown total and the total of the rows
      the search hides. */
  lemma {:induction false} TotalSplit(expenses: seq<Expense>, term: string)
    ensures Total(expenses) ==
      FilteredTotal(expenses, term) + Total(Filter(e => !MatchesExpense(e, term), expenses))
    decreases |expenses|
  {
    var p := e => MatchesExpense(e, term);
    var q := e => !MatchesExpense(e, term);
    if expenses != [] {
      var x, rest := expenses[0], expenses[1..];
      assert expenses == [x] + rest;
      TotalSplit(rest, term);
      TotalAppend([x], rest);
      if MatchesExpense(x, term) {
        TotalAppend([x], Filter(p, rest));
      } else {
        TotalAppend([x], Filter(q, rest));
      }
    }
  }

  /** An expense the search hides adds nothing to the total. */
  lemma HiddenRowAddsNothing(expenses: seq<Expense>, hidden: Expense, term: string)
    requires !MatchesExpense(hidden, term)
    ensures FilteredTotal(expenses + [hidden], term) == FilteredTotal(expenses, term)
  {
    var p := e => MatchesExpense(e, term);
    FilterAppend(p, expenses, [hidden]);
    assert Filter(p, [hidden]) == [];
    assert FilteredExpenseList(expenses, term) + [] == FilteredExpenseList(expenses, term);
    assert FilteredExpenseList(expenses + [hidden], term) == FilteredExpenseList(expenses, term);
  }

  /** `expense.Staff?.name || "You"`. */
  function PaidByLabel(e: Expense): (r: string)
    ensures r != ""
    ensures e.staff.Some? && e.staff.value.name != "" ==> r == e.staff.value.name
    ensures e.staff == None || e.staff == Some(StaffRef("")) ==> r == "You"
  {
    if e.staff.Some? && e.staff.value.name != "" then e.staff.value.name else "You"
  }

  /** The page component's hooks. */
  class ExpensesPage {
    var session: SessionStatus
    var expenseList: seq<Expense>
    var searchTerm: string
    var loading: bool
    var error: Option<string>
    /** How many requests the load effect has sent so far. */
    var fetchesIssued: nat

    function State(): LoadState<Expense>
      reads this
    {
      LoadState(loading, expenseList, error)
    }

    /** Mounting: the hooks take their initial values and the effect runs
        once, sending a request unless the session is still loading. */
    constructor (status: SessionStatus)
      ensures session == status && searchTerm == ""
      ensures State() == Start(Initial(), status)
      ensures fetchesIssued == if IssuesFetch(status) then 1 else 0
    {
      session := status;
      fetchesIssued := if IssuesFetch(status) then 1 else 0;
      expenseList := [];
      searchTerm := "";
      error := None;
      loading := true;
    }

    /** The session status changes; the effect reruns only on a new value. */
    method SessionChanged(status: SessionStatus) returns (fetchIssued: bool)
      modifies this
      ensures session == status && searchTerm == old(searchTerm)
      ensures fetchIssued == (status != old(session) && IssuesFetch(status))
      ensures State() == if status == old(session) then old(State()) else Start(old(State()), status)
      ensures fetchesIssued == old(fetchesIssued) + if fetchIssued then 1 else 0
    {
      fetchIssued := false;
      if status != session {
        session := status;
        if status == SessionLoading {
          return;
        }
        loading := true;
        fetchIssued := true;
        fetchesIssued := fetchesIssued + 1;
      }
    }

    /** The fetch issued by the effect settles. */
    method FetchSettled(o: FetchOutcome<Expense>)
      modifies this
      ensures session == old(session) && searchTerm == old(searchTerm)
      ensures fetchesIssued == old(fetchesIssued)
      ensures State() == Settle(old(State()), o)
    {
      match o {
        case Loaded(items) =>
          expenseList := items;
        case _ =>
          error := Some(FailureMessage(o));
      }
      loading := false;
    }

    method SetSearchTerm(term: string)
      modifies this
      ensures searchTerm == term && session == old(session) && State() == old(State())
      ensures fetchesIssued == old(fetchesIssued)
    {
      searchTerm := term;
    }

    /** What the list panel renders now. */
    function CurrentView(): (v: View<Expense>)
      reads this
      ensures v.Rows? ==> v.shown == FilteredExpenseList(expenseList, searchTerm)
    {
      PageView(session, State(), FilteredExpenseList(expenseList, searchTerm))
    }

    /** The total in the search panel, over the shown rows. */
    function CurrentTotal(): (r: int)
      reads this
      ensures searchTerm == "" ==> r == Total(expenseList)
    {
      FilteredTotal(expenseList, searchTerm)
    }
  }
}
