/** The admin billing overview: the search/status filter over fetched bills
    and the rule that decides whether a bill's due date is shown. */
module AdminBilling {
  import opened JsString
  import opened Lists

  /** `Bills.Client`; reading `Bills.Client.name` requires the client to be there. */
  datatype BillClient = BillClient(name: Option<string>)

  datatype Bill = Bill(
    billingId: int,
    client: BillClient,
    amount: Option<string>,
    status: Option<string>,
    dueDate: Option<string>)

  /** The value of `Bills.amout`: billing records have an `amount` property
      and no `amout` one, so this read is always `undefined`. */
  function MisspelledAmount(b: Bill): Option<string> {
    None
  }

  /** `Bills.amount.toLowerCase().includes(term.toLowerCase())`. */
  predicate AmountIncludes(b: Bill, term: string) {
    match b.amount
    case Some(a) => CiIncludes(a, term)
    case None => false
  }

  /** The search test as the screen has it: the amount branch is guarded by
      the misspelled property and so never fires. */
  predicate MatchesSearch(b: Bill, term: string) {
    term == ""
    || (Present(b.client.name) && CiIncludes(b.client.name.value, term))
    || (Present(MisspelledAmount(b)) && AmountIncludes(b, term))
  }

  predicate MatchesStatus(b: Bill, selected: string) {
    selected == "" || (Present(b.status) && CiIncludes(b.status.value, selected))
  }

  /** `filteredBillingList`: the shown bills, in list order. */
  function FilteredBillingList(bills: seq<Bill>, term: string, selected: string): (r: seq<Bill>)
    ensures forall b :: b in r <==> b in bills && MatchesSearch(b, term) && MatchesStatus(b, selected)
    ensures SubList(r, bills)
    ensures forall b :: multiset(r)[b] ==
                        if MatchesSearch(b, term) && MatchesStatus(b, selected) then multiset(bills)[b] else 0
  {
    Filter(b => MatchesSearch(b, term) && MatchesStatus(b, selected), bills)
  }

  /** No search term and the "All" status keep every bill, in order. */
  lemma NoCriteriaShowsAll(bills: seq<Bill>)
    ensures FilteredBillingList(bills, "", "") == bills
  {
    FilterKeepsAll(b => MatchesSearch(b, "") && MatchesStatus(b, ""), bills);
  }

  /** A non-empty search keeps a bill exactly when the client's name includes
      the term case-insensitively; the amount never contributes. */
  lemma SearchIff(b: Bill, term: string)
    requires term != ""
    ensures MatchesSearch(b, term) <==> b.client.name.Some? && CiIncludes(b.client.name.value, term)
  {
    if b.client.name == Some("") {
      CiIncludesLength("", term);
    }
  }

  /** Changing only the amount of a bill never changes whether it matches. */
  lemma AmountNeverMatches(b: Bill, amount: Option<string>, term: string)
    ensures MatchesSearch(b.(amount := amount), term) == MatchesSearch(b, term)
  {
  }

  /** A non-empty status selection drops bills with a missing or empty status. */
  lemma StatusNeedsField(b: Bill, selected: string)
    requires selected != ""
    requires !Present(b.status)
    ensures !MatchesStatus(b, selected)
  {
  }

  /** The status filter is a substring test: "Paid" also keeps "Unpaid". */
  lemma PaidFilterKeepsUnpaid(b: Bill)
    requires b.status == Some("Unpaid")
    ensures MatchesStatus(b, "Paid")
  {
    assert "Unpaid" == "Un" + "paid" + "";
    assert Lower("paid") == Lower("Paid");
    CiIncludesInfix("Un", "paid", "", "Paid");
  }

  /** `Bills.status != "Paid"`: the due date is shown unless the status is
      exactly "Paid". */
  predicate ShowsDueDate(b: Bill) {
    b.status != Some("Paid")
  }

  /** Filter and due-date rule disagree on case: a bill kept by the "Paid"
      filter may still show its due date ("Unpaid", "paid", "PAID"), while a
      bill whose status is exactly "Paid" is kept and hides it. */
  lemma PaidFilterAndDueDate(b: Bill)
    ensures b.status == Some("Paid") ==> MatchesStatus(b, "Paid") && !ShowsDueDate(b)
    ensures b.status == Some("Unpaid") ==> MatchesStatus(b, "Paid") && ShowsDueDate(b)
    ensures b.status == Some("PAID") ==> MatchesStatus(b, "Paid") && ShowsDueDate(b)
  {
    if b.status == Some("Paid") {
      CiIncludesSelf("Paid");
    } else if b.status == Some("Unpaid") {
      PaidFilterKeepsUnpaid(b);
    } else if b.status == Some("PAID") {
      assert "PAID" == "" + "PAID" + "";
      assert Lower("PAID") == Lower("Paid");
      CiIncludesInfix("", "PAID", "", "Paid");
    }
  }

  // ---------------------------------------------------------------------
  // The search as evidently intended
  // ---------------------------------------------------------------------

  /** The search with the guard reading `amount`, as the branch's body does. */
  predicate MatchesSearchIntended(b: Bill, term: string) {
    term == ""
    || (Present(b.client.name) && CiIncludes(b.client.name.value, term))
    || (Present(b.amount) && AmountIncludes(b, term))
  }

  /** With the intended guard, a bill is found by (part of) its amount, and
      everything the screen's search finds is still found. */
  lemma IntendedSearchFindsAmount(b: Bill, before: string, after: string, term: string)
    requires b.amount == Some(before + term + after)
    ensures MatchesSearchIntended(b, term)
    ensures MatchesSearch(b, term) ==> MatchesSearchIntended(b, term)
  {
    CiIncludesInfix(before, term, after, term);
  }

  /** `filteredBillingList` with the intended guard: it shows everything the
      screen shows, and also the bills found by their amount. */
  function FilteredBillingListIntended(bills: seq<Bill>, term: string, selected: string): (r: seq<Bill>)
    ensures forall b :: b in r <==> b in bills && MatchesSearchIntended(b, term) && MatchesStatus(b, selected)
    ensures forall b :: b in FilteredBillingList(bills, term, selected) ==> b in r
    ensures SubList(r, bills)
    ensures forall b :: multiset(r)[b] ==
                        if MatchesSearchIntended(b, term) && MatchesStatus(b, selected) then multiset(bills)[b] else 0
  {
    Filter(b => MatchesSearchIntended(b, term) && MatchesStatus(b, selected), bills)
  }

  /** The input that shows the misspelling: searching "1500" misses the bill
      of client "Al" for 1500, which the intended search finds. */
  lemma AmountSearchMissed()
    ensures !MatchesSearch(Bill(1, BillClient(Some("Al")), Some("1500"), None, None), "1500")
    ensures MatchesSearchIntended(Bill(1, BillClient(Some("Al")), Some("1500"), None, None), "1500")
  {
    CiIncludesLength("Al", "1500");
    assert "1500" == "" + "1500" + "";
    IntendedSearchFindsAmount(Bill(1, BillClient(Some("Al")), Some("1500"), None, None), "", "", "1500");
  }
}
