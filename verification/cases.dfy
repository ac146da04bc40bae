/** The admin cases overview: the INACTIVE pre-filter applied to fetched
    cases, the search/type/status filter applied to what is shown, and the
    e-mail label of each row. */
module AdminCases {
  import opened JsString
  import opened Lists

  datatype ClientAuth = ClientAuth(email: Option<string>)
  datatype Client = Client(name: Option<string>, clientAuth: Option<ClientAuth>)
  /** One entry of `Client_Case`: the link to a client, which may be missing. */
  datatype ClientLink = ClientLink(client: Option<Client>)

  /** A row of `case_table`; an absent `Client_Case` array is the empty sequence. */
  datatype Case = Case(
    caseId: int,
    title: Option<string>,
    caseType: Option<string>,
    status: Option<string>,
    clientCase: seq<ClientLink>)

  // ---------------------------------------------------------------------
  // The INACTIVE pre-filter of fetchCases
  // ---------------------------------------------------------------------

  /** `item.status !== "INACTIVE"`: a strict, case-sensitive comparison. */
  predicate IsActive(c: Case) {
    c.status != Some("INACTIVE")
  }

  /** The list stored after a fetch: every case but the literally INACTIVE ones. */
  function ActiveCases(data: seq<Case>): (r: seq<Case>)
    ensures forall c :: c in r <==> c in data && c.status != Some("INACTIVE")
    ensures forall c :: c in data && c.status == Some("inactive") ==> c in r
    ensures SubList(r, data)
    ensures forall c :: multiset(r)[c] == if c.status != Some("INACTIVE") then multiset(data)[c] else 0
  {
    Filter(IsActive, data)
  }

  /** When nothing is literally INACTIVE, the fetched list is stored as is. */
  lemma ActiveCasesKeepsAll(data: seq<Case>)
    requires forall c :: c in data ==> c.status != Some("INACTIVE")
    ensures ActiveCases(data) == data
  {
    FilterKeepsAll(IsActive, data);
  }

  // ---------------------------------------------------------------------
  // filteredCaseList
  // ---------------------------------------------------------------------

  /** `cases.Client_Case?.[0]?.Client`. */
  function FirstClient(c: Case): Option<Client> {
    if |c.clientCase| > 0 then c.clientCase[0].client else None
  }

  /** `cases.Client_Case?.[0]?.Client?.name`. */
  function FirstClientName(c: Case): Option<string> {
    if FirstClient(c).Some? then FirstClient(c).value.name else None
  }

  predicate MatchesSearch(c: Case, term: string) {
    term == ""
    || (Present(c.title) && CiIncludes(c.title.value, term))
    || (Present(FirstClientName(c)) && CiIncludes(FirstClientName(c).value, term))
  }

  /** The shape shared by the type and the status filter: an empty selection
      matches everything, otherwise the field must be present and include it. */
  predicate MatchesSelection(field: Option<string>, selected: string) {
    selected == "" || (Present(field) && CiIncludes(field.value, selected))
  }

  predicate MatchesCase(c: Case, term: string, selectedType: string, selectedStatus: string) {
    MatchesSearch(c, term)
    && MatchesSelection(c.caseType, selectedType)
    && MatchesSelection(c.status, selectedStatus)
  }

  /** `filteredCaseList`: the shown cases, in list order. */
  function FilteredCaseList(cases: seq<Case>, term: string, selectedType: string, selectedStatus: string)
    : (r: seq<Case>)
    ensures forall c :: c in r <==>
      c in cases && MatchesSearch(c, term)
      && MatchesSelection(c.caseType, selectedType) && MatchesSelection(c.status, selectedStatus)
    ensures SubList(r, cases)
    ensures forall c :: multiset(r)[c] ==
                        if MatchesCase(c, term, selectedType, selectedStatus) then multiset(cases)[c] else 0
  {
    Filter(c => MatchesCase(c, term, selectedType, selectedStatus), cases)
  }

  /** With no search term and both filters on "All", every case is shown, in order. */
  lemma NoCriteriaShowsAll(cases: seq<Case>)
    ensures FilteredCaseList(cases, "", "", "") == cases
  {
    FilterKeepsAll(c => MatchesCase(c, "", "", ""), cases);
  }

  /** A non-empty search keeps a case exactly when its title, or the name
      of its first linked client, includes the term case-insensitively. */
  lemma SearchIff(c: Case, term: string)
    requires term != ""
    ensures MatchesSearch(c, term) <==>
      (c.title.Some? && CiIncludes(c.title.value, term))
      || (|c.clientCase| > 0 && c.clientCase[0].client.Some?
          && c.clientCase[0].client.value.name.Some?
          && CiIncludes(c.clientCase[0].client.value.name.value, term))
  {
    if c.title == Some("") {
      CiIncludesLength("", term);
    }
    if FirstClientName(c) == Some("") {
      CiIncludesLength("", term);
    }
  }

  /** Only the first linked client is searched: replacing the second and
      later links changes nothing. */
  lemma SearchIgnoresLaterClients(c: Case, later: seq<ClientLink>, term: string)
    requires |c.clientCase| > 0
    ensures MatchesSearch(c.(clientCase := c.clientCase[..1] + later), term) == MatchesSearch(c, term)
  {
  }

  /** A client that is linked second is not found by its name. */
  lemma SecondClientNotSearched(title: string, first: Client, second: Client)
    requires !CiIncludes(title, "zed")
    requires first.name == None
    requires second.name == Some("Zed")
    ensures !MatchesSearch(Case(1, Some(title), None, None,
                                [ClientLink(Some(first)), ClientLink(Some(second))]), "zed")
  {
  }

  /** A non-empty type or status selection never keeps a case whose field is
      missing or shorter than the selection (in particular, empty). */
  lemma SelectionNeedsField(field: Option<string>, selected: string)
    requires selected != ""
    ensures MatchesSelection(field, selected) ==> field.Some? && |field.value| >= |selected|
  {
    if field.Some? {
      CiIncludesLength(field.value, selected);
    }
  }

  /** The type and status filters are substring tests, not equality: a
      field holding any case variant of the selection passes. */
  lemma SelectionIsSubstring(before: string, word: string, after: string, selected: string)
    requires Lower(word) == Lower(selected)
    requires selected != ""
    ensures MatchesSelection(Some(before + word + after), selected)
  {
    CiIncludesInfix(before, word, after, selected);
  }

  /** So the "open" status filter keeps a case with status "Reopened". */
  lemma OpenFilterKeepsReopened(c: Case)
    requires c.status == Some("Reopened")
    ensures MatchesSelection(c.status, "open")
  {
    assert "Reopened" == "Re" + "open" + "ed";
    SelectionIsSubstring("Re", "open", "ed", "open");
  }

  /** The screen shows the cases that are active and match, in fetch order. */
  lemma ShownCases(data: seq<Case>, term: string, selectedType: string, selectedStatus: string)
    ensures forall c :: c in FilteredCaseList(ActiveCases(data), term, selectedType, selectedStatus) <==>
      c in data && IsActive(c) && MatchesCase(c, term, selectedType, selectedStatus)
  {
  }

  // ---------------------------------------------------------------------
  // The e-mail label
  // ---------------------------------------------------------------------

  /** `cases.Client_Case?.[0]?.Client?.client_auth?.email || "N/A"`. */
  function EmailLabel(c: Case): (r: string)
    ensures r != ""
    ensures FirstClient(c).Some? && FirstClient(c).value.clientAuth.Some?
            && Present(FirstClient(c).value.clientAuth.value.email)
            ==> r == FirstClient(c).value.clientAuth.value.email.value
    ensures r == "N/A" || (|c.clientCase| > 0 && c.clientCase[0].client.Some?
            && c.clientCase[0].client.value.clientAuth.Some?
            && c.clientCase[0].client.value.clientAuth.value.email == Some(r))
  {
    var email := if FirstClient(c).Some? && FirstClient(c).value.clientAuth.Some?
                 then FirstClient(c).value.clientAuth.value.email else None;
    if Present(email) then email.value else "N/A"
  }
}
