/** The staff documents page: the search over the fetched documents, the
    case label of each row, and the page's hooks as an object whose methods
    are the load effect, the fetch handlers and the search box. */
module StaffDocuments {
  import opened JsString
  import opened Lists
  import opened LoadFlow

  /** `doc.Cases`, which may be missing, and its optional title. */
  datatype CaseRef = CaseRef(title: Option<string>)

  /** A row of `StaffDocument`. */
  datatype Document = Document(docId: string, uploadDate: string, docType: string, cases: Option<CaseRef>)

  /** `doc.Cases?.title`. */
  function CaseTitle(d: Document): Option<string> {
    if d.cases.Some? then d.cases.value.title else None
  }

  predicate MatchesDocument(d: Document, term: string) {
    term == ""
    || CiIncludes(d.docType, term)
    || (Present(CaseTitle(d)) && CiIncludes(CaseTitle(d).value, term))
  }

  /** `filteredDocuments`: the shown documents, in list order. */
  function FilteredDocuments(docs: seq<Document>, term: string): (r: seq<Document>)
    ensures forall d :: d in r <==> d in docs && MatchesDocument(d, term)
    ensures SubList(r, docs)
    ensures forall d :: multiset(r)[d] == if MatchesDocument(d, term) then multiset(docs)[d] else 0
  {
    Filter(d => MatchesDocument(d, term), docs)
  }

  /** An empty search keeps every document, in order. */
  lemma EmptySearchShowsAll(docs: seq<Document>)
    ensures FilteredDocuments(docs, "") == docs
  {
    FilterKeepsAll(d => MatchesDocument(d, ""), docs);
  }

  /** A non-empty term keeps a document exactly when its type, or the title
      of its case, includes the term case-insensitively. */
  lemma SearchIff(d: Document, term: string)
    requires term != ""
    ensures MatchesDocument(d, term) <==>
      CiIncludes(d.docType, term)
      || (d.cases.Some? && d.cases.value.title.Some? && CiIncludes(d.cases.value.title.value, term))
  {
    if CaseTitle(d) == Some("") {
      CiIncludesLength("", term);
    }
  }

  /** Without a case title, only the document type can match. */
  lemma UntitledMatchesByTypeOnly(d: Document, term: string)
    requires !Present(CaseTitle(d))
    ensures MatchesDocument(d, term) <==> term == "" || CiIncludes(d.docType, term)
  {
  }

  /** `doc.Cases?.title || "Unknown case"`. */
  function CaseLabel(d: Document): (r: string)
    ensures r != ""
    ensures Present(CaseTitle(d)) ==> r == CaseTitle(d).value
    ensures !Present(CaseTitle(d)) ==> r == "Unknown case"
  {
    if Present(CaseTitle(d)) then CaseTitle(d).value else "Unknown case"
  }

  /** Searching for the label of a titled document finds it; the fallback
      label of an untitled one is not searched ("Unknown case" finds it only
      through its type). */
  lemma LabelSearch(d: Document)
    ensures Present(CaseTitle(d)) ==> MatchesDocument(d, CaseLabel(d))
    ensures !Present(CaseTitle(d)) ==>
      (MatchesDocument(d, CaseLabel(d)) <==> CiIncludes(d.docType, "Unknown case"))
  {
    if Present(CaseTitle(d)) {
      CiIncludesSelf(CaseTitle(d).value);
    }
  }

  /** The page component's hooks. */
  class DocumentsPage {
    var session: SessionStatus
    var documentList: seq<Document>
    var searchTerm: string
    var loading: bool
    var error: Option<string>
    /** How many requests the load effect has sent so far. */
    var fetchesIssued: nat

    function State(): LoadState<Document>
      reads this
    {
      LoadState(loading, documentList, error)
    }

    /** Mounting: the hooks take their initial values and the effect runs
        once, sending a request unless the session is still loading. */
    constructor (status: SessionStatus)
      ensures session == status && searchTerm == ""
      ensures State() == Start(Initial(), status)
      ensures fetchesIssued == if IssuesFetch(status) then 1 else 0
    {
      session := status;
      fetchesIssued := if IssuesFetch(status) then 1 else 0;
      documentList := [];
      searchTerm := "";
      error := None;
      loading := true;
    }

    /** The session status changes; the effect reruns only on a new value. */
    method SessionChanged(status: SessionStatus) returns (fetchIssued: bool)
      modifies this
      ensures session == status && searchTerm == old(searchTerm)
      ensures fetchIssued == (status != old(session) && IssuesFetch(status))
      ensures State() == if status == old(session) then old(State()) else Start(old(State()), status)
      ensures fetchesIssued == old(fetchesIssued) + if fetchIssued then 1 else 0
    {
      fetchIssued := false;
      if status != session {
        session := status;
        if status == SessionLoading {
          return;
        }
        loading := true;
        fetchIssued := true;
        fetchesIssued := fetchesIssued + 1;
      }
    }

    /** The fetch issued by the effect settles. */
    method FetchSettled(o: FetchOutcome<Document>)
      modifies this
      ensures session == old(session) && searchTerm == old(searchTerm)
      ensures fetchesIssued == old(fetchesIssued)
      ensures State() == Settle(old(State()), o)
    {
      match o {
        case Loaded(items) =>
          documentList := items;
        case _ =>
          error := Some(FailureMessage(o));
      }
      loading := false;
    }

    method SetSearchTerm(term: string)
      modifies this
      ensures searchTerm == term && session == old(session) && State() == old(State())
      ensures fetchesIssued == old(fetchesIssued)
    {
      searchTerm := term;
    }

    /** What the page renders now. */
    function CurrentView(): (v: View<Document>)
      reads this
      ensures v.Rows? ==> v.shown == FilteredDocuments(documentList, searchTerm)
    {
      PageView(session, State(), FilteredDocuments(documentList, searchTerm))
    }
  }
}
