/** The load effect and the view selection that the staff documents page
    and the staff expenses page share: the effect waits while the session is
    loading, then sets `loading` and fetches; the response either stores
    the list or the error message, and clears `loading`. What the page
    shows is picked by a fixed priority. */
module LoadFlow {
  import opened JsString

  /** `useSession().status`. */
  datatype SessionStatus = SessionLoading | Authenticated | Unauthenticated

  /** How a fetch settles: the decoded list, a response that is not ok (the
      handler throws `API returned <status>: <statusText>`), or a thrown error
      (network failure, undecodable body) with its message. */
  datatype FetchOutcome<T> =
    | Loaded(items: seq<T>)
    | HttpError(code: nat, statusText: string)
    | Threw(message: string)

  /** The three `useState` hooks the effect writes. */
  datatype LoadState<T> = LoadState(loading: bool, items: seq<T>, error: Option<string>)

  /** The hooks' initial values: loading, no items, no error. */
  function Initial<T>(): LoadState<T> {
    LoadState(true, [], None)
  }

  /** `err.message` in the effect's catch handler. */
  function FailureMessage<T>(o: FetchOutcome<T>): (m: string)
    requires !o.Loaded?
    ensures o.HttpError? ==> |m| > |"API returned "| && m[..13] == "API returned "
    ensures o.Threw? ==> m == o.message
  {
    match o
    case HttpError(code, statusText) => "API returned " + DecimalString(code) + ": " + statusText
    case Threw(message) => message
  }

  /** The effect issues a fetch unless the session is still loading. */
  predicate IssuesFetch(session: SessionStatus) {
    session != SessionLoading
  }

  /** The synchronous part of the effect: `return` while the session is
      loading, otherwise `setLoading(true)`; the error is not reset. */
  function Start<T>(s: LoadState<T>, session: SessionStatus): LoadState<T> {
    if IssuesFetch(session) then s.(loading := true) else s
  }

  /** The `then`/`catch` handlers: store the list or the message, then clear
      `loading`. */
  function Settle<T>(s: LoadState<T>, o: FetchOutcome<T>): LoadState<T> {
    match o
    case Loaded(items) => s.(items := items, loading := false)
    case _ => s.(error := Some(FailureMessage(o)), loading := false)
  }

  /** What the page renders. */
  datatype View<T> =
    | SessionLoadingView
    | SignInRequired
    | Spinner
    | ErrorView(message: string)
    | NoMatches
    | Rows(shown: seq<T>)

  /** The early returns for the session, then `loading ? … : error ? … :
      shown.length === 0 ? … : rows`. */
  function PageView<T>(session: SessionStatus, s: LoadState<T>, shown: seq<T>): (v: View<T>)
    ensures v == SessionLoadingView <==> session == SessionLoading
    ensures v == SignInRequired <==> session == Unauthenticated
    ensures v == Spinner <==> session == Authenticated && s.loading
    ensures v.ErrorView? <==> session == Authenticated && !s.loading && Present(s.error)
    ensures v.ErrorView? ==> v.message == s.error.value
    ensures v == NoMatches <==> session == Authenticated && !s.loading && !Present(s.error) && shown == []
    ensures v.Rows? <==> session == Authenticated && !s.loading && !Present(s.error) && shown != []
    ensures v.Rows? ==> v.shown == shown
  {
    match session
    case SessionLoading => SessionLoadingView
    case Unauthenticated => SignInRequired
    case Authenticated =>
      if s.loading then Spinner
      else if Present(s.error) then ErrorView(s.error.value)
      else if shown == [] then NoMatches
      else Rows(shown)
  }

  /** While the session is loading no fetch starts and nothing changes. */
  lemma NoFetchWhileSessionLoading<T>(s: LoadState<T>)
    ensures Start(s, SessionLoading) == s
  {
  }

  /** A fetch is issued for a signed-out session too; the page still only
      asks the user to sign in. */
  lemma SignedOutStillFetches<T>(s: LoadState<T>, shown: seq<T>)
    ensures Start(s, Unauthenticated).loading
    ensures PageView(Unauthenticated, Start(s, Unauthenticated), shown) == SignInRequired
  {
  }

  /** Whatever the outcome, a settled fetch is no longer loading; a success
      keeps the old error and a failure keeps the old list. */
  lemma SettleClearsLoading<T>(s: LoadState<T>, o: FetchOutcome<T>)
    ensures !Settle(s, o).loading
    ensures o.Loaded? ==> Settle(s, o).items == o.items && Settle(s, o).error == s.error
    ensures !o.Loaded? ==> Settle(s, o).items == s.items && Settle(s, o).error == Some(FailureMessage(o))
  {
  }

  /** Starting a reload does not reset the error, so once an error with a
      message is stored, every later successful reload still shows it and
      never the rows it loaded. */
  lemma StaleErrorHidesLaterList<T>(s: LoadState<T>, session: SessionStatus, items: seq<T>, shown: seq<T>)
    requires Present(s.error)
    ensures Start(s, session).error == s.error
    ensures PageView(Authenticated, Settle(Start(s, session), Loaded(items)), shown) == ErrorView(s.error.value)
  {
  }

  /** A response that is not ok always shows the error view once the fetch
      settles: its message is never empty. */
  lemma HttpFailureShowsError<T>(s: LoadState<T>, code: nat, statusText: string, shown: seq<T>)
    ensures PageView(Authenticated, Settle(s, HttpError(code, statusText)), shown).ErrorView?
  {
    var m := FailureMessage<T>(HttpError(code, statusText));
    assert |m| > 13;
  }

  /** A thrown error with an empty message leaves no visible error: the
      page goes on to the list. */
  lemma EmptyMessageIsNoError<T>(s: LoadState<T>, shown: seq<T>)
    requires !Present(s.error)
    requires shown != []
    ensures PageView(Authenticated, Settle(s, Threw("")), shown) == Rows(shown)
  {
  }

  /** From the initial state, a fetch that loads `items` shows exactly the
      rows selected from them. */
  lemma FirstLoadShowsRows<T>(items: seq<T>, shown: seq<T>)
    requires shown != []
    ensures PageView(Authenticated, Settle(Start(Initial<T>(), Authenticated), Loaded(items)), shown) == Rows(shown)
    ensures PageView(Authenticated, Start(Initial<T>(), Authenticated), shown) == Spinner
  {
  }
}
