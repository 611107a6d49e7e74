/** The state of the character list screen and its pure transitions.
    Every handler of the screen is a function from the state before the
    event to the state after it; the asynchronous fetch is split into the
    part that runs before the network call (Begin, RequestOf) and the part
    that runs when the call settles (Settle). */
module ScreenModel {

  datatype Option<T> = None | Some(value: T)

  /** A character as the list holds it. Only its id is used by the screen
      (as the list key); the other attributes are opaque here. */
  datatype Character = Character(id: int)

  /** One call of the fetch routine, as seen by the network: whether it is a
      reset, which page it asks for and with which name filter. The `reset`
      flag is remembered across the call because the completion needs it. */
  datatype Request = Request(reset: bool, page: nat, search: string)

  /** How a call settles: a list of results, or an error message. A response
      whose status is not ok is a Failure carrying NotOkMessage. */
  datatype Outcome = Success(results: seq<Character>) | Failure(message: string)

  /** The three mutually exclusive things the screen renders. */
  datatype View = LoadingView | ErrorView(message: string) | ListView

  /** The component's state. `pending` is the token of the one debounce
      timer that may still fire, and `nextToken` is the token the next
      scheduled timer gets. */
  datatype Screen = Screen(
    characters: seq<Character>,
    loading: bool,
    error: Option<string>,
    page: nat,
    search: string,
    isFetchingMore: bool,
    refreshing: bool,
    pending: Option<nat>,
    nextToken: nat)

  /** The message thrown when the response status is not ok. */
  const NotOkMessage: string := "Erro ao buscar dados."

  /** The state right after mount: the initial values of the fields, and the
      timer the search effect schedules on its first run (token 0). The page
      effect's first run sees page 1 and does nothing. */
  function Initial(): (r: Screen)
    ensures r.characters == [] && r.loading && r.error == None && r.page == 1
    ensures !r.isFetchingMore && !r.refreshing && r.search == ""
    ensures r.pending.Some?
    ensures PageEffect(r).None?
  {
    Screen([], true, None, 1, "", false, false, Some(0), 1)
  }

  /** What every reachable state satisfies: pages count from 1, and the
      pending timer, if any, is the most recently scheduled one. */
  predicate Valid(s: Screen)
  {
    s.page >= 1 &&
    (s.pending.Some? ==> s.pending.value + 1 == s.nextToken)
  }

  // ---------------------------------------------------------------------
  // Pure selectors

  /** Grid columns for a viewport width. */
  function NumColumns(width: real): (n: nat)
    ensures 2 <= n <= 4
    ensures n == 4 <==> width > 900.0
    ensures n == 3 <==> 600.0 < width <= 900.0
    ensures n == 2 <==> width <= 600.0
  {
    if width > 900.0 then 4 else if width > 600.0 then 3 else 2
  }

  /** JavaScript truthiness of the error field: null and "" are false. */
  predicate ErrorShown(error: Option<string>): (shown: bool)
    ensures error.None? ==> !shown
    ensures error == Some("") ==> !shown
    ensures error.Some? && |error.value| > 0 ==> shown
  {
    error.Some? && error.value != ""
  }

  /** Which view the screen renders for a state. */
  function ViewOf(s: Screen): (v: View)
    ensures v.LoadingView? <==> s.loading && s.characters == []
    ensures v.ErrorView? <==> !s.loading && s.characters == [] && ErrorShown(s.error)
    ensures v.ErrorView? ==> s.error == Some(v.message)
    ensures v.ListView? <==> s.characters != [] || (!s.loading && !ErrorShown(s.error))
  {
    if s.loading && s.characters == [] then LoadingView
    else if ErrorShown(s.error) && s.characters == [] then ErrorView(s.error.value)
    else ListView
  }

  // ---------------------------------------------------------------------
  // The fetch lifecycle

  /** The state changes the fetch routine makes before its network call. */
  function Begin(s: Screen, reset: bool): (r: Screen)
    ensures reset ==> r.page == 1 && r.characters == [] && r.loading
    ensures reset ==> r.(page := s.page, characters := s.characters, loading := s.loading) == s
    ensures !reset ==> r == s
  {
    if reset then s.(page := 1, characters := [], loading := true) else s
  }

  /** The request the fetch routine sends, computed from the state it was
      called in (the page it reads is the one before its own reset). */
  function RequestOf(s: Screen, reset: bool): (q: Request)
    ensures q.reset == reset && q.search == s.search
    ensures reset ==> q.page == 1
    ensures !reset ==> q.page == s.page
  {
    Request(reset, if reset then 1 else s.page, s.search)
  }

  /** The state changes the fetch routine makes when its call settles: the
      try block on success, the catch block on failure, and in both cases the
      finally block. */
  function Settle(s: Screen, req: Request, out: Outcome): (r: Screen)
    ensures !r.loading && !r.isFetchingMore && !r.refreshing
    ensures out.Success? ==> r.error == None
    ensures out.Success? && req.reset ==> r.characters == out.results
    ensures out.Success? && !req.reset ==>
      |r.characters| == |s.characters| + |out.results| &&
      r.characters[..|s.characters|] == s.characters &&
      r.characters[|s.characters|..] == out.results
    ensures out.Failure? ==> r.error == Some(out.message) && r.characters == s.characters
    ensures r.(characters := s.characters, error := s.error, loading := s.loading,
               isFetchingMore := s.isFetchingMore, refreshing := s.refreshing) == s
  {
    var characters :=
      match out
      case Success(results) => if req.reset then results else s.characters + results
      case Failure(_) => s.characters;
    var error :=
      match out
      case Success(_) => None
      case Failure(message) => Some(message);
    s.(characters := characters, error := error,
       loading := false, isFetchingMore := false, refreshing := false)
  }

  // ---------------------------------------------------------------------
  // Event handlers

  /** The end of the list was reached: ask for one more page unless a page
      is already being fetched. */
  function LoadMore(s: Screen): (r: Screen)
    ensures s.isFetchingMore ==> r == s
    ensures !s.isFetchingMore ==> r.isFetchingMore && r.page == s.page + 1
    ensures r.(isFetchingMore := s.isFetchingMore, page := s.page) == s
  {
    if s.isFetchingMore then s else s.(isFetchingMore := true, page := s.page + 1)
  }

  /** The page effect, run after a render in which `page` changed: an append
      fetch of the new page unless the new page is 1. */
  function PageEffect(s: Screen): (q: Option<Request>)
    ensures q.None? <==> s.page == 1
    ensures q.Some? ==> !q.value.reset && q.value.page == s.page && q.value.search == s.search
  {
    if s.page == 1 then None else Some(RequestOf(s, false))
  }

  /** The search text changed. React reruns the search effect only when the
      value differs from the current one; when it does, the cleanup cancels
      the pending timer and a new timer is scheduled in its place. */
  function SearchChanged(s: Screen, text: string): (r: Screen)
    ensures r.search == text
    ensures text == s.search ==> r == s
    ensures text != s.search ==> r.pending == Some(s.nextToken) && r.nextToken == s.nextToken + 1
    ensures r.(search := s.search, pending := s.pending, nextToken := s.nextToken) == s
  {
    if text == s.search then s
    else s.(search := text, pending := Some(s.nextToken), nextToken := s.nextToken + 1)
  }

  /** A debounce timer fired. Only the pending one is still scheduled; it
      starts a reset fetch. A cancelled timer never runs its callback. */
  function TimerExpired(s: Screen, token: nat): (r: Screen)
    ensures s.pending == Some(token) ==> r == Begin(s.(pending := None), true)
    ensures s.pending != Some(token) ==> r == s
  {
    if s.pending == Some(token) then Begin(s.(pending := None), true) else s
  }

  /** Pull-to-refresh: show the refresh spinner, then start a reset fetch. */
  function Refresh(s: Screen): (r: Screen)
    ensures r.refreshing && r.loading && r.page == 1 && r.characters == []
    ensures r.(refreshing := s.refreshing, loading := s.loading, page := s.page,
               characters := s.characters) == s
  {
    Begin(s.(refreshing := true), true)
  }

  // ---------------------------------------------------------------------
  // Properties of single transitions

  lemma InitialShowsLoading()
    ensures Valid(Initial()) && ViewOf(Initial()) == LoadingView
  {
  }

  lemma NumColumnsMonotone(narrow: real, wide: real)
    requires narrow <= wide
    ensures NumColumns(narrow) <= NumColumns(wide)
  {
  }

  /** Widths 1000, 700 and 400 give 4, 3 and 2 columns. */
  lemma NumColumnsExamples()
    ensures NumColumns(1000.0) == 4 && NumColumns(700.0) == 3 && NumColumns(400.0) == 2
  {
  }

  /** A second loadMore before the first one's fetch settles changes nothing. */
  lemma LoadMoreIdempotent(s: Screen)
    ensures LoadMore(LoadMore(s)) == LoadMore(s)
  {
  }

  /** A failed reset fetch always ends on the error view, because the reset
      emptied the list before the call was made. */
  lemma ResetFailureShowsError(s: Screen, message: string)
    requires message != ""
    ensures ViewOf(Settle(Begin(s, true), RequestOf(s, true), Failure(message))) == ErrorView(message)
  {
  }

  /** A reset on a list that is showing empties it and brings back the
      loading view: the screen does regress from its list. */
  lemma ResetShowsLoading(s: Screen)
    ensures ViewOf(Begin(s, true)) == LoadingView
    ensures ViewOf(Refresh(s)) == LoadingView
  {
  }

  /** An append fetch that fails leaves the list, and the list view, as
      they were. */
  lemma AppendFailureKeepsList(s: Screen, message: string)
    requires s.characters != []
    ensures Settle(s, RequestOf(s, false), Failure(message)).characters == s.characters
    ensures ViewOf(Settle(s, RequestOf(s, false), Failure(message))) == ListView
  {
  }
}
