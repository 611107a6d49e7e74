/** Sequences of user, timer and network events applied to the screen, the
    requests they issue, and properties of whole runs. Nothing orders the
    settling of calls: a Settled event may carry any request, in any order,
    as the code has no cancellation. */
module ScreenTraces {
  import opened ScreenModel

  datatype Event =
    | Typed(text: string)                   // the search box changed
    | TimerFired(token: nat)                // a debounce timer ran out
    | Reload                                // the reload or retry button
    | PullToRefresh                         // the pull-to-refresh gesture
    | EndReached                            // the list was scrolled near its end
    | Settled(req: Request, outcome: Outcome) // a call started earlier settled

  /** The state after one event. */
  function Step(s: Screen, e: Event): (r: Screen)
    ensures Valid(s) ==> Valid(r)
    ensures e.Reload? || e.PullToRefresh? ==> r.characters == [] && r.page == 1 && r.loading
    ensures KeepsList(e) ==>
      |s.characters| <= |r.characters| && r.characters[..|s.characters|] == s.characters
    ensures !e.EndReached? && r.page != s.page ==> r.page == 1
  {
    match e
    case Typed(text) => SearchChanged(s, text)
    case TimerFired(token) => TimerExpired(s, token)
    case Reload => Begin(s, true)
    case PullToRefresh => Refresh(s)
    case EndReached => LoadMore(s)
    case Settled(req, out) => Settle(s, req, out)
  }

  /** The reset fetch a handler starts itself, if it starts one. */
  function Direct(s: Screen, e: Event): (qs: seq<Request>)
    ensures |qs| <= 1
    ensures forall q :: q in qs ==> q == Request(true, 1, s.search)
    ensures e.Reload? || e.PullToRefresh? ==> |qs| == 1
    ensures e.TimerFired? ==> (|qs| == 1 <==> s.pending == Some(e.token))
    ensures e.Typed? || e.EndReached? || e.Settled? ==> qs == []
  {
    match e
    case TimerFired(token) => if s.pending == Some(token) then [RequestOf(s, true)] else []
    case Reload => [RequestOf(s, true)]
    case PullToRefresh => [RequestOf(s, true)]
    case _ => []
  }

  /** Every request one event issues: the handler's own, then the page
      effect's when the event changed the page. */
  function Fetches(s: Screen, e: Event): (qs: seq<Request>)
  {
    var r := Step(s, e);
    Direct(s, e) +
      if r.page == s.page then []
      else match PageEffect(r) case Some(q) => [q] case None => []
  }

  /** Each event issues at most one request. The page effect adds one only
      after end reached, for the next page and only when no page fetch is in
      progress; every other event issues just the fetch its handler starts
      itself. */
  lemma FetchesShape(s: Screen, e: Event)
    ensures |Fetches(s, e)| <= 1
    ensures !e.EndReached? ==> Fetches(s, e) == Direct(s, e)
    ensures e.EndReached? && s.page >= 1 ==>
      Fetches(s, e) == if s.isFetchingMore then [] else [Request(false, s.page + 1, s.search)]
  {
  }

  function Run(s: Screen, es: seq<Event>): (r: Screen)
    decreases |es|
  {
    if es == [] then s else Run(Step(s, es[0]), es[1..])
  }

  /** The requests a run issues, in order. */
  function Requests(s: Screen, es: seq<Event>): (qs: seq<Request>)
    decreases |es|
  {
    if es == [] then [] else Fetches(s, es[0]) + Requests(Step(s, es[0]), es[1..])
  }

  function Repeat(e: Event, n: nat): (es: seq<Event>)
    ensures |es| == n
  {
    if n == 0 then [] else [e] + Repeat(e, n - 1)
  }

  function TypingOf(texts: seq<string>): (es: seq<Event>)
    ensures |es| == |texts|
  {
    if texts == [] then [] else [Typed(texts[0])] + TypingOf(texts[1..])
  }

  /** Events that neither start nor complete a reset. */
  predicate KeepsList(e: Event)
  {
    e.Typed? || e.EndReached? || (e.Settled? && !e.req.reset)
  }

  // ---------------------------------------------------------------------
  // Invariants of every run

  lemma {:induction false} RunPreservesValid(s: Screen, es: seq<Event>)
    requires Valid(s)
    ensures Valid(Run(s, es))
    decreases |es|
  {
    if es != [] {
      RunPreservesValid(Step(s, es[0]), es[1..]);
    }
  }

  /** Every reachable state satisfies Valid. */
  lemma ReachableIsValid(es: seq<Event>)
    ensures Valid(Run(Initial(), es))
  {
    RunPreservesValid(Initial(), es);
  }

  /** An event that leaves the page at 1 issues no append fetch: resetting
      to page 1 never triggers an append. */
  lemma PageOneIssuesNoAppend(s: Screen, e: Event)
    requires Step(s, e).page == 1
    ensures forall q :: q in Fetches(s, e) ==> q.reset && q.page == 1
  {
  }

  /** A reset fetch is always a request for page 1 that replaces the list
      when it succeeds. */
  lemma ResetRequestsPageOne(s: Screen, e: Event, results: seq<Character>)
    requires e.Reload? || e.PullToRefresh? || e.TimerFired?
    ensures forall q :: q in Fetches(s, e) ==>
      q == Request(true, 1, s.search) &&
      Settle(Step(s, e), q, Success(results)).characters == results
  {
  }

  // ---------------------------------------------------------------------
  // Debounce

  /** Typing only touches the search text and the timer slot, issues no
      request, leaves the text last typed, and after any change the pending
      timer is the last one scheduled. */
  lemma {:induction false} TypingOnlySchedules(s: Screen, texts: seq<string>)
    ensures Requests(s, TypingOf(texts)) == []
    ensures var r := Run(s, TypingOf(texts));
      r.(search := s.search, pending := s.pending, nextToken := s.nextToken) == s &&
      r.search == (if texts == [] then s.search else texts[|texts| - 1]) &&
      r.nextToken >= s.nextToken &&
      (r.nextToken == s.nextToken ==> r.pending == s.pending && r.search == s.search) &&
      (r.nextToken > s.nextToken ==> r.pending == Some(r.nextToken - 1))
    decreases |texts|
  {
    if texts != [] {
      var es := TypingOf(texts);
      assert es[0] == Typed(texts[0]) && es[1..] == TypingOf(texts[1..]);
      TypingOnlySchedules(SearchChanged(s, texts[0]), texts[1..]);
    }
  }

  /** After a burst of typing that scheduled a timer, exactly one timer is
      pending; when it fires it starts a single reset fetch with the text
      typed last, and every earlier timer is stale. */
  lemma QuietPeriodFetchesLatest(s: Screen, texts: seq<string>, stale: nat)
    requires Run(s, TypingOf(texts)).nextToken > s.nextToken
    ensures texts != []
    ensures var r := Run(s, TypingOf(texts));
      r.pending.Some? && r.pending.value + 1 == r.nextToken &&
      Fetches(r, TimerFired(r.pending.value)) == [Request(true, 1, texts[|texts| - 1])] &&
      (stale != r.pending.value ==>
         Step(r, TimerFired(stale)) == r && Fetches(r, TimerFired(stale)) == [])
  {
    TypingOnlySchedules(s, texts);
  }

  /** In every reachable state only the most recently scheduled timer can
      start a fetch. */
  lemma OnlyLatestTimerFires(es: seq<Event>, token: nat)
    requires token + 1 != Run(Initial(), es).nextToken
    ensures var r := Run(Initial(), es);
      Step(r, TimerFired(token)) == r && Fetches(r, TimerFired(token)) == []
  {
    ReachableIsValid(es);
  }

  // ---------------------------------------------------------------------
  // Pagination

  lemma {:induction false} EndReachedWhileFetchingIsIgnored(s: Screen, n: nat)
    requires s.isFetchingMore
    ensures Run(s, Repeat(EndReached, n)) == s
    ensures Requests(s, Repeat(EndReached, n)) == []
    decreases n
  {
    if n > 0 {
      var es := Repeat(EndReached, n);
      assert es[1..] == Repeat(EndReached, n - 1);
      EndReachedWhileFetchingIsIgnored(s, n - 1);
    }
  }

  /** Reaching the end any number of times before the page fetch settles
      advances the page once and issues exactly one append fetch. */
  lemma RepeatedEndReachedFetchesOnce(s: Screen, n: nat)
    requires Valid(s) && !s.isFetchingMore && n >= 1
    ensures Run(s, Repeat(EndReached, n)) == s.(isFetchingMore := true, page := s.page + 1)
    ensures Requests(s, Repeat(EndReached, n)) == [Request(false, s.page + 1, s.search)]
  {
    var es := Repeat(EndReached, n);
    assert es[0] == EndReached && es[1..] == Repeat(EndReached, n - 1);
    EndReachedWhileFetchingIsIgnored(LoadMore(s), n - 1);
  }

  // ---------------------------------------------------------------------
  // The list across runs

  /** Without a reset, the list only grows at its end: what was shown
      stays a prefix of what is shown. */
  lemma {:induction false} KeepingRunExtendsList(s: Screen, es: seq<Event>)
    requires forall i :: 0 <= i < |es| ==> KeepsList(es[i])
    ensures |s.characters| <= |Run(s, es).characters|
    ensures Run(s, es).characters[..|s.characters|] == s.characters
    decreases |es|
  {
    if es != [] {
      var t := Step(s, es[0]);
      assert |s.characters| <= |t.characters| && t.characters[..|s.characters|] == s.characters;
      KeepingRunExtendsList(t, es[1..]);
      var u := Run(t, es[1..]).characters;
      assert u[..|s.characters|] == u[..|t.characters|][..|s.characters|];
    }
  }

  /** Once the list is showing, no run without a reset takes it away,
      whatever fails in between. */
  lemma LoadedStaysLoaded(s: Screen, es: seq<Event>)
    requires s.characters != []
    requires forall i :: 0 <= i < |es| ==> KeepsList(es[i])
    ensures ViewOf(Run(s, es)) == ListView
  {
    KeepingRunExtendsList(s, es);
  }

  // ---------------------------------------------------------------------
  // Scenarios

  /** The mount timer runs out and its first page arrives. */
  function MountRun(init: seq<Character>): (es: seq<Event>)
    ensures |es| == 2
  {
    [TimerFired(0), Settled(Request(true, 1, ""), Success(init))]
  }

  /** "Rick" is typed into the search box, its timer runs out and its first
      page arrives. */
  function SearchRun(first: seq<Character>): (es: seq<Event>)
    ensures |es| == 3
  {
    [Typed("Rick"), TimerFired(1), Settled(Request(true, 1, "Rick"), Success(first))]
  }

  /** The end of the list is reached and the second page arrives. */
  function ScrollRun(second: seq<Character>): (es: seq<Event>)
    ensures |es| == 2
  {
    [EndReached, Settled(Request(false, 2, "Rick"), Success(second))]
  }

  /** Typing a new text schedules a new timer and issues nothing. */
  lemma TypedThen(s: Screen, text: string, rest: seq<Event>)
    requires text != s.search
    ensures var t := s.(search := text, pending := Some(s.nextToken), nextToken := s.nextToken + 1);
      Run(s, [Typed(text)] + rest) == Run(t, rest) &&
      Requests(s, [Typed(text)] + rest) == Requests(t, rest)
  {
    var es := [Typed(text)] + rest;
    assert es[0] == Typed(text) && es[1..] == rest;
    FetchesShape(s, Typed(text));
  }

  /** The pending timer firing starts a reset fetch with the current text. */
  lemma TimerThen(s: Screen, rest: seq<Event>)
    requires s.pending.Some?
    ensures var t := s.(pending := None, page := 1, characters := [], loading := true);
      Run(s, [TimerFired(s.pending.value)] + rest) == Run(t, rest) &&
      Requests(s, [TimerFired(s.pending.value)] + rest) == [Request(true, 1, s.search)] + Requests(t, rest)
  {
    var e := TimerFired(s.pending.value);
    var es := [e] + rest;
    assert es[0] == e && es[1..] == rest;
    FetchesShape(s, e);
  }

  /** A call settling updates the state as Settle does and issues nothing. */
  lemma SettledThen(s: Screen, req: Request, out: Outcome, rest: seq<Event>)
    ensures Run(s, [Settled(req, out)] + rest) == Run(Settle(s, req, out), rest)
    ensures Requests(s, [Settled(req, out)] + rest) == Requests(Settle(s, req, out), rest)
  {
    var es := [Settled(req, out)] + rest;
    assert es[0] == Settled(req, out) && es[1..] == rest;
    FetchesShape(s, Settled(req, out));
  }

  /** Reaching the end with no page fetch in progress fetches the next page. */
  lemma EndReachedThen(s: Screen, rest: seq<Event>)
    requires s.page >= 1 && !s.isFetchingMore
    ensures var t := s.(isFetchingMore := true, page := s.page + 1);
      Run(s, [EndReached] + rest) == Run(t, rest) &&
      Requests(s, [EndReached] + rest) == [Request(false, s.page + 1, s.search)] + Requests(t, rest)
  {
    var es := [EndReached] + rest;
    var t := s.(isFetchingMore := true, page := s.page + 1);
    assert es[0] == EndReached && es[1..] == rest;
    assert Step(s, EndReached) == t;
    assert PageEffect(t) == Some(Request(false, s.page + 1, s.search));
    assert Fetches(s, EndReached) == [Request(false, s.page + 1, s.search)];
  }

  /** On a fresh screen the mount timer fetches page 1 with the empty text;
      once that page arrives it is the list, with nothing loading, no error
      and no timer pending; whatever follows runs from there. */
  lemma MountPhase(init: seq<Character>, rest: seq<Event>)
    ensures var m := Screen(init, false, None, 1, "", false, false, None, 1);
      Run(Initial(), MountRun(init) + rest) == Run(m, rest) &&
      Requests(Initial(), MountRun(init) + rest) == [Request(true, 1, "")] + Requests(m, rest)
  {
    var e1 := Settled(Request(true, 1, ""), Success(init));
    var s1 := Screen([], true, None, 1, "", false, false, None, 1);
    assert MountRun(init) + rest == [TimerFired(0)] + ([e1] + rest);
    TimerThen(Initial(), [e1] + rest);
    SettledThen(s1, e1.req, e1.outcome, rest);
  }

  /** From a screen with the empty text, typing "Rick", its timer and its
      first page replace the list with that page. */
  lemma SearchPhase(s: Screen, first: seq<Character>, rest: seq<Event>)
    requires s.search == "" && s.nextToken == 1
    ensures var r := s.(characters := first, loading := false, error := None, page := 1,
                        search := "Rick", isFetchingMore := false, refreshing := false,
                        pending := None, nextToken := 2);
      Run(s, SearchRun(first) + rest) == Run(r, rest) &&
      Requests(s, SearchRun(first) + rest) == [Request(true, 1, "Rick")] + Requests(r, rest)
  {
    var e2 := Settled(Request(true, 1, "Rick"), Success(first));
    var s1 := s.(search := "Rick", pending := Some(1), nextToken := 2);
    var s2 := s1.(pending := None, page := 1, characters := [], loading := true);
    assert SearchRun(first) + rest == [Typed("Rick")] + ([TimerFired(1)] + ([e2] + rest));
    TypedThen(s, "Rick", [TimerFired(1)] + ([e2] + rest));
    TimerThen(s1, [e2] + rest);
    SettledThen(s2, e2.req, e2.outcome, rest);
  }

  /** From page 1 with no page fetch in progress, reaching the end fetches
      page 2 and its results are appended to the list. */
  lemma ScrollPhase(s: Screen, second: seq<Character>)
    requires s.page == 1 && !s.isFetchingMore && s.search == "Rick"
    ensures Run(s, ScrollRun(second)) ==
      s.(characters := s.characters + second, loading := false, error := None, page := 2,
         isFetchingMore := false, refreshing := false)
    ensures Requests(s, ScrollRun(second)) == [Request(false, 2, "Rick")]
  {
    var e1 := Settled(Request(false, 2, "Rick"), Success(second));
    var s1 := s.(isFetchingMore := true, page := 2);
    assert ScrollRun(second) == [EndReached] + ([e1] + []);
    EndReachedThen(s, [e1] + []);
    SettledThen(s1, e1.req, e1.outcome, []);
  }

  /** The state once the search for "Rick" has shown its first page. */
  function AfterSearch(first: seq<Character>): Screen
  {
    Screen(first, false, None, 1, "Rick", false, false, None, 2)
  }

  lemma MountThenSearch(init: seq<Character>, first: seq<Character>)
    ensures Run(Initial(), MountRun(init)) == Screen(init, false, None, 1, "", false, false, None, 1)
    ensures Run(Initial(), MountRun(init) + SearchRun(first)) == AfterSearch(first)
  {
    var m := Screen(init, false, None, 1, "", false, false, None, 1);
    assert Run(Initial(), MountRun(init)) == m by {
      assert MountRun(init) + [] == MountRun(init);
      MountPhase(init, []);
    }
    assert SearchRun(first) + [] == SearchRun(first);
    MountPhase(init, SearchRun(first));
    SearchPhase(m, first, []);
  }

  lemma MountSearchScroll(init: seq<Character>, first: seq<Character>, second: seq<Character>)
    ensures var es := MountRun(init) + SearchRun(first) + ScrollRun(second);
      Run(Initial(), es) == Run(AfterSearch(first), ScrollRun(second)) &&
      Requests(Initial(), es) ==
        [Request(true, 1, ""), Request(true, 1, "Rick")] + Requests(AfterSearch(first), ScrollRun(second))
  {
    var m := Screen(init, false, None, 1, "", false, false, None, 1);
    assert MountRun(init) + SearchRun(first) + ScrollRun(second) ==
           MountRun(init) + (SearchRun(first) + ScrollRun(second));
    MountPhase(init, SearchRun(first) + ScrollRun(second));
    SearchPhase(m, first, ScrollRun(second));
  }

  /** Searching "Rick" once the fresh screen shows its first page: the search
      box is on screen when it is typed into and the end of the list when it
      is reached; the first "Rick" page replaces the list and the second page
      of 20 is appended to it. */
  lemma RickScenario(init: seq<Character>, first: seq<Character>, second: seq<Character>)
    requires init != [] && |first| == 20 && |second| == 20
    ensures ViewOf(Run(Initial(), MountRun(init))) == ListView
    ensures ViewOf(Run(Initial(), MountRun(init) + SearchRun(first))) == ListView
    ensures var es := MountRun(init) + SearchRun(first) + ScrollRun(second);
      var r := Run(Initial(), es);
      Requests(Initial(), es) ==
        [Request(true, 1, ""), Request(true, 1, "Rick"), Request(false, 2, "Rick")] &&
      r.characters == first + second && |r.characters| == 40 &&
      r.error == None && !r.loading && !r.isFetchingMore && r.page == 2
  {
    MountThenSearch(init, first);
    MountSearchScroll(init, first, second);
    ScrollPhase(AfterSearch(first), second);
  }

  /** The first page fails on a fresh screen: the error view with its retry
      button is shown and the list stays empty. */
  lemma FirstPageFailureScenario()
    ensures var r := Run(Initial(), [TimerFired(0), Settled(Request(true, 1, ""), Failure(NotOkMessage))]);
      r.characters == [] && ViewOf(r) == ErrorView(NotOkMessage)
  {
    var es := [TimerFired(0), Settled(Request(true, 1, ""), Failure(NotOkMessage))];
    var s2 := Step(Step(Initial(), es[0]), es[1]);
    assert Run(s2, es[2..]) == s2;
    assert Run(Step(Initial(), es[0]), es[1..]) == s2;
  }
}
