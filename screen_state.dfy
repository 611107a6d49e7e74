/** The screen as the component holds it: one object whose fields the
    handlers update in place. Each method is specified by the pure
    transition of ScreenModel that it carries out. */
module ScreenState {
  import opened ScreenModel

  class CharacterScreen {
    var characters: seq<Character>
    var loading: bool
    var error: Option<string>
    var page: nat
    var search: string
    var isFetchingMore: bool
    var refreshing: bool
    var pending: Option<nat>
    var nextToken: nat

    /** The fields as one value. */
    function Model(): (m: Screen)
      reads this
    {
      Screen(characters, loading, error, page, search, isFetchingMore, refreshing, pending, nextToken)
    }

    /** The invariant of ScreenModel.Valid on the fields: pages count from 1
        and the pending timer is the newest one, so OnTimerFired can promise
        that every older token is ignored. */
    ghost predicate Valid()
      reads this
    {
      ScreenModel.Valid(Model())
    }

    /** Mounting: the initial field values, then the first run of the search
        effect, which schedules timer 0. */
    constructor ()
      ensures Valid() && Model() == Initial()
    {
      characters := [];
      loading := true;
      error := None;
      page := 1;
      search := "";
      isFetchingMore := false;
      refreshing := false;
      pending := Some(0);
      nextToken := 1;
      new;
      assert Model() == Screen([], true, None, 1, "", false, false, Some(0), 1);
    }

    /** The fetch routine up to its network call; the returned request is
        what the call asks for. */
    method BeginFetch(reset: bool) returns (req: Request)
      requires Valid()
      modifies this
      ensures Valid()
      ensures req == RequestOf(old(Model()), reset)
      ensures Model() == Begin(old(Model()), reset)
      ensures reset ==> page == 1 && characters == [] && loading
      ensures !reset ==> Model() == old(Model())
    {
      var current := page;
      if reset {
        page := 1;
        characters := [];
        loading := true;
      }
      req := Request(reset, if reset then 1 else current, search);
    }

    /** The call for `req` returned results. */
    method CompleteSuccess(req: Request, results: seq<Character>)
      requires Valid()
      modifies this
      ensures Valid()
      ensures Model() == Settle(old(Model()), req, Success(results))
      ensures characters == if req.reset then results else old(characters) + results
      ensures error == None && !loading && !isFetchingMore && !refreshing
    {
      if req.reset {
        characters := results;
      } else {
        characters := characters + results;
      }
      error := None;
      loading := false;
      isFetchingMore := false;
      refreshing := false;
    }

    /** The call for `req` failed with `message` (NotOkMessage for a status
        that is not ok). */
    method CompleteFailure(req: Request, message: string)
      requires Valid()
      modifies this
      ensures Valid()
      ensures Model() == Settle(old(Model()), req, Failure(message))
      ensures characters == old(characters) && error == Some(message)
      ensures !loading && !isFetchingMore && !refreshing
    {
      error := Some(message);
      loading := false;
      isFetchingMore := false;
      refreshing := false;
    }

    /** The list's end-reached handler. */
    method LoadMore()
      requires Valid()
      modifies this
      ensures Valid()
      ensures Model() == ScreenModel.LoadMore(old(Model()))
      ensures old(isFetchingMore) ==> Model() == old(Model())
      ensures !old(isFetchingMore) ==> isFetchingMore && page == old(page) + 1
    {
      if isFetchingMore {
        return;
      }
      isFetchingMore := true;
      page := page + 1;
    }

    /** The page effect, run after `page` changed: the append fetch it
        starts, if any. Starting it changes no field. */
    method PageChanged() returns (req: Option<Request>)
      ensures req == PageEffect(Model())
      ensures req.None? <==> page == 1
      ensures req.Some? ==> req.value == Request(false, page, search)
    {
      if page == 1 {
        return None;
      }
      req := Some(Request(false, page, search));
    }

    /** Pull-to-refresh. */
    method OnRefresh() returns (req: Request)
      requires Valid()
      modifies this
      ensures Valid()
      ensures Model() == Refresh(old(Model()))
      ensures req == Request(true, 1, search)
      ensures refreshing && loading && characters == [] && page == 1
    {
      refreshing := true;
      req := BeginFetch(true);
    }

    /** The search box changed. */
    method OnSearchChange(text: string)
      requires Valid()
      modifies this
      ensures Valid()
      ensures Model() == SearchChanged(old(Model()), text)
      ensures search == text
      ensures text != old(search) ==> pending == Some(old(nextToken))
    {
      if text == search {
        return;
      }
      search := text;
      pending := Some(nextToken);
      nextToken := nextToken + 1;
    }

    /** A debounce timer with `token` ran out; the reset fetch it starts, if
        it is still the pending one. */
    method OnTimerFired(token: nat) returns (req: Option<Request>)
      requires Valid()
      modifies this
      ensures Valid()
      ensures Model() == TimerExpired(old(Model()), token)
      ensures req.Some? <==> old(pending) == Some(token)
      ensures req.Some? ==> req.value == Request(true, 1, search)
      ensures token + 1 != old(nextToken) ==> req.None? && Model() == old(Model())
    {
      if pending != Some(token) {
        return None;
      }
      pending := None;
      var q := BeginFetch(true);
      req := Some(q);
    }
  }
}
