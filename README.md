# Character list screen: a Dafny model of its state machine

The app is a single React Native screen. It lists characters from a
remote REST service and supports debounced search, infinite-scroll
pagination, pull-to-refresh, a reload/retry button and a grid whose column
count follows the viewport width. This project models the screen's state
and its event handlers. It leaves out the rendering and the network.

- `screen_model.dfy` (module `ScreenModel`) holds the state record
  `Screen`: `characters`, `loading`, `error`, `page`, `search`,
  `isFetchingMore`, `refreshing`, plus the debounce timer slot (`pending`,
  `nextToken`). It also holds the two pure selectors `NumColumns` and
  `ViewOf`, and each handler as a pure transition.
- The asynchronous fetch routine is split in two phases. The part before
  the network call is `Begin` (with the request it sends, `RequestOf`). The
  part when the call settles is `Settle`, covering the try, catch and
  finally blocks. The gap between the phases is the network call. The
  `reset` flag that the code's closure captures travels in the `Request`
  value.
- `screen_traces.dfy` (module `ScreenTraces`) defines events (typing, a
  timer running out, reload, pull-to-refresh, end of list reached, a call
  settling), their effect on the state (`Step`), the requests each one
  issues (`Fetches`, including the page effect), and runs of events (`Run`,
  `Requests`). It proves properties of whole runs.
- `screen_state.dfy` (module `ScreenState`) is the component as one object
  whose fields are updated in place. Class `CharacterScreen` has one method
  per event. Each method is proved to carry out the matching pure
  transition.

The debounce is modelled as a token slot. Each change of the search text
cancels the pending timer and schedules a new token. A timer whose token is
not the pending one never fires. As in React, typing the text that is
already current does not rerun the effect.

The error view follows JavaScript truthiness of the error field, so an empty
message does not show it.

The list is cleared at the start of every reset (app/index.tsx:30). A reload,
a retry, a pull-to-refresh or an expired search timer therefore empties a
list that was showing and brings back the loading view (`ResetShowsLoading`).
One might expect a loaded list never to return to the loading or error
view; the code does not behave that way, and the model follows the code. What does hold is proved as `LoadedStaysLoaded`: no run free of resets
takes a showing list away, whatever fails in between.

## Model

| member | source | states |
|---|---|---|
| ScreenModel.NumColumns | app/index.tsx:24 | 4 columns exactly when width > 900, 3 exactly when 600 < width ≤ 900, 2 exactly when width ≤ 600; always between 2 and 4 |
| ScreenModel.NumColumnsMonotone | app/index.tsx:24 | the column count never decreases as the width grows |
| ScreenModel.NumColumnsExamples | app/index.tsx:24 | widths 1000, 700 and 400 give 4, 3 and 2 columns |
| ScreenModel.Initial | app/index.tsx:15-21 | the mount state: empty list, loading, no error, page 1, empty search, both flags false; the first run of the search effect (:57-62) leaves a timer pending, and the first run of the page effect (:64-67) issues nothing |
| ScreenModel.ErrorShown | app/index.tsx:99 | the truthiness test on the error: null and the empty message are false, any non-empty message is true |
| ScreenModel.ViewOf | app/index.tsx:90-113 | exactly one of three views: loading iff loading and the list is empty; error (with the stored message) iff not loading, the list is empty and the error is truthy; the list otherwise |
| ScreenModel.InitialShowsLoading | app/index.tsx:15-21 | the state after mount satisfies the invariant and shows the loading view |
| ScreenModel.Begin | app/index.tsx:28-32 | a reset sets page 1, empties the list and sets loading, changing nothing else; a non-reset changes nothing |
| ScreenModel.RequestOf | app/index.tsx:34-37 | a reset requests page 1, a non-reset the current page, both with the current search text |
| ScreenModel.Settle | app/index.tsx:44-53 | afterwards loading, isFetchingMore and refreshing are false; success clears the error and sets the list to the results (reset) or to the old list followed by the results (append: old list is a prefix, length grows by the result count); failure stores the message and keeps the list; page, search and timer slot are untouched |
| ScreenModel.LoadMore | app/index.tsx:69-73 | a no-op while a page is being fetched; otherwise sets isFetchingMore and advances the page by exactly 1, changing nothing else |
| ScreenModel.LoadMoreIdempotent | app/index.tsx:69-73 | two loadMore calls with no settle between act as one |
| ScreenModel.PageEffect | app/index.tsx:64-67 | an append fetch of the new page with the current text exactly when the page is not 1 |
| ScreenModel.SearchChanged | app/index.tsx:57-62 | the text becomes the new one; an unchanged text changes nothing; a changed text replaces the pending timer with a freshly issued token |
| ScreenModel.TimerExpired | app/index.tsx:58-60 | only the pending timer fires, consuming the slot and starting a reset; any other token changes nothing |
| ScreenModel.Refresh | app/index.tsx:75-78 | sets refreshing, then does what a reset begin does, changing nothing else |
| ScreenModel.ResetFailureShowsError | app/index.tsx:30 | a reset whose call fails with a non-empty message always ends on the error view with that message |
| ScreenModel.ResetShowsLoading | app/index.tsx:28-32 | a reset or pull-to-refresh empties the list and shows the loading view, whatever was showing |
| ScreenModel.AppendFailureKeepsList | app/index.tsx:48-53 | a failed append keeps the existing list and the list view |
| ScreenTraces.Step | app/index.tsx:119-142 | each control runs its handler (search box :119, retry :105 and reload :124 buttons, end reached :134, pull-to-refresh :142, timer :58-60, settle :44-53); every step keeps the invariant; reload and refresh leave an empty list on page 1 while loading; events that neither start nor complete a reset keep the old list as a prefix; only end reached can move the page anywhere but 1 |
| ScreenTraces.Direct | app/index.tsx:57-78 | the fetch a handler calls itself (timer :59, refresh :77, retry :105, reload :124): at most one, always a page-1 reset with the current text; reload and refresh always make one, a timer exactly when it is the pending one; typing, end reached and settles make none |
| ScreenTraces.FetchesShape | app/index.tsx:64-67 | each event issues at most one request; the page effect runs only after a render that changed the page (the `[page]` dependency), so only end reached adds an append, of the next page and exactly when no page fetch is in progress; every other event issues just its handler's own fetch |
| ScreenTraces.RunPreservesValid | app/index.tsx:26-78 | every run of events keeps page ≥ 1 and keeps the pending timer the most recently scheduled one |
| ScreenTraces.ReachableIsValid | app/index.tsx:15-21 | every state reachable from mount satisfies that invariant |
| ScreenTraces.PageOneIssuesNoAppend | app/index.tsx:64-67 | an event that leaves the page at 1 issues only page-1 reset requests, never an append |
| ScreenTraces.ResetRequestsPageOne | app/index.tsx:35-37 | every request a reload, refresh or timer issues is a reset of page 1 with the current text, and its success replaces the list with the results |
| ScreenTraces.TypingOnlySchedules | app/index.tsx:57-62 | typing issues no request, touches only the search text and timer slot, leaves the last text typed, and after any change the pending timer is the newest token |
| ScreenTraces.QuietPeriodFetchesLatest | app/index.tsx:57-62 | after a non-empty burst of typing that scheduled at least one timer (including one that ends on the starting text), exactly one timer is pending; it starts one reset fetch with the last text; every other token does nothing |
| ScreenTraces.OnlyLatestTimerFires | app/index.tsx:58-61 | in every reachable state a timer other than the latest scheduled one does nothing and issues nothing |
| ScreenTraces.EndReachedWhileFetchingIsIgnored | app/index.tsx:70 | while a page is being fetched, reaching the end any number of times changes nothing and issues nothing |
| ScreenTraces.RepeatedEndReachedFetchesOnce | app/index.tsx:64-73 | reaching the end n ≥ 1 times before a settle advances the page once and issues exactly one append fetch, for the next page |
| ScreenTraces.KeepingRunExtendsList | app/index.tsx:44-46 | in a run with no reset the old list stays a prefix of the list |
| ScreenTraces.LoadedStaysLoaded | app/index.tsx:90-113 | in a run with no reset a non-empty list keeps the list view, whatever fails |
| ScreenTraces.TypedThen | app/index.tsx:57-62 | in any run, typing a text other than the current one sets the text, schedules the next token as the one pending timer and issues no request; the rest of the run continues from there |
| ScreenTraces.TimerThen | app/index.tsx:26-60 | in any run, the pending timer firing clears the slot, empties the list, sets page 1 and loading, and issues one page-1 reset request with the current text |
| ScreenTraces.SettledThen | app/index.tsx:44-53 | in any run, a call settling changes the state exactly as Settle does and issues no request |
| ScreenTraces.EndReachedThen | app/index.tsx:64-73 | in any run, reaching the end while no page fetch is in progress sets isFetchingMore, advances the page by one and issues one append request for that page with the current text |
| ScreenTraces.MountPhase | app/index.tsx:57-60 | on a fresh screen the mount timer requests page 1 with the empty text; when that page arrives it becomes the list, with nothing loading, no error and no timer pending; any later events run from that state |
| ScreenTraces.SearchPhase | app/index.tsx:44-62 | from the empty text with timer 1 next, typing "Rick", its timer and its page-1 results request page 1 with "Rick" and replace the list with those results, on page 1 with no timer pending |
| ScreenTraces.ScrollPhase | app/index.tsx:44-73 | on page 1 with no page fetch in progress, reaching the end and the page-2 results request page 2 and append those results to the list, ending on page 2 with every flag false and no error |
| ScreenTraces.RickScenario | app/index.tsx:26-73 | after the mount fetch shows a non-empty first page, the search box (list view) takes "Rick", its timer fetches a 20-item page 1 that replaces the list, the end of the (still shown) list is reached and a 20-item page 2 is appended: requests are page 1 with "", page 1 then page 2 with "Rick", leaving 40 items in order, no error, no loading, page 2 |
| ScreenTraces.FirstPageFailureScenario | app/index.tsx:99-111 | a failed first page on a fresh screen leaves the list empty and shows the error view with the message for a status that is not ok |
| ScreenState.CharacterScreen.constructor | app/index.tsx:15-21 | the fields start at their initial values, with the first search timer scheduled |
| ScreenState.CharacterScreen.BeginFetch | app/index.tsx:26-37 | updates the fields as `Begin` and returns the request of `RequestOf` |
| ScreenState.CharacterScreen.CompleteSuccess | app/index.tsx:44-53 | updates the fields as `Settle` with the results: replace or append, error cleared, all three flags false |
| ScreenState.CharacterScreen.CompleteFailure | app/index.tsx:48-53 | updates the fields as `Settle` with the message: list kept, error set, all three flags false |
| ScreenState.CharacterScreen.LoadMore | app/index.tsx:69-73 | updates the fields as `LoadMore` |
| ScreenState.CharacterScreen.PageChanged | app/index.tsx:64-67 | returns the page effect's append request, none exactly on page 1, changing no field |
| ScreenState.CharacterScreen.OnRefresh | app/index.tsx:75-78 | updates the fields as `Refresh` and returns the page-1 reset request |
| ScreenState.CharacterScreen.OnSearchChange | app/index.tsx:57-62 | updates the fields as `SearchChanged` |
| ScreenState.CharacterScreen.OnTimerFired | app/index.tsx:57-62 | updates the fields as `TimerExpired` and returns a reset request exactly when the token was the pending one; any token but the newest returns none and changes nothing |

## Left out

- The HTTP call, URL building and JSON decoding (app/index.tsx:34-42) are
  network I/O. A call settles as `Success(results)` or `Failure(message)`.
  A status that is not ok is `Failure(NotOkMessage)`.
- Real time: the 500 ms delay and `setTimeout`/`clearTimeout` are
  abstracted to the pending-token slot.
- React's batching and stale closures. Each event handler sees the state left
  by the previous event, as if the screen re-rendered after every event.
  Two `loadMore` calls inside a single render would both see
  `isFetchingMore` false in the code. The functional `setPage(prev => prev + 1)`
  would then run twice, so the page advances by 2. The page effect runs once
  after that render and fetches only the later page, so one page is skipped.
  `LoadMoreIdempotent`, `EndReachedWhileFetchingIsIgnored` and
  `RepeatedEndReachedFetchesOnce` hold under the one-render-per-event
  assumption only.
- Which controls are on screen. `Step` and `Run` accept every event in
  every state. In the code, the search box, the reload button and the list
  (end reached, pull-to-refresh) exist only in the list view (:113-147), and
  the retry button only in the error view (:99-111). The model therefore
  allows more runs than the screen does. Lemmas about all runs stay sound
  under this; the scenario lemmas use runs in which every control is on
  screen when it is used.
- Races between calls. A `Settled` event may carry any request in any
  order, since the code has no cancellation. No ordering guarantee is
  assumed or proved. No generation counter discards stale replies; the code
  has none, so none is modelled.
- `Dimensions.get`, `renderItem`, the JSX trees, the `FlatList` props
  (end-reached threshold, `key={numColumns}` remount) and the style sheet
  are presentation or library behaviour.
- Character attributes other than `id` are opaque.
- The viewport width is a mathematical real, so JavaScript
  special values such as NaN are not modelled.
