# Image search and login screens, modelled in Dafny

This project models the two pieces of in-app logic of a two-screen React Native
client:

- the **home screen** (`src/screens/HomePage.tsx`): an image-search controller
  that keeps a query, the accumulated list of hits, an error message, loading
  flags, a page counter, an end-of-results flag and a list of recent searches,
  and changes them through the handlers `handleSearch`, `loadMoreImages`,
  `clearSearch`, `handleInputChange`, `handleHistorySelect`,
  `fetchSearchHistory` and `saveSearchHistory`;
- the **login screen** (`src/screens/LoginPage.tsx`): the Gmail address check,
  the login and sign-up handlers, the mode toggle and the submit button.

Files:

- `wrappers.dfy` — `Option`.
- `history.dfy` — module `SearchHistory`: the recent-searches list as a pure
  function (`Record` = the query in front of the old list without it, cut to
  five) and its properties: bounded, query first and only once, order of the
  others kept, no duplicates kept, idempotent.
- `home_page.dfy` — module `HomePage`: the screen state as a value
  (`ScreenState`), each handler as a transition function on it (`Search`,
  `LoadMore`, `Clear`, `InputChange`, `HistorySelect`, `LoadHistory`,
  `SaveHistory`), and class `Screen` whose fields are the screen's `useState`
  variables and whose methods update them step by step in the order the source
  does; each method is proved to produce exactly the transition function's
  result.
- `pagination.dfy` — module `Pagination`: what sequences of events guarantee
  (the list is the concatenation of the pages fetched since the last new
  search, the page counter counts those fetches, scrolling past the end does
  nothing, every event keeps the screen settled) and the three-page example.
- `login_page.dfy` — module `LoginPage`: `IsGmail`, the handlers as decision
  functions returning the new form, the alert or navigation shown, and whether
  the remote service was called; class `Screen` with the form's fields.

External collaborators are parameters: the image-search call is a
`FetchOutcome` (`Ok(results, totalPages)` or `Failure`; `Ok` with no hits is the
"No images found." branch), the history write is a boolean `writeOk`, the
history read is an `Option<seq<string>>` (None for a missing, unreadable or
unparsable value), and the login and registration calls are a `Reply`
(`Returned(bool)` or `Threw`). Alerts and navigation are output values
(`Effect`). Each handler is one atomic step.

The model follows the code, including these behaviours:

- a failed fetch does not leave `hasMore` as it was before the search: a reset
  search has already set it to true;
- `loadMoreImages` increments the page before the fetch runs, and a failed
  fetch leaves the incremented page in place (the next scroll asks for the page
  after it);
- the in-flight flag `loadingMore` is set and cleared within the handler, so
  between handlers it is always false and only `hasMore` guards scrolling;
- a zero-result search does not record the query in the history (the record
  happens only in the branch with hits), and a zero-result page fetched by a
  scroll still sets the "No images found." message although the list is not
  empty;
- a search that is not a reset fetches the page number it is given, not a page
  kept in the state.

## Model

| member | source | states |
|---|---|---|
| SearchHistory.Without | src/screens/HomePage.tsx:70 | the filtered history holds every old entry other than the query as often as before and the query not at all, and is no longer than the old one |
| SearchHistory.Record | src/screens/HomePage.tsx:70-72 | the new history has 1 to 5 entries, the query first and nowhere else, every other entry comes from the old history, a history shorter than 5 loses nothing, and the length is min(5, 1 + the others) with the newest others kept in order, so a full list drops its oldest entries |
| SearchHistory.WithoutIsSubsequence | src/screens/HomePage.tsx:70 | filtering keeps the remaining entries in their original order |
| SearchHistory.RecordKeepsOrder | src/screens/HomePage.tsx:70-71 | the entries after the query keep their relative order from the old history |
| SearchHistory.WithoutKeepsDistinct | src/screens/HomePage.tsx:70 | filtering a duplicate-free history leaves it duplicate-free |
| SearchHistory.RecordKeepsDistinct | src/screens/HomePage.tsx:70-71 | recording into a duplicate-free history gives a duplicate-free history |
| SearchHistory.WithoutAbsent | src/screens/HomePage.tsx:70 | filtering out a query that is not there changes nothing |
| SearchHistory.RecordIdempotent | src/screens/HomePage.tsx:70-71 | recording a query twice equals recording it once |
| SearchHistory.RecordRepeatedly | src/screens/HomePage.tsx:70-71 | a query recorded n >= 1 times in a row is at the front exactly once and the list equals a single recording |
| SearchHistory.RecordExample | src/screens/HomePage.tsx:70-71 | recording "b" into ["a","b","c"] gives ["b","a","c"] |
| SearchHistory.RecordFullExample | src/screens/HomePage.tsx:70-71 | recording "z" into ["a","b","c","d","e"] gives ["z","a","b","c","d"] |
| HomePage.RequestFor | src/screens/HomePage.tsx:47-49 | a request goes out iff the query is non-empty, for that query, the given page and 5 hits per page |
| HomePage.LoadHistory | src/screens/HomePage.tsx:25-34 | a stored list replaces the history; a missing or unreadable one leaves the state unchanged; no other field changes |
| HomePage.SaveHistory | src/screens/HomePage.tsx:68-76 | a successful write makes the history the recorded list (query first, once, at most 5 entries); a failed write leaves the state unchanged; no other field changes |
| HomePage.Search | src/screens/HomePage.tsx:36-66 | empty query changes nothing; otherwise loading and suggestions end false and a reset sets page 1; hits replace (reset) or extend the list in order, clear the error, set hasMore to totalPages > pageNumber and record the query if the write succeeds; no hits give "No images found.", hasMore false and only the reset's clearing; failure gives "Error fetching images" with list and hasMore at their post-reset values |
| HomePage.LoadMore | src/screens/HomePage.tsx:91-101 | without more pages (or while loading more) nothing changes; otherwise the result is exactly the page bump followed by a non-reset search for the new page, so the page goes up by exactly 1 even if the query is empty or the fetch fails, loadingMore ends false, the page's hits are appended, a failure keeps hasMore true |
| HomePage.Clear | src/screens/HomePage.tsx:84-89 | query, list and error emptied, suggestions closed; page, hasMore, history and loading flags untouched |
| HomePage.InputChange | src/screens/HomePage.tsx:103-110 | the text becomes the query and suggestions show iff it is non-empty; nothing else changes |
| HomePage.HistorySelect | src/screens/HomePage.tsx:78-82 | picking a suggestion sets the query to it and closes the suggestions; with hits, the list is exactly the new hits and the picked query is recorded |
| HomePage.HistorySelectAsWritten | src/screens/HomePage.tsx:78-82 | as the code runs: the picked text lands in the box, but with hits it is the previously typed query that gets recorded |
| HomePage.HistorySelectSearchesStaleQuery | src/screens/HomePage.tsx:78-82 | with "ca" typed and "cats" picked, the code fetches and records "ca", while the intended handler records "cats" |
| HomePage.Screen.constructor | src/screens/HomePage.tsx:11-19 | the fields start as the initial state (empty query and list, page 1, hasMore true, nothing loading) |
| HomePage.Screen.FetchSearchHistory | src/screens/HomePage.tsx:25-34 | the fields end as LoadHistory of the old state |
| HomePage.Screen.SaveSearchHistory | src/screens/HomePage.tsx:68-76 | the fields end as SaveHistory of the old state |
| HomePage.Screen.HandleSearch | src/screens/HomePage.tsx:36-66 | the fields end as Search of the old state, and the request issued is RequestFor the old query and given page |
| HomePage.Screen.HandleHistorySelect | src/screens/HomePage.tsx:78-82 | the fields end as HistorySelect of the old state; the request is for the picked query, page 1 |
| HomePage.Screen.ClearSearch | src/screens/HomePage.tsx:84-89 | the fields end as Clear of the old state |
| HomePage.Screen.LoadMoreImages | src/screens/HomePage.tsx:91-101 | the fields end as LoadMore of the old state; a request for the old page + 1 goes out only when more pages remain and the query is non-empty |
| HomePage.Screen.HandleInputChange | src/screens/HomePage.tsx:103-110 | the fields end as InputChange of the old state |
| Pagination.LoadMoreRunAppends | src/screens/HomePage.tsx:91-101 | after any number of scrolls the list is the old list followed by the hits of every fetch issued, in order, and the page grew by the number of fetches issued |
| Pagination.ExhaustedRunIsNoOp | src/screens/HomePage.tsx:91-92 | once hasMore is false, any number of scrolls changes nothing and issues no fetch |
| Pagination.SessionListsFetchedPages | src/screens/HomePage.tsx:40-55 | after a new search and any scrolls, the list is exactly the hits of page 1 and of each later fetch, in order, and the page is 1 plus the fetches issued |
| Pagination.CatsScenario | src/screens/HomePage.tsx:51-55 | pages of 5, 5 and 3 hits out of 3: 5 images with more, then 10 on page 2 with more, then 13 on page 3 with no more, and "cats" heads the history |
| Pagination.InitialIsSettled | src/screens/HomePage.tsx:11-19 | the initial state is settled |
| Pagination.SearchKeepsSettled | src/screens/HomePage.tsx:36-76 | a search keeps the page positive and the history at most 5 entries without duplicates, and ends with nothing loading |
| Pagination.HandleKeepsSettled | src/screens/HomePage.tsx:21-166 | every event the screen wires (mount, submit, typing, picking, end of list) and the clear handler, which is defined but wired to no element, keep it settled, given a stored history the screen could have written |
| Pagination.HistorySelectAsWrittenKeepsSettled | src/screens/HomePage.tsx:78-82 | the picking handler as the code runs it also keeps the screen settled |
| LoginPage.IsGmail | src/screens/LoginPage.tsx:16-18 | an accepted address is at least as long as "@gmail.com" and is its local part followed by "@gmail.com" |
| LoginPage.IsGmailIffEndsWith | src/screens/LoginPage.tsx:16-18 | the check holds iff the address is some string followed by "@gmail.com", so an accepted address is non-empty |
| LoginPage.Login | src/screens/LoginPage.tsx:21-44 | a non-Gmail address alerts "Invalid Email" and changes nothing; the service is called iff the address is Gmail and the password non-empty; otherwise "Please enter both..." ; true navigates to Home, false alerts "Login Failed", an exception "Login Error"; loading ends false; navigation happens iff the service said true |
| LoginPage.SignUp | src/screens/LoginPage.tsx:47-71 | a non-Gmail address alerts "Invalid Email"; an empty password alerts "SignUp Failed" with no call and no change; the service is called iff Gmail and password non-empty; true and false both show "SignUp Successful", an exception "SignUp Error"; only true leaves sign-up mode; loading ends false after a call |
| LoginPage.Toggle | src/screens/LoginPage.tsx:103-107 | the mode flips and both credentials become empty |
| LoginPage.ToggleTwice | src/screens/LoginPage.tsx:103-107 | toggling twice restores the mode with empty credentials |
| LoginPage.Press | src/screens/LoginPage.tsx:94-98 | while loading the button does nothing; otherwise it runs the sign-up handler iff in sign-up mode, else the login handler |
| LoginPage.PressLeavesIdle | src/screens/LoginPage.tsx:94-98 | a press on an enabled button leaves it enabled |
| LoginPage.SignUpThenLogin | src/screens/LoginPage.tsx:56-59 | after an accepted sign-up the next press logs in with the same credentials |
| LoginPage.LoginRejectsForeignAddress | src/screens/LoginPage.tsx:22-25 | a login with an "@example.com" address alerts "Invalid Email", calls nothing and changes nothing |
| LoginPage.Screen.constructor | src/screens/LoginPage.tsx:10-13 | the form starts empty, in login mode, not loading |
| LoginPage.Screen.SetUsername | src/screens/LoginPage.tsx:81 | only the username changes |
| LoginPage.Screen.SetPassword | src/screens/LoginPage.tsx:88 | only the password changes |
| LoginPage.Screen.HandleLogin | src/screens/LoginPage.tsx:21-44 | the fields, alert and call flag are those of Login on the old form |
| LoginPage.Screen.HandleSignUp | src/screens/LoginPage.tsx:47-71 | the fields, alert and call flag are those of SignUp on the old form |
| LoginPage.Screen.ToggleMode | src/screens/LoginPage.tsx:102-107 | the fields end as Toggle of the old form |
| LoginPage.Screen.PressSubmit | src/screens/LoginPage.tsx:94-98 | the fields, alert and call flag are those of Press on the old form |

## Left out

- Rendering, styles, the list's end-of-list threshold, the keyboard and the alert dialogs: only the alert's title and message and the navigation target are modelled, as values.
- The HTTP call to the image-search service (URL building, the access key, `fetch`, JSON decoding): a `FetchOutcome` parameter. A response without a `results` field is the same as one with no hits.
- The key-value store and JSON encoding of the history: an `Option<seq<string>>` for the read and a boolean for the write. A stored value of another shape than a list of strings is not modelled.
- The login and registration clients in `src/controler/ServiceManager.tsx` are not part of this model: their answers are a `Reply`. Those clients catch their own errors and return false, so `Threw` is an input they never produce.
- React scheduling: batched and asynchronous state updates, overlapping requests and late responses are not modelled; each handler is one atomic step. The one place where this changes the observable result, the history pick, is reported under Findings.
- The `navigation` object and `src/App.tsx`: navigation is an output value `Navigate("Home")`.
- HandleKeepsSettled: the history bound and "no duplicates" are proved only for stored histories of at most five distinct entries, because the load accepts whatever list is stored.

## Findings

| source | as written | input that shows it | evidently intended | confidence | as-written member | corrected member |
|---|---|---|---|---|---|---|
| src/screens/HomePage.tsx:78-82 | `handleHistorySelect` queues the picked query and then calls the `handleSearch` of the same render, which still reads the query typed before the pick | "ca" typed, "cats" picked, the service returns one hit: "ca" is fetched and recorded, "cats" only shows in the search box | fetch and record the picked query | high under React's closure semantics; not executed | HomePage.HistorySelectAsWritten | HomePage.HistorySelect |
