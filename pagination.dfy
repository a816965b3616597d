/** What sequences of handler calls on the home screen guarantee: the list is
    the concatenation of the pages fetched since the last new search, the page
    counter counts those fetches, and the screen's invariants survive every
    event the screen wires up. */
module Pagination {
  import opened Wrappers
  import opened SearchHistory
  import opened HomePage

  /** `LoadMore` applied once per outcome, in order. */
  function LoadMoreRun(s: ScreenState, outcomes: seq<FetchOutcome>, writeOk: bool): ScreenState
    decreases |outcomes|
  {
    if outcomes == [] then s
    else LoadMoreRun(LoadMore(s, outcomes[0], writeOk), outcomes[1..], writeOk)
  }

  /** The outcomes of the fetches such a run actually issues: a scroll while
      no more pages remain fetches nothing. */
  function Issued(s: ScreenState, outcomes: seq<FetchOutcome>, writeOk: bool): seq<FetchOutcome>
    decreases |outcomes|
  {
    if outcomes == [] then []
    else
      (if s.hasMore && !s.loadingMore then [outcomes[0]] else [])
      + Issued(LoadMore(s, outcomes[0], writeOk), outcomes[1..], writeOk)
  }

  /** The images a series of fetches delivers, in fetch order. */
  function Concat(outcomes: seq<FetchOutcome>): seq<Image>
    decreases |outcomes|
  {
    if outcomes == [] then [] else Delivered(outcomes[0]) + Concat(outcomes[1..])
  }

  lemma ConcatCons(o: FetchOutcome, rest: seq<FetchOutcome>)
    ensures Concat([o] + rest) == Delivered(o) + Concat(rest)
  {
  }

  /** Scrolling only appends: after any number of scrolls the list is the old
      list followed by the hits of every fetch issued, in order, and the page
      counter has gone up once per fetch issued. */
  lemma {:induction false} LoadMoreRunAppends(s: ScreenState, outcomes: seq<FetchOutcome>, writeOk: bool)
    requires s.query != ""
    ensures var t := LoadMoreRun(s, outcomes, writeOk);
            var issued := Issued(s, outcomes, writeOk);
            && t.images == s.images + Concat(issued)
            && t.page == s.page + |issued|
            && t.query == s.query
    decreases |outcomes|
  {
    if outcomes != [] {
      var o := outcomes[0];
      var next := LoadMore(s, o, writeOk);
      LoadMoreRunAppends(next, outcomes[1..], writeOk);
      var rest := Issued(next, outcomes[1..], writeOk);
      if s.hasMore && !s.loadingMore {
        ConcatCons(o, rest);
        assert Issued(s, outcomes, writeOk) == [o] + rest;
      } else {
        assert Issued(s, outcomes, writeOk) == rest;
      }
    }
  }

  /** Once no more pages remain, scrolling changes nothing and fetches nothing. */
  lemma {:induction false} ExhaustedRunIsNoOp(s: ScreenState, outcomes: seq<FetchOutcome>, writeOk: bool)
    requires !s.hasMore
    ensures LoadMoreRun(s, outcomes, writeOk) == s
    ensures Issued(s, outcomes, writeOk) == []
    decreases |outcomes|
  {
    if outcomes != [] {
      ExhaustedRunIsNoOp(s, outcomes[1..], writeOk);
    }
  }

  /** A new search followed by any number of scrolls: the list holds exactly
      the hits of the first page and of every later page fetched, in order;
      whatever was listed before the search is gone. */
  lemma SessionListsFetchedPages(s: ScreenState, first: FetchOutcome, outcomes: seq<FetchOutcome>, writeOk: bool)
    requires s.query != ""
    ensures var started := Search(s, true, 1, first, writeOk);
            var t := LoadMoreRun(started, outcomes, writeOk);
            var issued := Issued(started, outcomes, writeOk);
            && t.images == Concat([first] + issued)
            && t.page == 1 + |issued|
  {
    var started := Search(s, true, 1, first, writeOk);
    LoadMoreRunAppends(started, outcomes, writeOk);
    ConcatCons(first, Issued(started, outcomes, writeOk));
  }

  /** Three pages of 5, 5 and 3 hits out of 3: 5 images with more to come,
      then 10 on page 2 with more to come, then 13 on page 3 and no more. */
  lemma CatsScenario(s: ScreenState, a: seq<Image>, b: seq<Image>, c: seq<Image>)
    requires s.query == "cats" && !s.loadingMore
    requires |a| == 5 && |b| == 5 && |c| == 3
    ensures var s1 := Search(s, true, 1, Ok(a, 3), true);
            var s2 := LoadMore(s1, Ok(b, 3), true);
            var s3 := LoadMore(s2, Ok(c, 3), true);
            && s1.hasMore && |s1.images| == 5 && s1.page == 1
            && s2.hasMore && |s2.images| == 10 && s2.page == 2
            && !s3.hasMore && |s3.images| == 13 && s3.page == 3
            && s3.images == a + b + c
            && s3.history[0] == "cats"
  {
  }

  /** The events that reach the screen's handlers: those its elements and its
      mount effect wire, and the clear handler, which is defined but wired to
      no element. */
  datatype Event =
    | Mounted(stored: Option<seq<string>>)                          // the mount effect loads the history
    | Submitted(outcome: FetchOutcome, writeOk: bool)               // keyboard submit or the search icon
    | Typed(text: string)                                            // text change in the search box
    | Picked(query: string, outcome: FetchOutcome, writeOk: bool)   // a history suggestion pressed
    | ScrolledToEnd(outcome: FetchOutcome, writeOk: bool)           // the list's end reached
    | Cleared                                                        // clearSearch: defined, but no element calls it

  function Handle(s: ScreenState, e: Event): ScreenState
  {
    match e
    case Mounted(stored) => LoadHistory(s, stored)
    case Submitted(outcome, writeOk) => Search(s, true, 1, outcome, writeOk)
    case Typed(text) => InputChange(s, text)
    case Picked(q, outcome, writeOk) => HistorySelect(s, q, outcome, writeOk)
    case ScrolledToEnd(outcome, writeOk) => LoadMore(s, outcome, writeOk)
    case Cleared => Clear(s)
  }

  /** Between events: nothing is loading, the page number is at least 1, and
      the history is short and free of duplicates. */
  ghost predicate Settled(s: ScreenState)
  {
    && !s.loading && !s.loadingMore
    && s.page >= 1
    && |s.history| <= MaxEntries && Distinct(s.history)
  }

  /** A persisted history as the screen itself writes it. */
  ghost predicate WellFormedStore(stored: Option<seq<string>>)
  {
    stored.Some? ==> |stored.value| <= MaxEntries && Distinct(stored.value)
  }

  lemma InitialIsSettled()
    ensures Settled(Initial)
  {
  }

  /** A search ends with nothing loading and keeps the page number positive
      and the history short and free of duplicates. */
  lemma SearchKeepsSettled(s: ScreenState, reset: bool, pageNumber: int, outcome: FetchOutcome, writeOk: bool)
    requires s.page >= 1 && |s.history| <= MaxEntries && Distinct(s.history)
    ensures var t := Search(s, reset, pageNumber, outcome, writeOk);
            && (s.query != "" ==> !t.loading)
            && t.loadingMore == s.loadingMore && t.page >= 1
            && |t.history| <= MaxEntries && Distinct(t.history)
  {
    if s.query != "" {
      RecordKeepsDistinct(s.history, s.query);
    }
  }

  /** Every event leaves the screen settled, provided the stored history it
      may load is one the screen could have written. */
  lemma HandleKeepsSettled(s: ScreenState, e: Event)
    requires Settled(s)
    requires e.Mounted? ==> WellFormedStore(e.stored)
    ensures Settled(Handle(s, e))
  {
    match e
    case Mounted(stored) =>
    case Submitted(outcome, writeOk) =>
      SearchKeepsSettled(s, true, 1, outcome, writeOk);
    case Typed(text) =>
    case Picked(q, outcome, writeOk) =>
      SearchKeepsSettled(s.(query := q), true, 1, outcome, writeOk);
    case ScrolledToEnd(outcome, writeOk) =>
      if s.hasMore {
        var n := s.page + 1;
        SearchKeepsSettled(s.(loadingMore := true, page := n), false, n, outcome, writeOk);
      }
    case Cleared =>
  }

  /** The picking handler as the code runs it keeps the screen settled too. */
  lemma HistorySelectAsWrittenKeepsSettled(s: ScreenState, q: string, outcome: FetchOutcome, writeOk: bool)
    requires Settled(s)
    ensures Settled(HistorySelectAsWritten(s, q, outcome, writeOk))
  {
    SearchKeepsSettled(s, true, 1, outcome, writeOk);
  }
}
