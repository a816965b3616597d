/** The image-search screen: its state, the handlers that change it, and the
    class that holds the screen's fields and updates them step by step. */
module HomePage {
  import opened Wrappers
  import opened SearchHistory

  /** One search hit; `smallUrl` is the thumbnail the list renders. */
  datatype Image = Image(id: string, smallUrl: string)

  /** What one call to the image-search service produced: the page of hits and
      the total page count it reported, or a transport/parse failure. */
  datatype FetchOutcome = Ok(results: seq<Image>, totalPages: int) | Failure

  /** The request a search issues: query, page number and page size. */
  datatype FetchRequest = FetchRequest(query: string, page: int, perPage: int)

  const PerPage := 5
  const NoImagesFound := "No images found."
  const FetchFailed := "Error fetching images"

  /** A snapshot of the screen's state fields. */
  datatype ScreenState = ScreenState(
    query: string,
    images: seq<Image>,
    error: string,
    loading: bool,
    loadingMore: bool,
    page: int,
    hasMore: bool,
    history: seq<string>,
    showHistory: bool)

  /** The state the screen starts with. */
  const Initial := ScreenState("", [], "", false, false, 1, true, [], false)

  /** The images a fetch contributes to the list: its hits when it succeeded. */
  function Delivered(outcome: FetchOutcome): seq<Image>
  {
    if outcome.Ok? then outcome.results else []
  }

  /** The request a search for `pageNumber` issues, if any. */
  function RequestFor(s: ScreenState, pageNumber: int): (r: Option<FetchRequest>)
    ensures r.Some? <==> s.query != ""
    ensures r.Some? ==> r.value.query == s.query && r.value.page == pageNumber && r.value.perPage == PerPage
  {
    if s.query == "" then None else Some(FetchRequest(s.query, pageNumber, PerPage))
  }

  /** Loading the persisted history: a stored list replaces the in-memory one;
      a missing or unreadable value leaves it as it is. */
  function LoadHistory(s: ScreenState, stored: Option<seq<string>>): (t: ScreenState)
    ensures stored.None? ==> t == s
    ensures stored.Some? ==> t.history == stored.value
    ensures t.(history := s.history) == s
  {
    match stored
    case Some(h) => s.(history := h)
    case None => s
  }

  /** Saving `query` to the history: on a successful write the in-memory
      history becomes the recorded list, otherwise it stays unchanged. */
  function SaveHistory(s: ScreenState, query: string, writeOk: bool): (t: ScreenState)
    ensures writeOk ==> t.history == Record(s.history, query)
    ensures writeOk ==> 1 <= |t.history| <= MaxEntries && t.history[0] == query && query !in t.history[1..]
    ensures !writeOk ==> t == s
    ensures t.(history := s.history) == s
  {
    if writeOk then s.(history := Record(s.history, query)) else s
  }

  /** One completed search for page `pageNumber`, restarting the list when
      `reset` holds. `writeOk` is whether saving the history succeeds. */
  function Search(s: ScreenState, reset: bool, pageNumber: int, outcome: FetchOutcome, writeOk: bool): (t: ScreenState)
    ensures s.query == "" ==> t == s
    ensures s.query != "" ==>
      && t.query == s.query
      && !t.loading && !t.showHistory
      && t.loadingMore == s.loadingMore
      && t.page == (if reset then 1 else s.page)
    // a page of hits: replace or append, clear the error, recompute hasMore, remember the query
    ensures s.query != "" && outcome.Ok? && |outcome.results| > 0 ==>
      && t.images == (if reset then outcome.results else s.images + outcome.results)
      && t.error == ""
      && t.hasMore == (outcome.totalPages > pageNumber)
      && t.history == (if writeOk then Record(s.history, s.query) else s.history)
    // no hits: only the clearing of a reset touches the list
    ensures s.query != "" && outcome.Ok? && |outcome.results| == 0 ==>
      && t.images == (if reset then [] else s.images)
      && t.error == NoImagesFound
      && !t.hasMore
      && t.history == s.history
    // failure: the list and hasMore keep their values after the reset
    ensures s.query != "" && outcome.Failure? ==>
      && t.images == (if reset then [] else s.images)
      && t.error == FetchFailed
      && t.hasMore == (reset || s.hasMore)
      && t.history == s.history
  {
    if s.query == "" then s
    else
      var started := s.(loading := true);
      var cleared := if reset then started.(images := [], page := 1, hasMore := true) else started;
      var fetched :=
        match outcome
        case Ok(results, totalPages) =>
          if |results| > 0 then
            var shown := cleared.(images := if reset then results else cleared.images + results, error := "");
            SaveHistory(shown, s.query, writeOk).(hasMore := totalPages > pageNumber)
          else
            cleared.(error := NoImagesFound, hasMore := false)
        case Failure =>
          cleared.(error := FetchFailed);
      fetched.(loading := false, showHistory := false)
  }

  /** Scrolling to the end of the list: when more pages remain, the page number
      goes up by one and that page is fetched and appended. */
  function LoadMore(s: ScreenState, outcome: FetchOutcome, writeOk: bool): (t: ScreenState)
    ensures !s.hasMore || s.loadingMore ==> t == s
    ensures s.hasMore && !s.loadingMore ==>
      && t.page == s.page + 1
      && !t.loadingMore
      && t.query == s.query
    // the scroll is the page bump followed by a non-reset search for the new page
    ensures s.hasMore && !s.loadingMore ==>
      t == Search(s.(page := s.page + 1), false, s.page + 1, outcome, writeOk)
    ensures s.hasMore && !s.loadingMore && s.query == "" ==> t == s.(page := s.page + 1)
    ensures s.hasMore && !s.loadingMore && s.query != "" ==>
      && t.images == s.images + Delivered(outcome)
      && (outcome.Failure? ==> t.hasMore && t.error == FetchFailed)
      && (outcome.Ok? ==> t.hasMore == (|outcome.results| > 0 && outcome.totalPages > s.page + 1))
  {
    if s.hasMore && !s.loadingMore then
      var newPage := s.page + 1;
      Search(s.(loadingMore := true, page := newPage), false, newPage, outcome, writeOk).(loadingMore := false)
    else
      s
  }

  /** The clear button: query, list and error go, the suggestions close;
      page, hasMore and the history are untouched. */
  function Clear(s: ScreenState): (t: ScreenState)
    ensures t.query == "" && t.images == [] && t.error == "" && !t.showHistory
    ensures t.page == s.page && t.hasMore == s.hasMore && t.history == s.history
    ensures t.loading == s.loading && t.loadingMore == s.loadingMore
  {
    s.(query := "", images := [], error := "", showHistory := false)
  }

  /** Typing in the search box: the text becomes the query and the history
      suggestions show exactly when it is non-empty. */
  function InputChange(s: ScreenState, text: string): (t: ScreenState)
    ensures t.query == text
    ensures t.showHistory <==> |text| > 0
    ensures t.(query := s.query, showHistory := s.showHistory) == s
  {
    s.(query := text, showHistory := |text| > 0)
  }

  /** Picking `q` from the suggestions searches `q` from page 1 and closes the
      suggestions. */
  function HistorySelect(s: ScreenState, q: string, outcome: FetchOutcome, writeOk: bool): (t: ScreenState)
    ensures t.query == q && !t.showHistory
    ensures q != "" && outcome.Ok? && |outcome.results| > 0 ==>
      t.images == outcome.results && (writeOk ==> t.history == Record(s.history, q))
  {
    Search(s.(query := q), true, 1, outcome, writeOk).(showHistory := false)
  }

  /** The picking handler as the code runs it: the search started inside it is
      the render-time closure, which still sees the query typed before the
      pick, while the picked text only lands in the search box. */
  function HistorySelectAsWritten(s: ScreenState, q: string, outcome: FetchOutcome, writeOk: bool): (t: ScreenState)
    ensures t.query == q && !t.showHistory
    ensures s.query != "" && outcome.Ok? && |outcome.results| > 0 && writeOk ==>
      t.history == Record(s.history, s.query)
  {
    Search(s, true, 1, outcome, writeOk).(query := q, showHistory := false)
  }

  /** A typed query "ca" and a pick of "cats": the code records and fetches
      "ca", the picked query is never searched. */
  lemma HistorySelectSearchesStaleQuery(img: Image)
    ensures var s := Initial.(query := "ca", showHistory := true);
            var outcome := Ok([img], 1);
            && RequestFor(s, 1) == Some(FetchRequest("ca", 1, PerPage))
            && HistorySelectAsWritten(s, "cats", outcome, true).history == ["ca"]
            && HistorySelect(s, "cats", outcome, true).history == ["cats"]
  {
  }

  /** The home screen: its `useState` fields, updated in place by the handlers. */
  class Screen {
    var searchQuery: string
    var images: seq<Image>
    var error: string
    var loading: bool
    var loadingMore: bool
    var page: int
    var hasMore: bool
    var searchHistory: seq<string>
    var showHistory: bool

    /** The fields as one value. */
    function State(): ScreenState
      reads this
    {
      ScreenState(searchQuery, images, error, loading, loadingMore, page, hasMore, searchHistory, showHistory)
    }

    constructor ()
      ensures State() == Initial
    {
      searchQuery, images, error := "", [], "";
      loading, loadingMore := false, false;
      page, hasMore := 1, true;
      searchHistory, showHistory := [], false;
    }

    /** Runs on mount: `stored` is the persisted list, or None when the key
        is absent or its value cannot be read or parsed. */
    method FetchSearchHistory(stored: Option<seq<string>>)
      modifies this
      ensures State() == LoadHistory(old(State()), stored)
    {
      if stored.Some? {
        searchHistory := stored.value;
      }
    }

    method SaveSearchHistory(query: string, writeOk: bool)
      modifies this
      ensures State() == SaveHistory(old(State()), query, writeOk)
    {
      var updated := Record(searchHistory, query);
      if writeOk {
        searchHistory := updated;
      }
    }

    /** Returns the request sent to the image service, None when the query is empty. */
    method HandleSearch(reset: bool, pageNumber: int, outcome: FetchOutcome, writeOk: bool)
      returns (request: Option<FetchRequest>)
      modifies this
      ensures State() == Search(old(State()), reset, pageNumber, outcome, writeOk)
      ensures request == RequestFor(old(State()), pageNumber)
    {
      if searchQuery == "" {
        return None;
      }
      loading := true;
      if reset {
        images := [];
        page := 1;
        hasMore := true;
      }
      request := Some(FetchRequest(searchQuery, pageNumber, PerPage));
      match outcome {
        case Ok(results, totalPages) =>
          if |results| > 0 {
            images := if reset then results else images + results;
            error := "";
            SaveSearchHistory(searchQuery, writeOk);
            hasMore := totalPages > pageNumber;
          } else {
            error := NoImagesFound;
            hasMore := false;
          }
        case Failure =>
          error := FetchFailed;
      }
      loading := false;
      showHistory := false;
    }

    method HandleHistorySelect(query: string, outcome: FetchOutcome, writeOk: bool)
      returns (request: Option<FetchRequest>)
      modifies this
      ensures State() == HistorySelect(old(State()), query, outcome, writeOk)
      ensures request == RequestFor(old(State()).(query := query), 1)
    {
      searchQuery := query;
      request := HandleSearch(true, 1, outcome, writeOk);
      showHistory := false;
    }

    method ClearSearch()
      modifies this
      ensures State() == Clear(old(State()))
    {
      searchQuery := "";
      images := [];
      error := "";
      showHistory := false;
    }

    /** Returns the request for the next page, None when nothing is fetched. */
    method LoadMoreImages(outcome: FetchOutcome, writeOk: bool)
      returns (request: Option<FetchRequest>)
      modifies this
      ensures State() == LoadMore(old(State()), outcome, writeOk)
      ensures request == if old(hasMore) && !old(loadingMore) then RequestFor(old(State()), old(page) + 1) else None
    {
      request := None;
      if hasMore && !loadingMore {
        loadingMore := true;
        var newPage := page + 1;
        page := newPage;
        request := HandleSearch(false, newPage, outcome, writeOk);
        loadingMore := false;
      }
    }

    method HandleInputChange(text: string)
      modifies this
      ensures State() == InputChange(old(State()), text)
    {
      searchQuery := text;
      if |text| > 0 {
        showHistory := true;
      } else {
        showHistory := false;
      }
    }
  }
}
