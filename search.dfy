/** The paged search of src/App.tsx: what one `performSearch` call does to
    the search state for each kind of response, the page lock that stops
    paging past the last page that has results, and the guard on page
    changes. The network call is a parameter: the response it produced. */
module Search {
  import opened Common

  /** The characters `String.prototype.trim` removes. */
  predicate IsJsWhitespace(c: char) {
    c in {' ', '\t', '\n', '\r', '\U{B}', '\U{C}', '\U{A0}', '\U{1680}',
          '\U{2000}', '\U{2001}', '\U{2002}', '\U{2003}', '\U{2004}', '\U{2005}',
          '\U{2006}', '\U{2007}', '\U{2008}', '\U{2009}', '\U{200A}', '\U{2028}',
          '\U{2029}', '\U{202F}', '\U{205F}', '\U{3000}', '\U{FEFF}'}
  }

  /** `!term.trim()`: the term is empty once surrounding whitespace is removed. */
  predicate IsBlank(term: string) {
    forall i :: 0 <= i < |term| ==> IsJsWhitespace(term[i])
  }

  /** What the search endpoint answered: a page of results with an optional
      total, or a thrown error. */
  datatype SearchResponse = Found(results: seq<Song>, total: Option<int>) | SearchFailed

  /** The search slice of the component state. `lockedFrom` is the first
      page that may not be requested (None: no page is locked). */
  datatype SearchState = SearchState(
    results: seq<Song>,
    total: Option<int>,
    page: int,
    lockedFrom: Option<int>,
    error: Option<string>)

  const InitialSearch := SearchState([], None, 1, None, None)

  /** Page size: 10 for the aggregate source, 30 for a single platform. */
  function RequestLimit(aggregate: bool): int {
    if aggregate then 10 else 30
  }

  /** The functional lock update: a new lock never raises an existing one. */
  function LockAt(prev: Option<int>, lockPage: int): (r: Option<int>)
    ensures r.Some?
    ensures r.value <= lockPage
    ensures prev.Some? ==> r.value <= prev.value
    ensures r.value == lockPage || (prev.Some? && r.value == prev.value)
  {
    match prev
    case Some(p) => Some(Min(p, lockPage))
    case None => Some(lockPage)
  }

  /** One `performSearch({ page, term, resetLocked })` with the response it got. */
  function PerformSearch(st: SearchState, page: int, term: string, resetLocked: bool,
                         aggregate: bool, response: SearchResponse): SearchState
  {
    if IsBlank(term) then st
    else
      var base := (if resetLocked then st.(lockedFrom := None, total := None, page := 1) else st).(error := None);
      match response
      case Found(results, total) =>
        if results == [] then
          var locked := LockAt(base.lockedFrom, if page == 1 then 2 else page);
          if resetLocked then base.(lockedFrom := locked, results := [], total := Some(total.GetOr(0)))
          else base.(lockedFrom := locked)
        else
          var count := total.GetOr(|results|);
          var shown := base.(results := results, total := Some(count), page := page);
          if !aggregate && count < RequestLimit(aggregate) then shown.(lockedFrom := LockAt(shown.lockedFrom, page + 1))
          else shown
      case SearchFailed =>
        var failed := base.(error := Some("搜索失败"));
        if !resetLocked && page > st.page then failed.(lockedFrom := LockAt(failed.lockedFrom, page))
        else failed
  }

  /** The `onPageChange` guard: a non-blank keyword, a different page, and
      not at or beyond the lock. */
  predicate CanChangePage(st: SearchState, keyword: string, page: int) {
    !IsBlank(keyword) && page != st.page && !(st.lockedFrom.Some? && page >= st.lockedFrom.value)
  }

  /** `onPageChange`: the guard, then a search without a lock reset. */
  function ChangePage(st: SearchState, keyword: string, page: int, aggregate: bool, response: SearchResponse): (r: SearchState)
    ensures !CanChangePage(st, keyword, page) ==> r == st
  {
    if CanChangePage(st, keyword, page) then PerformSearch(st, page, keyword, false, aggregate, response) else st
  }

  /** `onSearch`: a fresh search for page 1 that clears the lock first. */
  function NewSearch(st: SearchState, term: string, aggregate: bool, response: SearchResponse): SearchState {
    PerformSearch(st, 1, term, true, aggregate, response)
  }

  /** Without a reset, a search can only lower the lock or leave it alone;
      the only way to unlock pages is a new search. */
  lemma LockNeverRises(st: SearchState, page: int, term: string, aggregate: bool, response: SearchResponse)
    requires st.lockedFrom.Some?
    ensures var r := PerformSearch(st, page, term, false, aggregate, response);
      r.lockedFrom.Some? && r.lockedFrom.value <= st.lockedFrom.value
  {
  }

  /** The state the component keeps: pages count from 1 and page 1 is never
      locked, so the first page of any search can always be shown. */
  predicate WellFormed(st: SearchState) {
    st.page >= 1 && (st.lockedFrom.Some? ==> st.lockedFrom.value >= 2)
  }

  lemma InitialWellFormed()
    ensures WellFormed(InitialSearch) && InitialSearch.lockedFrom == None
  {
  }

  lemma PerformSearchKeepsWellFormed(st: SearchState, page: int, term: string, resetLocked: bool,
                                     aggregate: bool, response: SearchResponse)
    requires WellFormed(st) && page >= 1
    ensures WellFormed(PerformSearch(st, page, term, resetLocked, aggregate, response))
  {
  }

  /** The current page lies below the lock. */
  predicate PageBelowLock(st: SearchState) {
    st.lockedFrom.Some? ==> st.page < st.lockedFrom.value
  }

  /** A new search, and every forward page change the guard lets through,
      keep the current page below the lock. */
  lemma NewSearchPageBelowLock(st: SearchState, term: string, aggregate: bool, response: SearchResponse)
    requires !IsBlank(term)
    ensures PageBelowLock(NewSearch(st, term, aggregate, response))
  {
  }

  lemma ForwardPagingKeepsPageBelowLock(st: SearchState, keyword: string, page: int, aggregate: bool,
                                        response: SearchResponse)
    requires PageBelowLock(st) && page > st.page
    ensures PageBelowLock(ChangePage(st, keyword, page, aggregate, response))
  {
  }

  /** Paging backwards can break it: if an earlier page comes back empty
      the lock drops to that page while the current page stays where it was. */
  lemma BackwardPagingCanPassLock()
    ensures var st := SearchState([Song("1", "netease", "a", "b")], Some(100), 3, None, None);
      CanChangePage(st, "x", 2)
      && !PageBelowLock(ChangePage(st, "x", 2, true, Found([], None)))
  {
    var st := SearchState([Song("1", "netease", "a", "b")], Some(100), 3, None, None);
    assert !IsJsWhitespace('x');
    assert !IsBlank("x") by { assert "x"[0] == 'x'; }
    assert ChangePage(st, "x", 2, true, Found([], None)).lockedFrom == Some(2);
  }

  /** A blank term leaves the whole state untouched. */
  lemma BlankTermIsIgnored(st: SearchState, page: int, term: string, resetLocked: bool,
                           aggregate: bool, response: SearchResponse)
    requires IsBlank(term)
    ensures PerformSearch(st, page, term, resetLocked, aggregate, response) == st
  {
  }

  /** A successful non-empty page is shown, with the page number it was
      asked for and the reported total (or the number of results on the page
      when there is none). */
  lemma ResultsAreShown(st: SearchState, page: int, term: string, resetLocked: bool,
                        aggregate: bool, results: seq<Song>, total: Option<int>)
    requires !IsBlank(term) && results != []
    ensures var r := PerformSearch(st, page, term, resetLocked, aggregate, Found(results, total));
      r.results == results && r.page == page && r.total == Some(total.GetOr(|results|)) && r.error == None
  {
  }

  /** A failure keeps the shown results and sets the error message. */
  lemma FailureKeepsResults(st: SearchState, page: int, term: string, resetLocked: bool, aggregate: bool)
    requires !IsBlank(term)
    ensures var r := PerformSearch(st, page, term, resetLocked, aggregate, SearchFailed);
      r.results == st.results && r.error == Some("搜索失败")
  {
  }
}
