/** The GamesSection component (src/Components/GamesSection.tsx): its own copy
    of the catalog, the filtered list, the 1-indexed current page over pages of
    15, the loading flag, the pager buttons and what the section renders. */
module Paginator {
  import opened Slices
  import opened Catalog

  const PageSize: nat := 15

  /** `Math.ceil(len / 15)`: the number of pages, 0 for an empty list. */
  function PageCount(len: nat): (r: nat)
    ensures r * PageSize >= len
    ensures r > 0 ==> (r - 1) * PageSize < len
    ensures r == 0 <==> len == 0
  {
    (len + PageSize - 1) / PageSize
  }

  /** `currentGames`: the slice of `filtered` starting at `(page - 1) * 15`,
      at most 15 long. */
  function Window(filtered: seq<Game>, page: int): (r: seq<Game>)
    ensures |r| <= PageSize
    ensures page >= 1 ==> |r| == Max(0, Min(PageSize, |filtered| - (page - 1) * PageSize))
    ensures page >= 1 ==> forall k :: 0 <= k < |r| ==>
              (page - 1) * PageSize + k < |filtered| && r[k] == filtered[(page - 1) * PageSize + k]
  {
    var start := (page - 1) * PageSize;
    Slice(filtered, start, start + PageSize)
  }

  datatype SectionState = SectionState(
    query: string,
    allGames: seq<Game>,
    filtered: seq<Game>,
    page: int,
    loading: bool)

  /** The state on mount, before the first fetch starts: the App hands down an
      empty query. */
  function Initial(): (s: SectionState)
    ensures s.page == 1 && !s.loading && s.allGames == [] && s.filtered == []
    ensures s.query == ""
  {
    SectionState("", [], [], 1, false)
  }

  /** The filter effect: re-filter the catalog by the query and go back to the
      first page. */
  function Refilter(s: SectionState): (r: SectionState)
    ensures r.filtered == Filter(s.allGames, s.query)
    ensures r.page == 1
    ensures r.(filtered := s.filtered, page := s.page) == s
  {
    s.(filtered := Filter(s.allGames, s.query), page := 1)
  }

  /** A new `searchQuery` prop. The effect only runs when the string differs from
      the previous one; then it re-filters and resets the page. */
  function QueryChanged(s: SectionState, query: string): (r: SectionState)
    ensures r.query == query && r.allGames == s.allGames && r.loading == s.loading
    ensures query == s.query ==> r == s
    ensures query != s.query ==> r.page == 1 && r.filtered == Filter(s.allGames, query)
  {
    if query == s.query then s else Refilter(s.(query := query))
  }

  /** The start of `fetchAllGames`: the loading flag goes up. */
  function FetchStarted(s: SectionState): (r: SectionState)
    ensures r.loading
    ensures r.(loading := s.loading) == s
  {
    s.(loading := true)
  }

  /** The end of `fetchAllGames`. A loaded list replaces the catalog wholesale,
      and since it is a new array the filter effect runs: re-filter and back to
      page 1. A failure only clears the loading flag. */
  function FetchDone(s: SectionState, outcome: FetchOutcome): (r: SectionState)
    ensures !r.loading && r.query == s.query
    ensures outcome.Loaded? ==>
              r.allGames == outcome.games && r.page == 1 && r.filtered == Filter(outcome.games, s.query)
    ensures outcome.Failed? ==> r == s.(loading := false)
  {
    match outcome
    case Loaded(games) => Refilter(s.(allGames := games, loading := false))
    case Failed => s.(loading := false)
  }

  /** `handlePrevPage`: one page back unless already on the first page. */
  function PrevPage(s: SectionState): (r: SectionState)
    ensures s.page > 1 ==> r.page == s.page - 1
    ensures s.page <= 1 ==> r == s
    ensures r.(page := s.page) == s
  {
    if s.page > 1 then s.(page := s.page - 1) else s
  }

  /** `handleNextPage`: one page on unless already on the last page. */
  function NextPage(s: SectionState): (r: SectionState)
    ensures s.page < PageCount(|s.filtered|) ==> r.page == s.page + 1
    ensures s.page >= PageCount(|s.filtered|) ==> r == s
    ensures r.(page := s.page) == s
  {
    if s.page < PageCount(|s.filtered|) then s.(page := s.page + 1) else s
  }

  /** `disabled` of the Previous button: for pages of at least 1 it is disabled
      exactly when Previous would do nothing. */
  predicate PrevDisabled(s: SectionState)
    ensures s.page >= 1 ==> (PrevDisabled(s) <==> PrevPage(s) == s)
  {
    s.page == 1
  }

  /** `disabled` of the Next button: disabled exactly when Next would do
      nothing; with an empty list and a page of at least 1 it is disabled and
      the page never advances. */
  predicate NextDisabled(s: SectionState)
    ensures NextDisabled(s) <==> NextPage(s) == s
    ensures |s.filtered| == 0 && s.page >= 1 ==> NextDisabled(s) && NextPage(s).page == s.page
  {
    s.page >= PageCount(|s.filtered|)
  }

  /** What the section shows: the "Loading..." text, the grid of the current
      page, or "No Result Found". */
  datatype View = LoadingText | Grid(games: seq<Game>) | NoResultFound

  /** The section's render: "Loading..." while loading; otherwise the current
      page when it has games; otherwise "No Result Found" for a non-empty query
      and "Loading..." for an empty one. */
  function Render(s: SectionState): (v: View)
    ensures v.Grid? <==> !s.loading && |Window(s.filtered, s.page)| > 0
    ensures v.Grid? ==> v.games == Window(s.filtered, s.page)
    ensures v == NoResultFound <==> !s.loading && |Window(s.filtered, s.page)| == 0 && s.query != ""
    ensures s.loading ==> v == LoadingText
  {
    var current := Window(s.filtered, s.page);
    if s.loading then LoadingText
    else if |current| > 0 then Grid(current)
    else if s.query != "" then NoResultFound
    else LoadingText
  }

  /** The events the section reacts to. */
  datatype SectionEvent =
    | Started
    | Done(outcome: FetchOutcome)
    | NewQuery(query: string)
    | Prev
    | Next

  function Apply(s: SectionState, e: SectionEvent): SectionState
  {
    match e
    case Started => FetchStarted(s)
    case Done(o) => FetchDone(s, o)
    case NewQuery(q) => QueryChanged(s, q)
    case Prev => PrevPage(s)
    case Next => NextPage(s)
  }

  function Run(s: SectionState, events: seq<SectionEvent>): SectionState
    decreases |events|
  {
    if |events| == 0 then s else Run(Apply(s, events[0]), events[1..])
  }

  /** The page lies between 1 and the last page (1 when there are no pages). */
  predicate PageInRange(len: nat, page: int)
  {
    1 <= page <= Max(1, PageCount(len))
  }

  /** The section's invariant: the filtered list is the filter of the current
      catalog by the current query, and the page is in range for it. */
  ghost predicate Valid(s: SectionState)
  {
    s.filtered == Filter(s.allGames, s.query) && PageInRange(|s.filtered|, s.page)
  }

  lemma InitialValid()
    ensures Valid(Initial())
  {
  }

  /** Reset, previous, next, a new query and both fetch outcomes keep the section valid. */
  lemma ApplyPreservesValid(s: SectionState, e: SectionEvent)
    requires Valid(s)
    ensures Valid(Apply(s, e))
  {
  }

  lemma {:induction false} RunPreservesValid(s: SectionState, events: seq<SectionEvent>)
    requires Valid(s)
    ensures Valid(Run(s, events))
    decreases |events|
  {
    if |events| > 0 {
      ApplyPreservesValid(s, events[0]);
      RunPreservesValid(Apply(s, events[0]), events[1..]);
    }
  }

  /** In a valid state the current page shows something whenever anything matched,
      so once loading is over the grid is on screen. */
  lemma WindowNonEmpty(s: SectionState)
    requires Valid(s)
    requires |s.filtered| > 0
    ensures |Window(s.filtered, s.page)| > 0
    ensures !s.loading ==> Render(s) == Grid(Window(s.filtered, s.page))
  {
  }

  /** Pages 1..k laid end to end. */
  function Pages(filtered: seq<Game>, k: nat): seq<Game>
  {
    if k == 0 then [] else Pages(filtered, k - 1) + Window(filtered, k)
  }

  /** The first k pages are the first min(15k, |filtered|) games. */
  lemma {:induction false} PagesPrefix(filtered: seq<Game>, k: nat)
    ensures Pages(filtered, k) == filtered[..Min(k * PageSize, |filtered|)]
  {
    if k > 0 {
      PagesPrefix(filtered, k - 1);
      var w := Window(filtered, k);
      var lo := Min((k - 1) * PageSize, |filtered|);
      var hi := Min(k * PageSize, |filtered|);
      if lo < hi {
        assert w == filtered[lo..hi];
      } else {
        assert |w| == 0;
      }
      assert filtered[..lo] + filtered[lo..hi] == filtered[..hi];
    }
  }

  /** All pages, in order, give back exactly the filtered list. */
  lemma PagesReconstruct(filtered: seq<Game>)
    ensures Pages(filtered, PageCount(|filtered|)) == filtered
  {
    PagesPrefix(filtered, PageCount(|filtered|));
  }
}
