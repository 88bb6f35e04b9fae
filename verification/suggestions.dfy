/** The App component's state and its autocomplete events (src/App.tsx):
    the search box, the full match list, the displayed prefix of it, the
    reveal limit and the "See More" flag, plus the platform and the catalog. */
module Suggestions {
  import opened Slices
  import opened Catalog

  /** How many more suggestions one "See More" reveals; also the first limit. */
  const Step: nat := 5

  datatype AppState = AppState(
    plat: Option<string>,
    query: string,
    allGames: seq<Game>,
    suggestions: seq<Game>,
    showMore: bool,
    displayed: seq<Game>,
    limit: nat)

  /** The state on mount: nothing typed, nothing fetched, limit 5. */
  function Initial(): (s: AppState)
    ensures s.limit == Step && s.query == "" && s.plat.None?
    ensures s.suggestions == [] && s.displayed == [] && !s.showMore
  {
    AppState(None, "", [], [], false, [], Step)
  }

  /** `updateSuggestions(query, showAll)`: an empty query empties both lists and
      leaves limit and flag alone; otherwise the catalog is filtered, the first
      `limit` matches (all of them with `showAll`) are displayed, and the flag
      says whether matches are hidden. */
  function UpdateSuggestions(s: AppState, query: string, showAll: bool): (r: AppState)
    ensures r.plat == s.plat && r.query == s.query && r.allGames == s.allGames
    ensures r.limit == s.limit
    ensures |query| == 0 ==> r.suggestions == [] && r.displayed == [] && r.showMore == s.showMore
    ensures |query| > 0 ==> r.suggestions == Filter(s.allGames, query)
    ensures |query| > 0 && !showAll ==>
              r.displayed == r.suggestions[..Min(s.limit, |r.suggestions|)]
    ensures |query| > 0 && showAll ==> r.displayed == r.suggestions
    ensures |query| > 0 ==> (r.showMore <==> |r.suggestions| > s.limit)
  {
    if |query| == 0 then
      s.(suggestions := [], displayed := [])
    else
      var filtered := Filter(s.allGames, query);
      SliceFromZero(filtered, if showAll then |filtered| else s.limit);
      s.(suggestions := filtered,
         displayed := Slice(filtered, 0, if showAll then |filtered| else s.limit),
         showMore := |filtered| > s.limit)
  }

  /** `handleSearchChange`: store the typed text and refresh the suggestions
      without revealing all of them. */
  function SearchChange(s: AppState, query: string): (r: AppState)
    ensures r.query == query && r.limit == s.limit && r.allGames == s.allGames && r.plat == s.plat
    ensures |query| == 0 ==> r.suggestions == [] && r.displayed == [] && r.showMore == s.showMore
    ensures |query| > 0 ==> r.suggestions == Filter(s.allGames, query)
    ensures |query| > 0 ==> r.displayed == r.suggestions[..Min(s.limit, |r.suggestions|)]
    ensures |query| > 0 ==> (r.showMore <==> |r.suggestions| > s.limit)
  {
    UpdateSuggestions(s.(query := query), query, false)
  }

  /** `handleSeeMoreClick`: the limit grows by 5 and the display is re-cut from
      the matches already computed; nothing is re-filtered. */
  function SeeMore(s: AppState): (r: AppState)
    ensures r.limit == s.limit + Step
    ensures r.suggestions == s.suggestions
    ensures r.displayed == s.suggestions[..Min(s.limit + Step, |s.suggestions|)]
    ensures r.showMore <==> |s.suggestions| > r.limit
    ensures r.query == s.query && r.allGames == s.allGames && r.plat == s.plat
  {
    var newLimit := s.limit + Step;
    SliceFromZero(s.suggestions, newLimit);
    s.(limit := newLimit,
       displayed := Slice(s.suggestions, 0, newLimit),
       showMore := |s.suggestions| > newLimit)
  }

  /** `handleSuggestionClick`: the chosen title becomes the query and the
      dropdown closes; no new filtering happens and the limit stays. */
  function SuggestionClick(s: AppState, chosen: Game): (r: AppState)
    ensures r.query == chosen.title
    ensures r.suggestions == [] && r.displayed == []
    ensures r.limit == s.limit && r.showMore == s.showMore
    ensures r.allGames == s.allGames && r.plat == s.plat
  {
    s.(query := chosen.title, suggestions := [], displayed := [])
  }

  /** `myPlatform`: remember the selected platform (which triggers a fetch). */
  function SelectPlatform(s: AppState, platform: string): (r: AppState)
    ensures r.plat == Some(platform)
    ensures r.(plat := s.plat) == s
  {
    s.(plat := Some(platform))
  }

  /** The end of `fetchAllGames`: a loaded list replaces the catalog wholesale;
      a failure is only logged and leaves the catalog as it was. Suggestions
      are not recomputed. */
  function FetchDone(s: AppState, outcome: FetchOutcome): (r: AppState)
    ensures outcome.Loaded? ==> r.allGames == outcome.games
    ensures outcome.Failed? ==> r == s
    ensures r.(allGames := s.allGames) == s
  {
    match outcome
    case Loaded(games) => s.(allGames := games)
    case Failed => s
  }

  /** The events the App component reacts to. */
  datatype AppEvent =
    | Typed(query: string)
    | SeeMoreClicked
    | Picked(game: Game)
    | PlatformChosen(platform: string)
    | Fetched(outcome: FetchOutcome)

  function Apply(s: AppState, e: AppEvent): AppState
  {
    match e
    case Typed(q) => SearchChange(s, q)
    case SeeMoreClicked => SeeMore(s)
    case Picked(g) => SuggestionClick(s, g)
    case PlatformChosen(p) => SelectPlatform(s, p)
    case Fetched(o) => FetchDone(s, o)
  }

  /** The state after the events of `events`, one at a time, in order. */
  function Run(s: AppState, events: seq<AppEvent>): AppState
    decreases |events|
  {
    if |events| == 0 then s else Run(Apply(s, events[0]), events[1..])
  }

  function SeeMoreCount(events: seq<AppEvent>): nat
    decreases |events|
  {
    if |events| == 0 then 0
    else (if events[0].SeeMoreClicked? then 1 else 0) + SeeMoreCount(events[1..])
  }

  /** Only "See More" moves the limit, and it only moves it up by 5. */
  lemma LimitStep(s: AppState, e: AppEvent)
    ensures Apply(s, e).limit == s.limit + (if e.SeeMoreClicked? then Step else 0)
  {
  }

  /** After any run of events the limit has grown by 5 per "See More" click;
      from mount that is 5 + 5k for k clicks. */
  lemma {:induction false} LimitCountsSeeMore(s: AppState, events: seq<AppEvent>)
    ensures Run(s, events).limit == s.limit + Step * SeeMoreCount(events)
    decreases |events|
  {
    if |events| > 0 {
      LimitStep(s, events[0]);
      LimitCountsSeeMore(Apply(s, events[0]), events[1..]);
    }
  }

  lemma LimitFromMount(events: seq<AppEvent>)
    ensures Run(Initial(), events).limit == Step + Step * SeeMoreCount(events)
  {
    LimitCountsSeeMore(Initial(), events);
  }

  /** What holds of the App state at every moment:
      the limit is a positive multiple of 5; the displayed list is the prefix
      of the matches cut at the limit; when there are matches the flag says
      exactly whether some are hidden; with an empty query there are none; and
      every match contains the current query. */
  ghost predicate Valid(s: AppState)
  {
    && s.limit >= Step && s.limit % Step == 0
    && s.displayed == s.suggestions[..Min(s.limit, |s.suggestions|)]
    && (|s.suggestions| > 0 ==> (s.showMore <==> |s.suggestions| > s.limit))
    && (s.query == "" ==> s.suggestions == [])
    && (forall g :: g in s.suggestions ==> Matches(g, s.query))
  }

  lemma InitialValid()
    ensures Valid(Initial())
  {
  }

  /** Every event keeps the App state valid. */
  lemma ApplyPreservesValid(s: AppState, e: AppEvent)
    requires Valid(s)
    ensures Valid(Apply(s, e))
  {
  }

  lemma {:induction false} RunPreservesValid(s: AppState, events: seq<AppEvent>)
    requires Valid(s)
    ensures Valid(Run(s, events))
    decreases |events|
  {
    if |events| > 0 {
      ApplyPreservesValid(s, events[0]);
      RunPreservesValid(Apply(s, events[0]), events[1..]);
    }
  }

  /** The displayed suggestions never outnumber the limit nor the matches. */
  lemma ValidBounds(s: AppState)
    requires Valid(s)
    ensures |s.displayed| <= s.limit && |s.displayed| <= |s.suggestions|
    ensures |s.displayed| == Min(s.limit, |s.suggestions|)
  {
  }

  /** Thirty-seven matches from limit 5: each "See More" shows 5 more while
      the flag stays up, until limit 40 shows all 37 and drops the flag. */
  lemma ThirtySevenMatches(s: AppState)
    requires |s.suggestions| == 37 && s.limit == Step
    ensures var s1 := SeeMore(s);
            s1.limit == 10 && |s1.displayed| == 10 && s1.showMore
    ensures var s6 := SeeMore(SeeMore(SeeMore(SeeMore(SeeMore(SeeMore(s))))));
            s6.limit == 35 && |s6.displayed| == 35 && s6.showMore
    ensures var s7 := SeeMore(SeeMore(SeeMore(SeeMore(SeeMore(SeeMore(SeeMore(s)))))));
            s7.limit == 40 && s7.displayed == s.suggestions && !s7.showMore
  {
  }
}
