/** The two components side by side, as App renders them (src/App.tsx:137):
    App owns the query and passes it, with the platform, to GamesSection. Each
    component fetches its own copy of the catalog, so each fetch outcome
    reaches one component only. */
module Ui {
  import opened Catalog
  import Suggestions
  import Paginator

  datatype UiState = UiState(app: Suggestions.AppState, section: Paginator.SectionState)

  /** Both components mounted: each has started its first fetch, and only the
      section shows it with a loading flag. */
  function Mounted(): (u: UiState)
    ensures u.app.query == u.section.query == ""
    ensures u.section.loading && u.section.page == 1
  {
    UiState(Suggestions.Initial(), Paginator.FetchStarted(Paginator.Initial()))
  }

  /** The platform both fetchers request for the current selection. */
  function RequestedPlatform(u: UiState): (r: string)
    ensures u.app.plat.None? || u.app.plat.value == "" ==> r == "pc"
    ensures u.app.plat.Some? && u.app.plat.value != "" ==> r == u.app.plat.value
  {
    PlatformParam(u.app.plat)
  }

  datatype UiEvent =
    | Typed(query: string)
    | SuggestionPicked(game: Game)
    | SeeMoreClicked
    | PlatformChosen(platform: string)
    | AppFetched(outcome: FetchOutcome)
    | SectionFetched(outcome: FetchOutcome)
    | PrevClicked
    | NextClicked

  /** One event: App updates its state, and whatever changed in the props it
      hands to GamesSection is delivered there. Choosing the platform already
      selected changes nothing, so no fetch starts. */
  function Apply(u: UiState, e: UiEvent): (r: UiState)
    ensures e.Typed? ==> r.app.query == e.query && r.section.query == e.query
    ensures e.SuggestionPicked? ==> r.app.query == e.game.title && r.section.query == e.game.title
    ensures e.PlatformChosen? ==> r.app.plat == Some(e.platform)
    ensures e.PlatformChosen? && u.app.plat != Some(e.platform) ==>
              r.section.loading && r.section.(loading := u.section.loading) == u.section
    ensures e.SeeMoreClicked? || e.AppFetched? ==> r.section == u.section
    ensures e.SectionFetched? || e.PrevClicked? || e.NextClicked? ==> r.app == u.app
  {
    match e
    case Typed(q) =>
      UiState(Suggestions.SearchChange(u.app, q), Paginator.QueryChanged(u.section, q))
    case SuggestionPicked(g) =>
      UiState(Suggestions.SuggestionClick(u.app, g), Paginator.QueryChanged(u.section, g.title))
    case SeeMoreClicked =>
      u.(app := Suggestions.SeeMore(u.app))
    case PlatformChosen(p) =>
      if u.app.plat == Some(p) then u
      else UiState(Suggestions.SelectPlatform(u.app, p), Paginator.FetchStarted(u.section))
    case AppFetched(o) =>
      u.(app := Suggestions.FetchDone(u.app, o))
    case SectionFetched(o) =>
      u.(section := Paginator.FetchDone(u.section, o))
    case PrevClicked =>
      u.(section := Paginator.PrevPage(u.section))
    case NextClicked =>
      u.(section := Paginator.NextPage(u.section))
  }

  function Run(u: UiState, events: seq<UiEvent>): UiState
    decreases |events|
  {
    if |events| == 0 then u else Run(Apply(u, events[0]), events[1..])
  }

  /** Both components valid, and both see the same query. */
  ghost predicate Valid(u: UiState)
  {
    Suggestions.Valid(u.app) && Paginator.Valid(u.section) && u.app.query == u.section.query
  }

  lemma MountedValid()
    ensures Valid(Mounted())
  {
  }

  lemma ApplyPreservesValid(u: UiState, e: UiEvent)
    requires Valid(u)
    ensures Valid(Apply(u, e))
  {
  }

  /** Every reachable screen is valid. */
  lemma {:induction false} RunPreservesValid(u: UiState, events: seq<UiEvent>)
    requires Valid(u)
    ensures Valid(Run(u, events))
    decreases |events|
  {
    if |events| > 0 {
      ApplyPreservesValid(u, events[0]);
      RunPreservesValid(Apply(u, events[0]), events[1..]);
    }
  }

  /** The two filters agree: when both components hold the same catalog, typing a
      non-empty query makes the suggestion matches and the section's filtered
      list the same list, whether or not the section had to re-filter. */
  lemma FiltersAgree(u: UiState, q: string)
    requires Valid(u)
    requires u.app.allGames == u.section.allGames
    requires q != ""
    ensures Apply(u, Typed(q)).app.suggestions == Apply(u, Typed(q)).section.filtered
  {
  }

  /** Unlike the suggestions, the section keeps the whole catalog for an empty query. */
  lemma EmptyQueryShowsCatalog(u: UiState)
    requires Valid(u)
    ensures Apply(u, Typed("")).app.suggestions == []
    ensures Apply(u, Typed("")).section.filtered == u.section.allGames
  {
    FilterEmptyQuery(u.section.allGames);
  }

  /** Changing the query, or the section receiving a catalog, sends it back to page 1. */
  lemma ChangesResetPage(u: UiState, e: UiEvent)
    requires Valid(u)
    requires (e.Typed? && e.query != u.app.query)
          || (e.SuggestionPicked? && e.game.title != u.app.query)
          || (e.SectionFetched? && e.outcome.Loaded?)
    ensures Apply(u, e).section.page == 1
  {
  }

  /** Choosing the platform already selected changes nothing: no state is set
      and the `[plat]` effects do not run, so no fetch starts. */
  lemma SamePlatformNoOp(u: UiState, p: string)
    requires u.app.plat == Some(p)
    ensures Apply(u, PlatformChosen(p)) == u
  {
  }

  /** Choosing a platform makes both fetchers ask for it, unless it is the empty string. */
  lemma PlatformRequested(u: UiState, p: string)
    requires p != ""
    ensures RequestedPlatform(Apply(u, PlatformChosen(p))) == p
  {
  }
}
