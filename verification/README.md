# InGame: a verified model of the search, suggestion and paging logic

InGame is a small browser front end for a free-to-play game catalog. The user
picks a platform and types a title. A dropdown offers matching titles five at a
time, with a "See More" entry. A paged grid shows the matching games, fifteen
per page. The logic with observable behaviour lives in two components:

- `App` (src/App.tsx) holds the query, its own copy of the catalog and the
  autocomplete state. That state is the full match list, the reveal limit, the
  displayed prefix and the "See More" flag.
- `GamesSection` (src/Components/GamesSection.tsx) holds its own copy of the
  catalog, the filtered list, the current page and a loading flag.

This project models both components as immutable state records. Each event
(keystroke, click, fetch outcome) is a pure transition function. Lemmas state
the invariants that every event preserves and relate the two components.

Modules, one per concept:

| file | module | models |
|---|---|---|
| text.dfy | `Text` | `toLowerCase` (ASCII letters) and `includes` |
| slices.dfy | `Slices` | `Array.prototype.slice` with its clamping and negative bounds |
| catalog.dfy | `Catalog` | the game record, fetch outcomes, the platform parameter, the title filter |
| suggestions.dfy | `Suggestions` | the App component's autocomplete state and events |
| paginator.dfy | `Paginator` | GamesSection's filter effect, paging, buttons, loading flag and render choice |
| ui.dfy | `Ui` | both components together, with the query passed from App to GamesSection |

Notes on how the code is read:

- Both components filter with the same expression: the lowered title
  `includes` the lowered query. The model defines this filter once, as
  `Catalog.Filter`. `Ui.FiltersAgree` proves the cross-component agreement.
- The request's platform comes from JavaScript truthiness. A missing platform
  and the empty string both ask for "pc". The same truthiness makes
  GamesSection print "No Result Found" only for a non-empty query.
- GamesSection's filter effect depends on `[searchQuery, allGames]`. It runs
  only when the query string actually changes. A successful fetch always
  installs a new array, so it always re-filters and resets the page to 1.
- App has no effect on its catalog. A catalog that arrives after typing leaves
  the suggestions computed from the previous catalog in place. The model keeps
  this behaviour. So the App invariant says only that every suggestion matches
  the current query, not that the suggestions are the filter of the current
  catalog.
- The reveal limit is never capped at the number of matches:
  `handleSeeMoreClick` (src/App.tsx:66-67) only adds 5. So `Suggestions.Valid`
  bounds the displayed count by the limit and by the matches, and the limit by
  nothing.
- An empty query and a suggestion click both leave `showAllSuggestions` as it
  was, so the flag can be stale while the lists are empty. The dropdown is then
  not rendered. The invariant therefore ties the flag to the match count only
  while there are matches.

## Model

| member | source | states |
|---|---|---|
| Text.LowerStr | src/App.tsx:52 | `toLowerCase` keeps the length and lowers each character on its own: ASCII capitals become small letters, every other character is unchanged |
| Text.Contains | src/App.tsx:52 | `includes`: the empty needle is contained in every string, and a needle longer than the string is never contained |
| Text.LowerStrIdempotent | src/App.tsx:52 | lowering an already lowered query or title changes nothing, which is what makes the match case-insensitive on both sides |
| Text.ContainsIffOccurs | src/App.tsx:52 | `includes` holds exactly when the needle occurs at some position of the lowered title |
| Slices.Slice | src/App.tsx:55 | `slice(start, end)` never returns more than the array holds; for 0 ≤ start ≤ end its length is min(end, len) − start, floored at 0, and element k is element start + k |
| Slices.SliceIsContiguous | src/Components/GamesSection.tsx:56 | whatever the bounds, a slice is one contiguous run of the array |
| Slices.SliceFromZero | src/App.tsx:55 | `slice(0, n)` with n ≥ 0 is the prefix of length min(n, len) |
| Catalog.PlatformParam | src/App.tsx:29-31 | the request always names a platform: the selected one when it is set and non-empty, otherwise "pc" |
| Catalog.Matches | src/Components/GamesSection.tsx:49 | a game matches iff the lowered query occurs at some position of its lowered title; the empty query matches every game |
| Catalog.Filter | src/App.tsx:51-53 | a game is in the result iff it is in the catalog and its lowered title contains the lowered query; the result is never longer than the catalog |
| Catalog.FilterIsSubsequence | src/Components/GamesSection.tsx:48-50 | the filtered list is a subsequence of the catalog, in catalog order |
| Catalog.FilterMultiplicity | src/App.tsx:51-53 | a matching game keeps every catalog occurrence and a non-matching game keeps none |
| Catalog.FilterAppend | src/App.tsx:51-53 | filtering a concatenation is the concatenation of the filtered parts, so each decision depends on that game alone |
| Catalog.FilterEmptyQuery | src/Components/GamesSection.tsx:48-50 | the empty query keeps the whole catalog |
| Catalog.FilterCaseInsensitive | src/App.tsx:52 | a query and its lowered form select the same games |
| Catalog.HalScenario | src/App.tsx:51-53 | "hal" on [Halo, Half-Life, Portal] gives [Halo, Half-Life] in that order |
| Suggestions.Initial | src/App.tsx:7-12 | on mount the query is empty, there are no suggestions, the flag is off and the limit is 5 |
| Suggestions.UpdateSuggestions | src/App.tsx:45-57 | an empty query empties both lists and keeps the limit and flag; otherwise the matches are the filtered catalog, the display is their prefix of length min(limit, matches), or all of them with `showAll`, and the flag is on iff matches exceed the limit |
| Suggestions.SearchChange | src/App.tsx:18-22 | the typed text becomes the query and the suggestions are refreshed without `showAll`; limit, catalog and platform are untouched |
| Suggestions.SeeMore | src/App.tsx:65-70 | the limit grows by exactly 5; the matches are not re-filtered; the display becomes their prefix of length min(limit + 5, matches); the flag is on iff matches exceed the new limit |
| Suggestions.SuggestionClick | src/App.tsx:59-63 | the chosen title becomes the query and both lists are emptied; limit, flag and catalog stay |
| Suggestions.SelectPlatform | src/App.tsx:14-16 | the chosen platform is recorded and nothing else changes |
| Suggestions.FetchDone | src/App.tsx:33-38 | a loaded list replaces the catalog wholesale; a failure leaves the whole state as it was; nothing but the catalog changes |
| Suggestions.LimitStep | src/App.tsx:66-67 | only "See More" moves the limit, by exactly 5 upwards; no event lowers or resets it |
| Suggestions.LimitCountsSeeMore | src/App.tsx:66-67 | after any sequence of events the limit has grown by 5 per "See More" click in it |
| Suggestions.LimitFromMount | src/App.tsx:12 | from mount, after k "See More" clicks the limit is 5 + 5k |
| Suggestions.InitialValid | src/App.tsx:9-12 | the mount state satisfies the autocomplete invariant |
| Suggestions.ApplyPreservesValid | src/App.tsx:45-70 | every event keeps the invariant: limit a positive multiple of 5, display = prefix of matches cut at the limit, flag on iff matches exceed the limit while there are matches, no matches for an empty query, every match contains the query |
| Suggestions.RunPreservesValid | src/App.tsx:45-70 | the invariant holds after any sequence of events |
| Suggestions.ValidBounds | src/App.tsx:55 | in a valid state the display holds min(limit, matches) games, so never more than the limit or the matches |
| Suggestions.ThirtySevenMatches | src/App.tsx:65-70 | with 37 matches from limit 5: one click shows 10 with the flag on, six show 35 with the flag on, seven reach limit 40, show all 37 and turn the flag off |
| Paginator.PageCount | src/Components/GamesSection.tsx:66 | `Math.ceil(len / 15)`: the least page count whose pages cover the list, 0 exactly for an empty list |
| Paginator.Window | src/Components/GamesSection.tsx:55-56 | the current page holds at most 15 games; for page ≥ 1 it holds min(15, len − 15(page − 1)) of them, floored at 0, and its k-th game is game 15(page − 1) + k of the filtered list |
| Paginator.Initial | src/Components/GamesSection.tsx:19-22 | on mount the section has no games, is on page 1 and is not loading |
| Paginator.Refilter | src/Components/GamesSection.tsx:47-53 | the filter effect re-filters the catalog by the query and returns to page 1, changing nothing else |
| Paginator.QueryChanged | src/Components/GamesSection.tsx:47-53 | a query equal to the current one changes nothing; a different one re-filters the catalog by it and resets the page to 1 |
| Paginator.FetchStarted | src/Components/GamesSection.tsx:25-26 | starting a fetch raises the loading flag and changes nothing else |
| Paginator.FetchDone | src/Components/GamesSection.tsx:31-40 | both outcomes clear the loading flag; a loaded list replaces the catalog, re-filters and resets the page to 1; a failure changes nothing else |
| Paginator.PrevPage | src/Components/GamesSection.tsx:58-63 | Previous goes back exactly one page iff the page is above 1 and is otherwise a no-op; only the page changes |
| Paginator.NextPage | src/Components/GamesSection.tsx:65-70 | Next goes on exactly one page iff the page is below ceil(len / 15) and is otherwise a no-op; only the page changes |
| Paginator.Render | src/Components/GamesSection.tsx:76-113 | "Loading..." while loading; the grid of the current page iff not loading and the page is non-empty; "No Result Found" iff not loading, page empty and query non-empty |
| Paginator.InitialValid | src/Components/GamesSection.tsx:19-23 | the mount state satisfies the paging invariant |
| Paginator.ApplyPreservesValid | src/Components/GamesSection.tsx:47-70 | every event keeps the filtered list equal to the filter of the catalog by the query and the page within 1..max(1, ceil(len / 15)) |
| Paginator.RunPreservesValid | src/Components/GamesSection.tsx:47-70 | the paging invariant holds after any sequence of events |
| Paginator.WindowNonEmpty | src/Components/GamesSection.tsx:52-56 | in a valid state with at least one match the current page is non-empty, and once loading is over the grid is what is rendered |
| Paginator.PrevDisabled | src/Components/GamesSection.tsx:116-118 | for pages ≥ 1 the Previous button is disabled exactly when Previous would do nothing |
| Paginator.NextDisabled | src/Components/GamesSection.tsx:123-125 | the Next button is disabled exactly when Next would do nothing; with no matches and page ≥ 1 it is disabled and the page never advances |
| Paginator.PagesPrefix | src/Components/GamesSection.tsx:55-56 | pages 1..k laid end to end are the first min(15k, len) filtered games |
| Paginator.PagesReconstruct | src/Components/GamesSection.tsx:55-56 | pages 1..ceil(len / 15) laid end to end give back exactly the filtered list |
| Ui.Mounted | src/App.tsx:41-43 | after mount both components see the empty query and the section is loading on page 1 |
| Ui.RequestedPlatform | src/Components/GamesSection.tsx:27-29 | both fetchers ask for the chosen platform when it is non-empty, otherwise for "pc" |
| Ui.Apply | src/App.tsx:137 | a typed query or a picked title becomes the query of both components; choosing a new platform records it and starts the section's fetch (the `[plat]` effects, src/App.tsx:41-43 and src/Components/GamesSection.tsx:43-45), changing nothing else in the section; App-only events leave the section alone and section-only events leave App alone |
| Ui.SamePlatformNoOp | src/App.tsx:14-16 | choosing the platform already selected changes nothing, so no fetch starts |
| Ui.MountedValid | src/App.tsx:137 | after mount both components are valid and share the query |
| Ui.ApplyPreservesValid | src/App.tsx:137 | every event keeps both components valid and their queries equal |
| Ui.RunPreservesValid | src/App.tsx:137 | both invariants and the shared query hold after any sequence of events |
| Ui.FiltersAgree | src/Components/GamesSection.tsx:48-50 | with the same catalog in both components, typing a non-empty query makes the suggestion matches equal the section's filtered list |
| Ui.EmptyQueryShowsCatalog | src/App.tsx:46-50 | typing the empty query empties the suggestions but leaves the section's whole catalog as its filtered list |
| Ui.ChangesResetPage | src/Components/GamesSection.tsx:47-53 | typing a different query, picking a suggestion with a different title, or the section receiving a catalog puts the section on page 1 |
| Ui.PlatformRequested | src/App.tsx:28-31 | after choosing a non-empty platform both fetchers request that platform |

## Left out

- The network: `fetch`, JSON parsing, and the direct and CORS-proxied endpoint
  URLs. A fetch is modelled only by its outcome, a loaded list or a failure.
  The logged error message is not modelled.
- Timing and scheduling of the two fetches: overlapping requests,
  the stale-response race, React's effect scheduling and batched `setState`.
  Events are applied one at a time. Each fetch outcome reaches the component
  that issued it.
- `window.scrollTo` after a page change. It is a side effect with no state.
- JSX markup, styling and the Enter-key `handleSearchSubmit`, which only
  prevents the form's default action.
- Text.LowerStr: lowers ASCII letters only. Unicode case mapping and locales are
  not modelled.
- Game fields other than `title` are carried as opaque values. They
  take part in no logic.
- Number precision: the reveal limit and the page are unbounded integers. The
  source's floating-point numbers lose exactness only once the limit exceeds
  2^53 (about 1.8·10^15 See More clicks); no comparison
  against a list length changes before that.
