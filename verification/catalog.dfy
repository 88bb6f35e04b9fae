/** The game catalog both components fetch: the record, the fetch outcome, the
    platform parameter of the request and the title filter both components
    apply to it (src/App.tsx:51-53, src/Components/GamesSection.tsx:48-50). */
module Catalog {
  import opened Text

  datatype Option<T> = None | Some(value: T)

  /** One catalog entry. Only `title` takes part in any logic; the other fields
      are carried along untouched. */
  datatype Game = Game(
    id: int,
    title: string,
    thumbnail: string,
    shortDescription: string,
    genre: string,
    platform: string,
    gameUrl: string)

  /** What a fetch of the catalog ends in: a fresh list, or a failure that the
      source only logs. */
  datatype FetchOutcome = Loaded(games: seq<Game>) | Failed

  /** The platform the catalog request asks for. A missing platform, and the
      empty string (also falsy in JavaScript), ask for "pc". */
  function PlatformParam(plat: Option<string>): (r: string)
    ensures r != ""
    ensures plat.Some? && plat.value != "" ==> r == plat.value
    ensures plat.None? || plat.value == "" ==> r == "pc"
  {
    match plat
    case Some(p) => if p != "" then p else "pc"
    case None => "pc"
  }

  /** The filter's predicate: the lowered title contains the lowered query. */
  predicate Matches(g: Game, query: string)
    ensures Matches(g, query) <==> exists i :: OccursAt(LowerStr(g.title), LowerStr(query), i)
    ensures query == "" ==> Matches(g, query)
  {
    ContainsIffOccurs(LowerStr(g.title), LowerStr(query));
    Contains(LowerStr(g.title), LowerStr(query))
  }

  /** `games.filter(g => Matches(g, query))`: the matching games in catalog order. */
  function Filter(games: seq<Game>, query: string): (r: seq<Game>)
    ensures |r| <= |games|
    ensures forall g :: g in r <==> g in games && Matches(g, query)
  {
    if |games| == 0 then []
    else (if Matches(games[0], query) then [games[0]] else []) + Filter(games[1..], query)
  }

  /** `a` can be obtained from `b` by deleting elements, keeping the order. */
  ghost predicate IsSubsequence<T>(a: seq<T>, b: seq<T>)
    decreases |b|
  {
    if |a| == 0 then true
    else if |b| == 0 then false
    else (a[0] == b[0] && IsSubsequence(a[1..], b[1..])) || IsSubsequence(a, b[1..])
  }

  /** The filter keeps the catalog's relative order. */
  lemma {:induction false} FilterIsSubsequence(games: seq<Game>, query: string)
    ensures IsSubsequence(Filter(games, query), games)
  {
    if |games| > 0 {
      FilterIsSubsequence(games[1..], query);
      var rest := Filter(games[1..], query);
      if Matches(games[0], query) {
        assert Filter(games, query) == [games[0]] + rest;
        assert ([games[0]] + rest)[1..] == rest;
      } else {
        assert Filter(games, query) == rest;
      }
    }
  }

  /** Each game keeps every one of its catalog occurrences when it matches and
      loses all of them when it does not. */
  lemma {:induction false} FilterMultiplicity(games: seq<Game>, query: string, g: Game)
    ensures multiset(Filter(games, query))[g] == if Matches(g, query) then multiset(games)[g] else 0
  {
    if |games| > 0 {
      FilterMultiplicity(games[1..], query, g);
      assert games == [games[0]] + games[1..];
      assert multiset(games) == multiset{games[0]} + multiset(games[1..]);
    }
  }

  /** Filtering a concatenation filters each part: the decision for a game
      depends on that game alone. */
  lemma {:induction false} FilterAppend(a: seq<Game>, b: seq<Game>, query: string)
    ensures Filter(a + b, query) == Filter(a, query) + Filter(b, query)
  {
    if |a| == 0 {
      assert a + b == b;
    } else {
      assert (a + b)[1..] == a[1..] + b;
      FilterAppend(a[1..], b, query);
    }
  }

  /** The empty query matches every title, so it keeps the whole catalog. */
  lemma {:induction false} FilterEmptyQuery(games: seq<Game>)
    ensures Filter(games, "") == games
  {
    if |games| > 0 {
      FilterEmptyQuery(games[1..]);
    }
  }

  /** Case does not matter: a query and its lowered form select the same games. */
  lemma {:induction false} FilterCaseInsensitive(games: seq<Game>, query: string)
    ensures Filter(games, LowerStr(query)) == Filter(games, query)
  {
    LowerStrIdempotent(query);
    if |games| > 0 {
      FilterCaseInsensitive(games[1..], query);
    }
  }

  function Titled(title: string): Game
  {
    Game(0, title, "", "", "", "", "")
  }

  /** "hal" finds Halo and Half-Life, in catalog order, and not Portal. */
  lemma HalScenario()
    ensures Filter([Titled("Halo"), Titled("Half-Life"), Titled("Portal")], "hal")
            == [Titled("Halo"), Titled("Half-Life")]
  {
    var halo, half, portal := Titled("Halo"), Titled("Half-Life"), Titled("Portal");
    assert LowerStr("hal") == "hal";
    assert OccursAt(LowerStr(halo.title), "hal", 0);
    assert OccursAt(LowerStr(half.title), "hal", 0);
    var lp := LowerStr(portal.title);
    assert lp == "portal";
    forall i | 0 <= i && i + 3 <= |lp|
      ensures !OccursAt(lp, "hal", i)
    {
      assert lp[i..i + 3][0] == lp[i] != 'h';
    }
    assert !Matches(portal, "hal");
  }
}
