/** The match filter (`matches`): does a unified record satisfy every filter the
    query supplies? Genres compare by case-insensitive equality, actors by
    case-insensitive substring. */
module Matching {
  import opened Strings
  import opened Schemas

  /** `any(g.lower() == genre.lower() for g in genres)`. */
  function AnyGenreEquals(genres: seq<string>, genre: string): (r: bool)
    ensures r <==> exists i :: 0 <= i < |genres| && Lower(genres[i]) == Lower(genre)
  {
    if genres == [] then false
    else if Lower(genres[0]) == Lower(genre) then true
    else
      assert forall i :: 0 < i < |genres| ==> genres[i] == genres[1..][i - 1];
      AnyGenreEquals(genres[1..], genre)
  }

  /** `any(name.lower() in a.lower() for a in actors)`. */
  function AnyActorContains(actors: seq<string>, name: string): (r: bool)
    ensures r <==> exists i :: 0 <= i < |actors| && Contains(Lower(actors[i]), Lower(name))
  {
    if actors == [] then false
    else if Contains(Lower(actors[0]), Lower(name)) then true
    else
      assert forall i :: 0 < i < |actors| ==> actors[i] == actors[1..][i - 1];
      AnyActorContains(actors[1..], name)
  }

  /** `matches`: false as soon as a supplied filter fails, true otherwise. */
  function Matches(m: MovieResponse, params: SearchParams): (r: bool)
    ensures r <==>
      && (params.mtype.Some? ==> m.mtype == params.mtype.value)
      && (Truthy(params.genre) ==> exists g :: g in m.genres && Lower(g) == Lower(params.genre.value))
      && (Truthy(params.actors) ==> exists a :: a in m.actors && Contains(Lower(a), Lower(params.actors.value)))
  {
    if params.mtype.Some? && m.mtype != params.mtype.value then false
    else if Truthy(params.genre) && !AnyGenreEquals(m.genres, params.genre.value) then false
    else if Truthy(params.actors) && !AnyActorContains(m.actors, params.actors.value) then false
    else true
  }

  /** The filter as a predicate over records, for the comprehension that applies it. */
  function MatchesQuery(params: SearchParams): MovieResponse -> bool {
    m => Matches(m, params)
  }

  /** A query that supplies no filter keeps every record. */
  lemma MatchesWithoutFilters(m: MovieResponse, params: SearchParams)
    requires params.mtype.None? && !Truthy(params.genre) && !Truthy(params.actors)
    ensures Matches(m, params)
  {
  }

  /** Only the case-folded query values matter: two queries whose genre and actor
      names agree after folding accept the same records. */
  lemma MatchesIgnoresCase(m: MovieResponse, a: SearchParams, b: SearchParams)
    requires a.mtype == b.mtype
    requires Truthy(a.genre) == Truthy(b.genre) && Truthy(a.actors) == Truthy(b.actors)
    requires Truthy(a.genre) ==> Lower(a.genre.value) == Lower(b.genre.value)
    requires Truthy(a.actors) ==> Lower(a.actors.value) == Lower(b.actors.value)
    ensures Matches(m, a) == Matches(m, b)
  {
  }

  /** A record naming the requested actor in full matches that actor filter. */
  lemma MatchesFullActorName(m: MovieResponse, params: SearchParams, i: nat)
    requires params.mtype.None? && !Truthy(params.genre) && Truthy(params.actors)
    requires i < |m.actors| && m.actors[i] == params.actors.value
    ensures Matches(m, params)
  {
    var s := Lower(params.actors.value);
    assert OccursAt(Lower(m.actors[i]), s, 0);
    assert m.actors[i] in m.actors;
  }
}
