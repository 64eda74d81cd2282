/** Filter discovery (`discover_by_filters`): turning a genre name and an actor
    name into catalog candidates. The movie path always issues one discovery
    query; the series path uses the person's series credits when an actor is
    named. A name that resolves to nothing is silently dropped. */
module Discovery {
  import opened Wrappers
  import opened Strings
  import opened PyDict
  import opened Sequences
  import opened Upstream
  import opened Schemas
  import opened CacheAside

  /** The first id, in taxonomy order, whose name equals `genre` ignoring case:
      `next((i for i, n in genres.items() if n.lower() == genre.lower()), None)`. */
  function FirstGenreId(t: Taxonomy, genre: string): (r: Option<nat>)
    ensures r.None? <==> forall i :: 0 <= i < |t| ==> Lower(t[i].1) != Lower(genre)
    ensures r.Some? ==> exists i :: 0 <= i < |t| && t[i].0 == r.value && Lower(t[i].1) == Lower(genre)
                                    && forall j :: 0 <= j < i ==> Lower(t[j].1) != Lower(genre)
  {
    if t == [] then None
    else if Lower(t[0].1) == Lower(genre) then Some(t[0].0)
    else
      var r := FirstGenreId(t[1..], genre);
      if r.Some? then
        var i :| 0 <= i < |t[1..]| && t[1..][i].0 == r.value && Lower(t[1..][i].1) == Lower(genre)
                 && forall j :: 0 <= j < i ==> Lower(t[1..][j].1) != Lower(genre);
        assert t[i + 1].0 == r.value && Lower(t[i + 1].1) == Lower(genre);
        assert forall j :: 0 <= j < i + 1 ==> Lower(t[j].1) != Lower(genre) by {
          forall j | 0 < j < i + 1 ensures Lower(t[j].1) != Lower(genre) {
            assert t[j] == t[1..][j - 1];
          }
        }
        r
      else
        assert forall i :: 0 < i < |t| ==> t[i] == t[1..][i - 1];
        r
  }

  /** Some genre of `t` is called `genre`, ignoring case. */
  predicate NamesGenre(t: Taxonomy, genre: string) {
    exists i :: 0 <= i < |t| && Lower(t[i].1) == Lower(genre)
  }

  /** `str(x)` of an optional id. */
  function IdString(x: Option<nat>): (s: Option<string>)
    ensures s.Some? <==> x.Some?
    ensures x.Some? ==> AllDigits(s.value) && StringToNat(s.value) == x.value
  {
    if x.Some? then StringToNatOfNatToString(x.value); Some(NatToString(x.value)) else None
  }

  /** The fixed part of the discovery query: `{'api_key': ..., 'page': 1}`. */
  function BaseQuery(apiKey: string): (q: Dict<string, string>)
    ensures q == [("api_key", apiKey), ("page", "1")]
    ensures KeySet(q) == {"api_key", "page"}
  {
    var first := Put([], "api_key", apiKey);
    assert |"page"| != |"api_key"|;
    Put(first, "page", "1")
  }

  /** `if x: query[k] = x`: a new key goes at the end. */
  function PutIfPresent(d: Dict<string, string>, k: string, v: Option<string>): (r: Dict<string, string>)
    ensures KeySet(r) == KeySet(d) + (if v.Some? then {k} else {})
    ensures k !in KeySet(d) ==> r == d + (if v.Some? then [(k, v.value)] else [])
  {
    if v.Some? then Put(d, k, v.value) else d
  }

  /** The discovery query: `api_key` and `page=1` always, then `with_genres` and
      `with_cast` when resolved, in that order. */
  function DiscoverQuery(apiKey: string, withGenres: Option<string>, withCast: Option<string>): (q: Dict<string, string>)
    ensures q == [("api_key", apiKey), ("page", "1")]
                 + (if withGenres.Some? then [("with_genres", withGenres.value)] else [])
                 + (if withCast.Some? then [("with_cast", withCast.value)] else [])
  {
    var base := BaseQuery(apiKey);
    assert "with_genres" !in KeySet(base) by {
      assert |"with_genres"| != |"api_key"| && |"with_genres"| != |"page"|;
    }
    var withG := PutIfPresent(base, "with_genres", withGenres);
    assert "with_cast" !in KeySet(withG) by {
      assert |"with_cast"| != |"api_key"| && |"with_cast"| != |"page"| && |"with_cast"| != |"with_genres"|;
    }
    PutIfPresent(withG, "with_cast", withCast)
  }

  /** The query always carries the key and the first page; each filter is present
      exactly when it was resolved, with the resolved value; nothing else is sent. */
  lemma DiscoverQueryShape(apiKey: string, withGenres: Option<string>, withCast: Option<string>)
    ensures var q := DiscoverQuery(apiKey, withGenres, withCast);
            && DistinctKeys(q)
            && Get(q, "api_key") == Some(apiKey)
            && Get(q, "page") == Some("1")
            && Get(q, "with_genres") == withGenres
            && Get(q, "with_cast") == withCast
            && forall k :: Get(q, k) == GetQ(apiKey, withGenres, withCast, k)
  {
    var base := BaseQuery(apiKey);
    var withG := PutIfPresent(base, "with_genres", withGenres);
    var q := PutIfPresent(withG, "with_cast", withCast);
    BaseQueryShape(apiKey);
    PutIfPresentShape(base, "with_genres", withGenres);
    PutIfPresentShape(withG, "with_cast", withCast);
    forall k ensures Get(q, k) == GetQ(apiKey, withGenres, withCast, k) {
      assert Get(q, k) == if k == "with_cast" && withCast.Some? then withCast else Get(withG, k);
      assert Get(withG, k) == if k == "with_genres" && withGenres.Some? then withGenres else Get(base, k);
      assert Get(base, k) == GetQ(apiKey, None, None, k);
    }
    assert Get(q, "api_key") == GetQ(apiKey, withGenres, withCast, "api_key");
    assert Get(q, "page") == GetQ(apiKey, withGenres, withCast, "page");
    assert Get(q, "with_genres") == GetQ(apiKey, withGenres, withCast, "with_genres");
    assert Get(q, "with_cast") == GetQ(apiKey, withGenres, withCast, "with_cast");
  }

  /** The fixed part has distinct keys and holds exactly the key and the page. */
  lemma BaseQueryShape(apiKey: string)
    ensures DistinctKeys(BaseQuery(apiKey))
    ensures forall k :: Get(BaseQuery(apiKey), k) == GetQ(apiKey, None, None, k)
  {
    PutDistinct([], "api_key", apiKey);
    PutDistinct(Put([], "api_key", apiKey), "page", "1");
    forall k ensures Get(BaseQuery(apiKey), k) == GetQ(apiKey, None, None, k) {
      PutGet([], "api_key", apiKey, k);
      PutGet(Put([], "api_key", apiKey), "page", "1", k);
    }
  }

  /** A conditional assignment keeps the keys distinct and changes only its key. */
  lemma PutIfPresentShape(d: Dict<string, string>, k: string, v: Option<string>)
    requires DistinctKeys(d)
    ensures DistinctKeys(PutIfPresent(d, k, v))
    ensures forall k' :: Get(PutIfPresent(d, k, v), k') == if k' == k && v.Some? then v else Get(d, k')
  {
    if v.Some? {
      PutDistinct(d, k, v.value);
      forall k' ensures Get(PutIfPresent(d, k, v), k') == if k' == k && v.Some? then v else Get(d, k') {
        PutGet(d, k, v.value, k');
      }
    }
  }

  /** The value a discovery query holds for a parameter name. */
  function GetQ(apiKey: string, withGenres: Option<string>, withCast: Option<string>, k: string): Option<string> {
    if k == "with_cast" then withCast
    else if k == "with_genres" then withGenres
    else if k == "page" then Some("1")
    else if k == "api_key" then Some(apiKey)
    else None
  }

  /** The genre filter id: resolved against the endpoint's taxonomy only when a
      genre is given. */
  function GenreFilterId(entries: map<string, CachedValue>, p: Providers, ep: Endpoint, genre: Option<string>): (r: Result<Option<nat>>)
    requires WellFormed(entries)
    ensures !Truthy(genre) ==> r == Ok(None)
    ensures Truthy(genre) ==> (r.Ok? <==> ResolveGenres(entries, p, ep).Ok?)
    ensures Truthy(genre) && r.Ok? ==> r.value == FirstGenreId(ResolveGenres(entries, p, ep).value, genre.value)
  {
    if Truthy(genre) then
      var t :- ResolveGenres(entries, p, ep);
      Ok(FirstGenreId(t, genre.value))
    else Ok(None)
  }

  /** The id of the first person the person search returns for `actors`, if any. */
  function FirstPersonId(p: Providers, actors: string): (r: Result<Option<nat>>)
    ensures r.Ok? <==> ListField(p.personSearch(actors)).Ok?
    ensures r.Ok? ==> (r.value.None? <==> ListField(p.personSearch(actors)).value == [])
    ensures r.Ok? && r.value.Some? ==> r.value.value == ListField(p.personSearch(actors)).value[0].id
  {
    var people :- ListField(p.personSearch(actors));
    if |people| > 0 then Ok(Some(people[0].id)) else Ok(None)
  }

  /** What `_discover_movie_by_filters` returns. */
  function DiscoverMovieSpec(entries: map<string, CachedValue>, p: Providers, genre: Option<string>, actors: Option<string>)
    : (r: Result<(seq<RawItem>, Endpoint)>)
    requires WellFormed(entries)
    ensures r.Ok? ==> r.value.1 == MovieEp
    ensures Truthy(genre) && ResolveGenres(entries, p, MovieEp).Err? ==> r.Err?
    ensures Truthy(actors) && ListField(p.personSearch(actors.value)).Err? ==> r.Err?
  {
    var gid :- GenreFilterId(entries, p, MovieEp, genre);
    var cast :- if Truthy(actors) then FirstPersonId(p, actors.value) else Ok(None);
    var items :- ListField(p.discover(MovieEp, DiscoverQuery(p.apiKey, IdString(gid), IdString(cast))));
    Ok((items, MovieEp))
  }

  /** The query `_discover_movie_by_filters` sends, when its lookups succeed:
      `with_genres` is the first matching genre id and `with_cast` the first
      person's id, each present only when resolved. */
  lemma MovieQueryFilters(entries: map<string, CachedValue>, p: Providers, genre: Option<string>, actors: Option<string>)
    requires WellFormed(entries)
    requires GenreFilterId(entries, p, MovieEp, genre).Ok?
    requires Truthy(actors) ==> FirstPersonId(p, actors.value).Ok?
    ensures var gid := GenreFilterId(entries, p, MovieEp, genre).value;
            var cast := if Truthy(actors) then FirstPersonId(p, actors.value).value else None;
            var q := DiscoverQuery(p.apiKey, IdString(gid), IdString(cast));
            && DiscoverMovieSpec(entries, p, genre, actors) == (var items :- ListField(p.discover(MovieEp, q)); Ok((items, MovieEp)))
            && (Get(q, "with_genres").Some? <==>
                  Truthy(genre) && NamesGenre(ResolveGenres(entries, p, MovieEp).value, genre.value))
            && (Get(q, "with_cast").Some? <==> Truthy(actors) && ListField(p.personSearch(actors.value)).value != [])
  {
    var gid := GenreFilterId(entries, p, MovieEp, genre).value;
    var cast := if Truthy(actors) then FirstPersonId(p, actors.value).value else None;
    DiscoverQueryShape(p.apiKey, IdString(gid), IdString(cast));
  }

  /** The credits of one show pass the genre filter. */
  function HasGenre(gid: nat): RawItem -> bool {
    (show: RawItem) => gid in show.genreIds
  }

  /** What `_discover_tv_by_filters` returns. */
  function DiscoverTvSpec(entries: map<string, CachedValue>, p: Providers, genre: Option<string>, actors: Option<string>)
    : (r: Result<(seq<RawItem>, Endpoint)>)
    requires WellFormed(entries)
    ensures r.Ok? ==> r.value.1 == Tv
    ensures Truthy(actors) && ListField(p.personSearch(actors.value)) == Ok([]) ==> r == Ok(([], Tv))
    ensures !Truthy(actors) && GenreFilterId(entries, p, Tv, genre).Err? ==> r.Err?
    ensures Truthy(actors) && ListField(p.personSearch(actors.value)).Err? ==> r.Err?
    ensures Truthy(actors) && ListField(p.personSearch(actors.value)).Ok? && ListField(p.personSearch(actors.value)).value != []
            && ListField(p.tvCredits(ListField(p.personSearch(actors.value)).value[0].id)).Err? ==>
              r.Err?
    ensures Truthy(actors) && Truthy(genre) && ListField(p.personSearch(actors.value)).Ok? && ListField(p.personSearch(actors.value)).value != []
            && ResolveGenres(entries, p, Tv).Err? ==>
              r.Err?
    ensures Truthy(actors) && !Truthy(genre) && ListField(p.personSearch(actors.value)).Ok?
            && ListField(p.personSearch(actors.value)).value != [] ==>
              r == (var credits :- ListField(p.tvCredits(ListField(p.personSearch(actors.value)).value[0].id));
                    Ok((credits, Tv)))
  {
    if Truthy(actors) then
      var people :- ListField(p.personSearch(actors.value));
      if |people| == 0 then Ok(([], Tv))
      else
        var credits :- ListField(p.tvCredits(people[0].id));
        var gid :- GenreFilterId(entries, p, Tv, genre);
        Ok((TvCandidates(credits, gid), Tv))
    else
      var gid :- GenreFilterId(entries, p, Tv, genre);
      var items :- ListField(p.discover(Tv, DiscoverQuery(p.apiKey, IdString(gid), None)));
      Ok((items, Tv))
  }

  /** Without an actor the series path runs one discovery query: `with_genres` is
      the first matching series genre id, present only when resolved, and there is
      never a `with_cast`. */
  lemma TvQueryFilters(entries: map<string, CachedValue>, p: Providers, genre: Option<string>, actors: Option<string>)
    requires WellFormed(entries)
    requires !Truthy(actors)
    requires GenreFilterId(entries, p, Tv, genre).Ok?
    ensures var gid := GenreFilterId(entries, p, Tv, genre).value;
            var q := DiscoverQuery(p.apiKey, IdString(gid), None);
            && DiscoverTvSpec(entries, p, genre, actors) == (var items :- ListField(p.discover(Tv, q)); Ok((items, Tv)))
            && Get(q, "with_cast") == None
            && (Get(q, "with_genres").Some? <==>
                  Truthy(genre) && NamesGenre(ResolveGenres(entries, p, Tv).value, genre.value))
  {
    var gid := GenreFilterId(entries, p, Tv, genre).value;
    DiscoverQueryShape(p.apiKey, IdString(gid), None);
  }

  /** What `discover_by_filters` returns. */
  function DiscoverSpec(entries: map<string, CachedValue>, p: Providers, genre: Option<string>, actors: Option<string>, isSeries: bool)
    : (r: Result<(seq<RawItem>, Endpoint)>)
    requires WellFormed(entries)
    ensures r.Ok? ==> r.value.1 == EndpointFor(isSeries)
  {
    if isSeries then DiscoverTvSpec(entries, p, genre, actors) else DiscoverMovieSpec(entries, p, genre, actors)
  }

  /** The credits the series path keeps for a resolved genre id: `if genre_id:`
      tests the integer, so id 0 counts as unresolved. */
  function TvCandidates(credits: seq<RawItem>, gid: Option<nat>): (r: seq<RawItem>)
    ensures |r| <= |credits|
    ensures gid.Some? && gid.value != 0 ==> forall i :: 0 <= i < |r| ==> gid.value in r[i].genreIds
    ensures gid.None? || gid.value == 0 ==> r == credits
  {
    if gid.Some? && gid.value != 0 then Filter(credits, HasGenre(gid.value)) else credits
  }

  /** With an actor and a genre, the series path returns the person's credits
      narrowed by the genre id resolved against the series taxonomy. */
  lemma TvActorAndGenre(entries: map<string, CachedValue>, p: Providers, genre: Option<string>, actors: Option<string>)
    requires WellFormed(entries)
    requires Truthy(actors) && Truthy(genre)
    requires ListField(p.personSearch(actors.value)).Ok? && ListField(p.personSearch(actors.value)).value != []
    requires ListField(p.tvCredits(ListField(p.personSearch(actors.value)).value[0].id)).Ok?
    requires ResolveGenres(entries, p, Tv).Ok?
    ensures DiscoverTvSpec(entries, p, genre, actors) ==
            Ok((TvCandidates(ListField(p.tvCredits(ListField(p.personSearch(actors.value)).value[0].id)).value,
                             FirstGenreId(ResolveGenres(entries, p, Tv).value, genre.value)), Tv))
  {
  }

  /** The narrowed credits are the credits that list the genre id, in credit order,
      each kept as often as it occurs; an unresolved genre, or one resolved to
      id 0, leaves the credits as they were. */
  lemma TvCandidatesFilter(credits: seq<RawItem>, gid: Option<nat>)
    ensures gid.Some? && gid.value != 0 ==>
              && Subseq(TvCandidates(credits, gid), credits)
              && (forall show :: show in TvCandidates(credits, gid) ==> gid.value in show.genreIds)
              && (forall show: RawItem :: gid.value in show.genreIds ==>
                    multiset(TvCandidates(credits, gid))[show] == multiset(credits)[show])
    ensures gid.None? || gid.value == 0 ==> TvCandidates(credits, gid) == credits
  {
    if gid.Some? && gid.value != 0 {
      var out := Filter(credits, HasGenre(gid.value));
      FilterIsSubseq(credits, HasGenre(gid.value));
      forall show | show in out ensures gid.value in show.genreIds {
        assert multiset(out)[show] > 0;
      }
    }
  }

  /** `_discover_movie_by_filters`: fills the query step by step, then issues one
      discovery call. */
  method DiscoverMovieByFilters(store: Store, p: Providers, genre: Option<string>, actors: Option<string>)
    returns (r: Result<(seq<RawItem>, Endpoint)>)
    requires store.Valid()
    modifies store
    ensures store.Valid()
    ensures r == DiscoverMovieSpec(old(store.entries), p, genre, actors)
    ensures Transparent(old(store.entries), store.entries, p)
    ensures OnlyReaderWrites(old(store.entries), old(store.ttls), store.entries, store.ttls)
  {
    var endpoint := MovieEp;
    var query: Dict<string, string> := Put(Put([], "api_key", p.apiKey), "page", "1");
    var gid: Option<nat> := None;
    if Truthy(genre) {
      var genres :- FetchGenres(store, p, false);
      gid := FirstGenreId(genres, genre.value);
      if gid.Some? {
        query := Put(query, "with_genres", NatToString(gid.value));
      }
    }
    var cast: Option<nat> := None;
    if Truthy(actors) {
      var people :- ListField(p.personSearch(actors.value));
      if |people| > 0 {
        cast := Some(people[0].id);
        query := Put(query, "with_cast", NatToString(people[0].id));
      }
    }
    assert query == DiscoverQuery(p.apiKey, IdString(gid), IdString(cast));
    var items :- ListField(p.discover(endpoint, query));
    return Ok((items, endpoint));
  }

  /** `_discover_tv_by_filters`: the person's series credits (narrowed to the
      resolved genre) when an actor is named, a discovery call otherwise. */
  method DiscoverTvByFilters(store: Store, p: Providers, genre: Option<string>, actors: Option<string>)
    returns (r: Result<(seq<RawItem>, Endpoint)>)
    requires store.Valid()
    modifies store
    ensures store.Valid()
    ensures r == DiscoverTvSpec(old(store.entries), p, genre, actors)
    ensures Transparent(old(store.entries), store.entries, p)
    ensures OnlyReaderWrites(old(store.entries), old(store.ttls), store.entries, store.ttls)
  {
    var endpoint := Tv;
    if Truthy(actors) {
      var people :- ListField(p.personSearch(actors.value));
      if |people| == 0 {
        return Ok(([], endpoint));
      }
      var personId := people[0].id;
      var credits :- ListField(p.tvCredits(personId));
      if Truthy(genre) {
        var genres :- FetchGenres(store, p, true);
        var genreId := FirstGenreId(genres, genre.value);
        if genreId.Some? && genreId.value != 0 {
          credits := Filter(credits, HasGenre(genreId.value));
        }
      }
      return Ok((credits, endpoint));
    } else {
      var query: Dict<string, string> := Put(Put([], "api_key", p.apiKey), "page", "1");
      var gid: Option<nat> := None;
      if Truthy(genre) {
        var genres :- FetchGenres(store, p, true);
        gid := FirstGenreId(genres, genre.value);
        if gid.Some? {
          query := Put(query, "with_genres", NatToString(gid.value));
        }
      }
      assert query == DiscoverQuery(p.apiKey, IdString(gid), None);
      var items :- ListField(p.discover(endpoint, query));
      return Ok((items, endpoint));
    }
  }

  /** `discover_by_filters`: the series path or the movie path. */
  method DiscoverByFilters(store: Store, p: Providers, genre: Option<string>, actors: Option<string>, isSeries: bool)
    returns (r: Result<(seq<RawItem>, Endpoint)>)
    requires store.Valid()
    modifies store
    ensures store.Valid()
    ensures r == DiscoverSpec(old(store.entries), p, genre, actors, isSeries)
    ensures Transparent(old(store.entries), store.entries, p)
    ensures OnlyReaderWrites(old(store.entries), old(store.ttls), store.entries, store.ttls)
  {
    if isSeries {
      r := DiscoverTvByFilters(store, p, genre, actors);
    } else {
      r := DiscoverMovieByFilters(store, p, genre, actors);
    }
  }
}
