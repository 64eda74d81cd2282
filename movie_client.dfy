/** The query router (`search_tmdb`) and its four retrieval strategies. Each
    strategy is a method because it reads and fills the shared cache; each is
    proved equal to a function of the cache as it was when the request began,
    since no cache-aside reader can observe what the strategy writes. */
module MovieClient {
  import opened Wrappers
  import opened Strings
  import opened Sequences
  import opened Upstream
  import opened Schemas
  import opened CacheAside
  import opened Discovery
  import opened Mapper
  import opened Matching

  /** The four branches of `search_tmdb`. */
  datatype Strategy = TitleOnly | TitleWithFilters | FiltersOnly | PopularFallback

  /** `any([params.genre, params.actors, params.type])`: the type alone counts. */
  function HasFilters(params: SearchParams): (b: bool)
    ensures Truthy(params.genre) ==> b
    ensures Truthy(params.actors) ==> b
    ensures params.mtype.Some? ==> b
    ensures b ==> Truthy(params.genre) || Truthy(params.actors) || params.mtype.Some?
  {
    Truthy(params.genre) || Truthy(params.actors) || params.mtype.Some?
  }

  /** `params.type == 'series'`. */
  predicate IsSeries(params: SearchParams) {
    params.mtype == Some(Series)
  }

  /** The branch `search_tmdb` takes. A title selects one of the two title
      branches, a filter one of the two filtered branches; a query with neither
      falls back to the popular lists. */
  function Classify(params: SearchParams): (s: Strategy)
    ensures s == TitleOnly || s == TitleWithFilters <==> Truthy(params.title)
    ensures s == TitleWithFilters || s == FiltersOnly <==> HasFilters(params)
    ensures s == PopularFallback <==> !Truthy(params.title) && !Truthy(params.genre) && !Truthy(params.actors) && params.mtype.None?
    ensures s == TitleOnly ==> params.mtype.None?
    ensures s == TitleWithFilters <==>
              Truthy(params.title) && (Truthy(params.genre) || Truthy(params.actors) || params.mtype.Some?)
    ensures s == FiltersOnly <==>
              !Truthy(params.title) && (Truthy(params.genre) || Truthy(params.actors) || params.mtype.Some?)
  {
    var hasTitle := Truthy(params.title);
    var hasFilters := HasFilters(params);
    if hasTitle && !hasFilters then TitleOnly
    else if hasTitle && hasFilters then TitleWithFilters
    else if hasFilters then FiltersOnly
    else PopularFallback
  }

  /** The taxonomy `genres_map[t]` the fallback hands to records of kind `t`. */
  function GenresFor(ep: Endpoint, movieGenres: Taxonomy, tvGenres: Taxonomy): Taxonomy {
    match ep
    case Tv => tvGenres
    case MovieEp => movieGenres
  }

  /** Each raw item paired with the endpoint it came from. */
  function Tag(items: seq<RawItem>, ep: Endpoint): (r: seq<(RawItem, Endpoint)>)
    ensures |r| == |items|
    ensures forall i :: 0 <= i < |items| ==> r[i] == (items[i], ep)
  {
    seq(|items|, i requires 0 <= i < |items| => (items[i], ep))
  }

  /** `asyncio.gather` over `map_to_movie` of every tagged item, each with the
      taxonomy of its own endpoint: all records in item order, or an error when
      any mapping raises. */
  function MapTagged(raw: seq<(RawItem, Endpoint)>, movieGenres: Taxonomy, tvGenres: Taxonomy, params: SearchParams, p: Providers)
    : (r: Result<seq<MovieResponse>>)
    ensures r.Ok? <==> forall i :: 0 <= i < |raw| ==> MapToMovie(raw[i].0, raw[i].1, GenresFor(raw[i].1, movieGenres, tvGenres), params, p).Ok?
    ensures r.Ok? ==> |r.value| == |raw|
    ensures r.Ok? ==> forall i :: 0 <= i < |raw| ==>
      r.value[i] == MapToMovie(raw[i].0, raw[i].1, GenresFor(raw[i].1, movieGenres, tvGenres), params, p).value
  {
    if raw == [] then Ok([])
    else
      assert forall i :: 0 < i < |raw| ==> raw[i] == raw[1..][i - 1];
      var head :- MapToMovie(raw[0].0, raw[0].1, GenresFor(raw[0].1, movieGenres, tvGenres), params, p);
      var rest :- MapTagged(raw[1..], movieGenres, tvGenres, params, p);
      Ok([head] + rest)
  }

  /** The gather the three search strategies run: every item of one endpoint,
      mapped with that endpoint's taxonomy. */
  function MapAll(items: seq<RawItem>, ep: Endpoint, genres: Taxonomy, params: SearchParams, p: Providers)
    : (r: Result<seq<MovieResponse>>)
    ensures r.Ok? <==> forall i :: 0 <= i < |items| ==> MapToMovie(items[i], ep, genres, params, p).Ok?
    ensures r.Ok? ==> |r.value| == |items|
    ensures r.Ok? ==> forall i :: 0 <= i < |items| ==> r.value[i] == MapToMovie(items[i], ep, genres, params, p).value
  {
    var raw := Tag(items, ep);
    assert forall i :: 0 <= i < |items| ==> GenresFor(raw[i].1, genres, genres) == genres;
    MapTagged(raw, genres, genres, params, p)
  }

  /** Every item of `items` maps to a record without raising. */
  predicate GatherOk(items: seq<RawItem>, ep: Endpoint, genres: Taxonomy, params: SearchParams, p: Providers) {
    forall i :: 0 <= i < |items| ==> MapToMovie(items[i], ep, genres, params, p).Ok?
  }

  /** `out` is one record per item of `items`, in item order, each the item's mapping. */
  predicate MapsEach(out: seq<MovieResponse>, items: seq<RawItem>, ep: Endpoint, genres: Taxonomy, params: SearchParams, p: Providers) {
    && GatherOk(items, ep, genres, params, p)
    && |out| == |items|
    && forall i :: 0 <= i < |items| ==> out[i] == MapToMovie(items[i], ep, genres, params, p).value
  }

  // ---------------------------------------------------------------- title only

  /** `['tv', 'movie'] if not params.type else ['tv'] if is_series else ['movie']`. */
  function TitleEndpoints(params: SearchParams, isSeries: bool): (eps: seq<Endpoint>)
    ensures Tv in eps <==> params.mtype.None? || isSeries
    ensures MovieEp in eps <==> params.mtype.None? || !isSeries
    ensures forall i, j :: 0 <= i < j < |eps| ==> eps[i] != eps[j]
    ensures params.mtype.None? ==> eps[0] == Tv
  {
    if params.mtype.None? then [Tv, MovieEp] else if isSeries then [Tv] else [MovieEp]
  }

  /** The router sends only type-less queries to the title-only strategy, so it
      always searches series first and movies second. */
  lemma TitleOnlyEndpointsWhenRouted(params: SearchParams)
    requires Classify(params) == TitleOnly
    ensures TitleEndpoints(params, IsSeries(params)) == [Tv, MovieEp]
  {
  }

  /** One endpoint of the title-only strategy: search, taxonomy, mapping. */
  function EndpointMovies(entries: map<string, CachedValue>, p: Providers, params: SearchParams, ep: Endpoint)
    : Result<seq<MovieResponse>>
    requires WellFormed(entries)
  {
    var found :- SearchResults(p, params.title, ep == Tv);
    var genres :- ResolveGenres(entries, p, ep);
    MapAll(found.0, found.1, genres, params, p)
  }

  /** An endpoint succeeds exactly when its search, its taxonomy and every
      mapping succeed, and then yields one record per search result, in search
      order, each mapped with the endpoint's taxonomy. */
  lemma EndpointMoviesRecords(entries: map<string, CachedValue>, p: Providers, params: SearchParams, ep: Endpoint)
    requires WellFormed(entries)
    ensures var r := EndpointMovies(entries, p, params, ep);
            var found := SearchResults(p, params.title, ep == Tv);
            var genres := ResolveGenres(entries, p, ep);
            && (r.Ok? <==> found.Ok? && genres.Ok? && GatherOk(found.value.0, ep, genres.value, params, p))
            && (r.Ok? ==> found.Ok? && genres.Ok? && MapsEach(r.value, found.value.0, ep, genres.value, params, p))
  {
    var found := SearchResults(p, params.title, ep == Tv);
    if found.Ok? {
      assert found.value.1 == ep;
    }
  }

  /** What `_search_by_title_only` returns for a list of endpoints. */
  function TitleOnlySpec(entries: map<string, CachedValue>, p: Providers, params: SearchParams, eps: seq<Endpoint>)
    : Result<seq<MovieResponse>>
    requires WellFormed(entries)
  {
    if eps == [] then Ok([])
    else
      var head :- EndpointMovies(entries, p, params, eps[0]);
      var rest :- TitleOnlySpec(entries, p, params, eps[1..]);
      Ok(head + rest)
  }

  /** Every listed endpoint's search, taxonomy and mapping succeed. */
  predicate AllEndpointsOk(entries: map<string, CachedValue>, p: Providers, params: SearchParams, eps: seq<Endpoint>)
    requires WellFormed(entries)
  {
    forall i :: 0 <= i < |eps| ==> EndpointMovies(entries, p, params, eps[i]).Ok?
  }

  /** The strategy succeeds exactly when every endpoint does, and its output
      starts with the first endpoint's records. */
  lemma {:induction false} TitleOnlySpecOutcome(entries: map<string, CachedValue>, p: Providers, params: SearchParams, eps: seq<Endpoint>)
    requires WellFormed(entries)
    ensures var r := TitleOnlySpec(entries, p, params, eps);
            && (r.Ok? <==> AllEndpointsOk(entries, p, params, eps))
            && (r.Ok? && eps != [] ==> EndpointMovies(entries, p, params, eps[0]).value <= r.value)
  {
    if eps != [] {
      AllEndpointsOkCons(entries, p, params, eps);
      TitleOnlySpecOutcome(entries, p, params, eps[1..]);
    }
  }

  lemma AllEndpointsOkCons(entries: map<string, CachedValue>, p: Providers, params: SearchParams, eps: seq<Endpoint>)
    requires WellFormed(entries) && eps != []
    ensures AllEndpointsOk(entries, p, params, eps)
            <==> EndpointMovies(entries, p, params, eps[0]).Ok? && AllEndpointsOk(entries, p, params, eps[1..])
  {
    var rest := eps[1..];
    if AllEndpointsOk(entries, p, params, eps) {
      forall k | 0 <= k < |rest| ensures EndpointMovies(entries, p, params, rest[k]).Ok? {
        assert rest[k] == eps[k + 1];
      }
    }
    if EndpointMovies(entries, p, params, eps[0]).Ok? && AllEndpointsOk(entries, p, params, rest) {
      forall k | 0 <= k < |eps| ensures EndpointMovies(entries, p, params, eps[k]).Ok? {
        if k > 0 {
          assert eps[k] == rest[k - 1];
        }
      }
    }
  }

  /** `movies + result`, when the rest succeeds. */
  function Prepend(movies: seq<MovieResponse>, r: Result<seq<MovieResponse>>): Result<seq<MovieResponse>> {
    if r.Ok? then Ok(movies + r.value) else Err
  }

  /** Title-only output is the series results followed by the movie results, each
      in search order, and every search result yields one record: nothing is
      filtered out. */
  lemma TitleOnlyOutput(entries: map<string, CachedValue>, p: Providers, params: SearchParams)
    requires WellFormed(entries)
    requires TitleOnlySpec(entries, p, params, [Tv, MovieEp]).Ok?
    ensures var out := TitleOnlySpec(entries, p, params, [Tv, MovieEp]).value;
            && EndpointMovies(entries, p, params, Tv).Ok?
            && EndpointMovies(entries, p, params, MovieEp).Ok?
            && out == EndpointMovies(entries, p, params, Tv).value + EndpointMovies(entries, p, params, MovieEp).value
            && |out| == |SearchResults(p, params.title, true).value.0| + |SearchResults(p, params.title, false).value.0|
  {
    var tv := EndpointMovies(entries, p, params, Tv);
    var movie := EndpointMovies(entries, p, params, MovieEp);
    var tail := TitleOnlySpec(entries, p, params, [MovieEp]);
    assert [Tv, MovieEp][1..] == [MovieEp];
    assert tv.Ok? && tail.Ok?;
    assert TitleOnlySpec(entries, p, params, [Tv, MovieEp]).value == tv.value + tail.value;
    assert [MovieEp][1..] == [];
    assert TitleOnlySpec(entries, p, params, []) == Ok([]);
    assert movie.Ok?;
    assert tail.value == movie.value + [];
    EndpointMoviesRecords(entries, p, params, Tv);
    EndpointMoviesRecords(entries, p, params, MovieEp);
  }

  /** One turn of the endpoint loop: the endpoint's records are appended to
      what was collected, or its error ends the strategy. */
  lemma TitleOnlyStep(entries: map<string, CachedValue>, p: Providers, params: SearchParams,
                      eps: seq<Endpoint>, i: nat, movies: seq<MovieResponse>)
    requires WellFormed(entries)
    requires i < |eps|
    ensures var step := EndpointMovies(entries, p, params, eps[i]);
            Prepend(movies, TitleOnlySpec(entries, p, params, eps[i..]))
            == if step.Ok? then Prepend(movies + step.value, TitleOnlySpec(entries, p, params, eps[i + 1..])) else Err
  {
    var tail := eps[i..];
    assert tail != [] && tail[0] == eps[i];
    assert tail[1..] == eps[i + 1..];
    TitleOnlySpecCons(entries, p, params, tail);
    PrependJoin(movies, EndpointMovies(entries, p, params, eps[i]), TitleOnlySpec(entries, p, params, eps[i + 1..]));
  }

  /** The strategy over a non-empty list is the first endpoint's records joined
      to the strategy over the rest. */
  lemma TitleOnlySpecCons(entries: map<string, CachedValue>, p: Providers, params: SearchParams, eps: seq<Endpoint>)
    requires WellFormed(entries) && eps != []
    ensures var step := EndpointMovies(entries, p, params, eps[0]);
            var rest := TitleOnlySpec(entries, p, params, eps[1..]);
            TitleOnlySpec(entries, p, params, eps) == if step.Ok? && rest.Ok? then Ok(step.value + rest.value) else Err
  {
  }

  /** Prepending what was collected distributes over a join. */
  lemma PrependJoin(movies: seq<MovieResponse>, step: Result<seq<MovieResponse>>, rest: Result<seq<MovieResponse>>)
    ensures Prepend(movies, if step.Ok? && rest.Ok? then Ok(step.value + rest.value) else Err)
            == if step.Ok? then Prepend(movies + step.value, rest) else Err
  {
    if step.Ok? && rest.Ok? {
      assert movies + (step.value + rest.value) == (movies + step.value) + rest.value;
    }
  }

  /** One turn of `_search_by_title_only`'s loop: search one endpoint, fetch its
      taxonomy through the cache, map every result. */
  method SearchEndpoint(store: Store, p: Providers, params: SearchParams, ep: Endpoint,
                        ghost base: map<string, CachedValue>)
    returns (r: Result<seq<MovieResponse>>)
    requires store.Valid() && Transparent(base, store.entries, p)
    modifies store
    ensures store.Valid()
    ensures Transparent(base, store.entries, p)
    ensures OnlyReaderWrites(old(store.entries), old(store.ttls), store.entries, store.ttls)
    ensures r == EndpointMovies(base, p, params, ep)
  {
    assert EndpointFor(ep == Tv) == ep;
    ghost var start := store.entries;
    var found :- SearchResults(p, params.title, ep == Tv);
    var genres :- FetchGenres(store, p, ep == Tv);
    TransparentTrans(base, start, store.entries, p);
    r := MapAll(found.0, found.1, genres, params, p);
  }

  /** `_search_by_title_only`. */
  method SearchByTitleOnly(store: Store, p: Providers, params: SearchParams, isSeries: bool)
    returns (r: Result<seq<MovieResponse>>)
    requires store.Valid()
    modifies store
    ensures store.Valid()
    ensures Transparent(old(store.entries), store.entries, p)
    ensures OnlyReaderWrites(old(store.entries), old(store.ttls), store.entries, store.ttls)
    ensures r == TitleOnlySpec(old(store.entries), p, params, TitleEndpoints(params, isSeries))
  {
    ghost var before, beforeTtls := store.entries, store.ttls;
    var endpoints := TitleEndpoints(params, isSeries);
    var movies: seq<MovieResponse> := [];
    var i := 0;
    assert endpoints[0..] == endpoints;
    ghost var whole := TitleOnlySpec(before, p, params, endpoints);
    assert whole.Ok? ==> [] + whole.value == whole.value;
    assert Prepend([], whole) == whole;
    while i < |endpoints|
      invariant 0 <= i <= |endpoints|
      invariant store.Valid()
      invariant Transparent(before, store.entries, p)
      invariant OnlyReaderWrites(before, beforeTtls, store.entries, store.ttls)
      invariant whole == Prepend(movies, TitleOnlySpec(before, p, params, endpoints[i..]))
    {
      TitleOnlyStep(before, p, params, endpoints, i, movies);
      ghost var midEntries, midTtls := store.entries, store.ttls;
      var mapped :- SearchEndpoint(store, p, params, endpoints[i], before);
      OnlyReaderWritesTrans(before, beforeTtls, midEntries, midTtls, store.entries, store.ttls);
      movies := movies + mapped;
      i := i + 1;
    }
    assert endpoints[i..] == [];
    assert TitleOnlySpec(before, p, params, []) == Ok([]);
    assert movies + [] == movies;
    return Ok(movies);
  }

  // ------------------------------------------------------------- filtered paths

  /** `[m for m in mapped if matches(m, params)]`, after the gather succeeded. */
  function KeepMatching(mapped: Result<seq<MovieResponse>>, params: SearchParams): (r: Result<seq<MovieResponse>>)
    ensures r.Ok? <==> mapped.Ok?
    ensures r.Ok? ==> |r.value| <= |mapped.value|
    ensures r.Ok? ==> forall i :: 0 <= i < |r.value| ==> Matches(r.value[i], params)
  {
    var records :- mapped;
    Ok(Filter(records, MatchesQuery(params)))
  }

  /** The match filter keeps exactly the matching records, in their order. */
  lemma KeepMatchingSelects(mapped: seq<MovieResponse>, params: SearchParams)
    ensures KeepMatching(Ok(mapped), params).Ok?
    ensures var out := KeepMatching(Ok(mapped), params).value;
            && (forall m :: m in out ==> Matches(m, params))
            && (forall m :: Matches(m, params) ==> multiset(out)[m] == multiset(mapped)[m])
            && Subseq(out, mapped)
  {
    var out := Filter(mapped, MatchesQuery(params));
    FilterIsSubseq(mapped, MatchesQuery(params));
    forall m | m in out
      ensures Matches(m, params)
    {
      assert multiset(out)[m] > 0;
    }
  }

  /** The records `_search_by_title_with_filters` maps before filtering: a series
      query with an actor takes the discovery path, any other query the title
      search, and each item yields one record. */
  function TitleWithFiltersCandidates(entries: map<string, CachedValue>, p: Providers, params: SearchParams, isSeries: bool)
    : (r: Result<seq<MovieResponse>>)
    requires WellFormed(entries)
    ensures var found := DiscoverSpec(entries, p, params.genre, params.actors, isSeries);
            var genres := ResolveGenres(entries, p, EndpointFor(isSeries));
            Truthy(params.actors) && isSeries ==>
              && (r.Ok? <==> found.Ok? && genres.Ok? && GatherOk(found.value.0, Tv, genres.value, params, p))
              && (r.Ok? ==> MapsEach(r.value, found.value.0, Tv, genres.value, params, p))
    ensures var found := SearchResults(p, params.title, isSeries);
            var genres := ResolveGenres(entries, p, EndpointFor(isSeries));
            !(Truthy(params.actors) && isSeries) ==>
              && (r.Ok? <==> found.Ok? && genres.Ok? && GatherOk(found.value.0, EndpointFor(isSeries), genres.value, params, p))
              && (r.Ok? ==> MapsEach(r.value, found.value.0, EndpointFor(isSeries), genres.value, params, p))
  {
    var found :- if Truthy(params.actors) && isSeries
                 then DiscoverSpec(entries, p, params.genre, params.actors, isSeries)
                 else SearchResults(p, params.title, isSeries);
    var genres :- ResolveGenres(entries, p, EndpointFor(isSeries));
    MapAll(found.0, found.1, genres, params, p)
  }

  /** `_search_by_title_with_filters`. */
  method SearchByTitleWithFilters(store: Store, p: Providers, params: SearchParams, isSeries: bool)
    returns (r: Result<seq<MovieResponse>>)
    requires store.Valid()
    modifies store
    ensures store.Valid()
    ensures Transparent(old(store.entries), store.entries, p)
    ensures OnlyReaderWrites(old(store.entries), old(store.ttls), store.entries, store.ttls)
    ensures r == KeepMatching(TitleWithFiltersCandidates(old(store.entries), p, params, isSeries), params)
  {
    ghost var before, beforeTtls := store.entries, store.ttls;
    var found: (seq<RawItem>, Endpoint);
    if Truthy(params.actors) && isSeries {
      found :- DiscoverByFilters(store, p, params.genre, params.actors, isSeries);
    } else {
      found :- SearchResults(p, params.title, isSeries);
    }
    ghost var mid, midTtls := store.entries, store.ttls;
    var genres :- FetchGenres(store, p, isSeries);
    TransparentTrans(before, mid, store.entries, p);
    OnlyReaderWritesTrans(before, beforeTtls, mid, midTtls, store.entries, store.ttls);
    var mapped :- MapAll(found.0, found.1, genres, params, p);
    return Ok(Filter(mapped, MatchesQuery(params)));
  }

  /** The records `_search_by_filters_only` maps before filtering: always the
      discovery path, one record per discovered item. */
  function FiltersOnlyCandidates(entries: map<string, CachedValue>, p: Providers, params: SearchParams, isSeries: bool)
    : (r: Result<seq<MovieResponse>>)
    requires WellFormed(entries)
    ensures var found := DiscoverSpec(entries, p, params.genre, params.actors, isSeries);
            var genres := ResolveGenres(entries, p, EndpointFor(isSeries));
            r.Ok? <==> found.Ok? && genres.Ok? && GatherOk(found.value.0, EndpointFor(isSeries), genres.value, params, p)
    ensures var found := DiscoverSpec(entries, p, params.genre, params.actors, isSeries);
            var genres := ResolveGenres(entries, p, EndpointFor(isSeries));
            r.Ok? ==> found.Ok? && genres.Ok? && MapsEach(r.value, found.value.0, EndpointFor(isSeries), genres.value, params, p)
  {
    var found :- DiscoverSpec(entries, p, params.genre, params.actors, isSeries);
    var genres :- ResolveGenres(entries, p, EndpointFor(isSeries));
    MapAll(found.0, found.1, genres, params, p)
  }

  /** `_search_by_filters_only`. */
  method SearchByFiltersOnly(store: Store, p: Providers, params: SearchParams, isSeries: bool)
    returns (r: Result<seq<MovieResponse>>)
    requires store.Valid()
    modifies store
    ensures store.Valid()
    ensures Transparent(old(store.entries), store.entries, p)
    ensures OnlyReaderWrites(old(store.entries), old(store.ttls), store.entries, store.ttls)
    ensures r == KeepMatching(FiltersOnlyCandidates(old(store.entries), p, params, isSeries), params)
  {
    ghost var before, beforeTtls := store.entries, store.ttls;
    var found :- DiscoverByFilters(store, p, params.genre, params.actors, isSeries);
    ghost var mid, midTtls := store.entries, store.ttls;
    var genres :- FetchGenres(store, p, isSeries);
    TransparentTrans(before, mid, store.entries, p);
    OnlyReaderWritesTrans(before, beforeTtls, mid, midTtls, store.entries, store.ttls);
    var mapped :- MapAll(found.0, found.1, genres, params, p);
    return Ok(Filter(mapped, MatchesQuery(params)));
  }

  // ---------------------------------------------------------- popular fallback

  /** `results[:20]`. */
  const PopularLimit: nat := 20

  function Min(a: nat, b: nat): nat {
    if a < b then a else b
  }

  /** Ascending by title, the order of `results.sort(key=lambda m: m.title)`. */
  predicate SortedByTitle(s: seq<MovieResponse>) {
    forall i, j :: 0 <= i < j < |s| ==> TitleLe(s[i].title, s[j].title)
  }

  /** `out` holds the first `PopularLimit` records of `mapped` by title: as many
      as the limit allows, drawn from `mapped`, in title order, and no record
      left out sorts before one kept. */
  predicate TopByTitle(out: seq<MovieResponse>, mapped: seq<MovieResponse>) {
    && |out| == Min(PopularLimit, |mapped|)
    && SortedByTitle(out)
    && multiset(out) <= multiset(mapped)
    && forall x, y :: x in multiset(mapped) - multiset(out) && y in out ==> TitleLe(y.title, x.title)
  }

  /** What `_get_popular_fallback` returns from the mapped records: the top
      records by title when the query has no title, the first records otherwise. */
  predicate PopularOutcome(out: seq<MovieResponse>, mapped: seq<MovieResponse>, params: SearchParams) {
    if Truthy(params.title) then out == mapped[..Min(PopularLimit, |mapped|)]
    else TopByTitle(out, mapped)
  }

  /** With at most `PopularLimit` records nothing is dropped: the output is the
      mapped records, rearranged. */
  lemma TopByTitleKeepsAllWhenFew(out: seq<MovieResponse>, mapped: seq<MovieResponse>)
    requires TopByTitle(out, mapped)
    requires |mapped| <= PopularLimit
    ensures multiset(out) == multiset(mapped)
  {
    var extra := multiset(mapped) - multiset(out);
    assert multiset(mapped) == multiset(out) + extra;
    assert |extra| == 0;
  }

  /** The popular items, movies first, each tagged with its endpoint. */
  function PopularRaw(moviePop: seq<RawItem>, tvPop: seq<RawItem>): (raw: seq<(RawItem, Endpoint)>)
    ensures |raw| == |moviePop| + |tvPop|
    ensures raw[..|moviePop|] == Tag(moviePop, MovieEp)
    ensures raw[|moviePop|..] == Tag(tvPop, Tv)
  {
    Tag(moviePop, MovieEp) + Tag(tvPop, Tv)
  }

  /** The records `_get_popular_fallback` maps before sorting and truncating. */
  function PopularMapped(entries: map<string, CachedValue>, p: Providers, params: SearchParams)
    : (r: Result<seq<MovieResponse>>)
    requires WellFormed(entries)
    ensures r.Ok? ==> ResolvePopular(entries, p, MovieEp).Ok? && ResolvePopular(entries, p, Tv).Ok?
    ensures r.Ok? ==> |r.value| == |ResolvePopular(entries, p, MovieEp).value| + |ResolvePopular(entries, p, Tv).value|
  {
    var moviePop :- ResolvePopular(entries, p, MovieEp);
    var tvPop :- ResolvePopular(entries, p, Tv);
    var movieGenres :- ResolveGenres(entries, p, MovieEp);
    var tvGenres :- ResolveGenres(entries, p, Tv);
    MapTagged(PopularRaw(moviePop, tvPop), movieGenres, tvGenres, params, p)
  }

  /** The fallback maps the movie items first, with the movie taxonomy, then the
      series items, with the series taxonomy, each in list order. */
  lemma PopularMappedTags(entries: map<string, CachedValue>, p: Providers, params: SearchParams)
    requires WellFormed(entries)
    requires PopularMapped(entries, p, params).Ok?
    ensures ResolveGenres(entries, p, MovieEp).Ok? && ResolveGenres(entries, p, Tv).Ok?
    ensures var movies := MapAll(ResolvePopular(entries, p, MovieEp).value, MovieEp, ResolveGenres(entries, p, MovieEp).value, params, p);
            var series := MapAll(ResolvePopular(entries, p, Tv).value, Tv, ResolveGenres(entries, p, Tv).value, params, p);
            && movies.Ok? && series.Ok?
            && PopularMapped(entries, p, params).value == movies.value + series.value
  {
    var moviePop := ResolvePopular(entries, p, MovieEp).value;
    var tvPop := ResolvePopular(entries, p, Tv).value;
    var movieGenres := ResolveGenres(entries, p, MovieEp).value;
    var tvGenres := ResolveGenres(entries, p, Tv).value;
    var raw := PopularRaw(moviePop, tvPop);
    assert PopularMapped(entries, p, params) == MapTagged(raw, movieGenres, tvGenres, params, p);
    MapTaggedConcat(Tag(moviePop, MovieEp), Tag(tvPop, Tv), movieGenres, tvGenres, params, p);
    MapTaggedOneEndpoint(moviePop, MovieEp, movieGenres, tvGenres, params, p);
    MapTaggedOneEndpoint(tvPop, Tv, movieGenres, tvGenres, params, p);
  }

  /** Gathering two runs of items is gathering each run and joining the records. */
  lemma {:induction false} MapTaggedConcat(a: seq<(RawItem, Endpoint)>, b: seq<(RawItem, Endpoint)>,
                                           movieGenres: Taxonomy, tvGenres: Taxonomy, params: SearchParams, p: Providers)
    ensures var ra := MapTagged(a, movieGenres, tvGenres, params, p);
            var rb := MapTagged(b, movieGenres, tvGenres, params, p);
            MapTagged(a + b, movieGenres, tvGenres, params, p) == if ra.Ok? && rb.Ok? then Ok(ra.value + rb.value) else Err
  {
    if a == [] {
      assert a + b == b;
      assert MapTagged(a, movieGenres, tvGenres, params, p) == Ok([]);
      var rb := MapTagged(b, movieGenres, tvGenres, params, p);
      if rb.Ok? {
        assert [] + rb.value == rb.value;
      }
    } else {
      assert (a + b)[0] == a[0] && (a + b)[1..] == a[1..] + b;
      MapTaggedConcat(a[1..], b, movieGenres, tvGenres, params, p);
      var ra := MapTagged(a[1..], movieGenres, tvGenres, params, p);
      var rb := MapTagged(b, movieGenres, tvGenres, params, p);
      if ra.Ok? && rb.Ok? {
        var head := MapToMovie(a[0].0, a[0].1, GenresFor(a[0].1, movieGenres, tvGenres), params, p);
        if head.Ok? {
          assert [head.value] + (ra.value + rb.value) == ([head.value] + ra.value) + rb.value;
        }
      }
    }
  }

  /** Items that all come from one endpoint are gathered with that endpoint's taxonomy. */
  lemma {:induction false} MapTaggedOneEndpoint(items: seq<RawItem>, ep: Endpoint, movieGenres: Taxonomy, tvGenres: Taxonomy,
                                                params: SearchParams, p: Providers)
    ensures MapTagged(Tag(items, ep), movieGenres, tvGenres, params, p) == MapAll(items, ep, GenresFor(ep, movieGenres, tvGenres), params, p)
  {
    SameTaxonomyGather(items, ep, movieGenres, tvGenres, params, p);
  }

  /** Tagged with one endpoint, the gather only ever uses that endpoint's taxonomy. */
  lemma {:induction false} SameTaxonomyGather(items: seq<RawItem>, ep: Endpoint, movieGenres: Taxonomy, tvGenres: Taxonomy,
                                              params: SearchParams, p: Providers)
    ensures var genres := GenresFor(ep, movieGenres, tvGenres);
            MapTagged(Tag(items, ep), movieGenres, tvGenres, params, p) == MapTagged(Tag(items, ep), genres, genres, params, p)
  {
    if items != [] {
      assert Tag(items, ep)[1..] == Tag(items[1..], ep);
      SameTaxonomyGather(items[1..], ep, movieGenres, tvGenres, params, p);
    }
  }

  /** Insertion of `s[..i+1]`'s last record in progress, the record now at `j`:
      every other pair is in title order and the record at `j` sorts no later
      than anything to its right. */
  predicate Inserting(s: seq<MovieResponse>, i: nat, j: nat) {
    && j <= i < |s|
    && (forall k, l :: 0 <= k < l <= i && k != j && l != j ==> TitleLe(s[k].title, s[l].title))
    && (forall l :: j < l <= i ==> TitleLe(s[j].title, s[l].title))
  }

  lemma InsertingStart(s: seq<MovieResponse>, i: nat)
    requires i < |s| && SortedByTitle(s[..i])
    ensures Inserting(s, i, i)
  {
    forall k, l | 0 <= k < l < i
      ensures TitleLe(s[k].title, s[l].title)
    {
      assert s[k] == s[..i][k] && s[l] == s[..i][l];
    }
  }

  /** Swapping the record one place left keeps the insertion invariant. */
  lemma InsertingSwap(s: seq<MovieResponse>, i: nat, j: nat)
    requires Inserting(s, i, j) && 0 < j && !TitleLe(s[j - 1].title, s[j].title)
    ensures Inserting(s[j - 1 := s[j]][j := s[j - 1]], i, j - 1)
    ensures multiset(s[j - 1 := s[j]][j := s[j - 1]]) == multiset(s)
  {
    TitleLeTotal(s[j - 1].title, s[j].title);
    var t := s[j - 1 := s[j]][j := s[j - 1]];
    forall l | j - 1 < l <= i
      ensures TitleLe(t[j - 1].title, t[l].title)
    {
    }
  }

  /** Once the record sorts after its left neighbour, the prefix is sorted. */
  lemma InsertingDone(s: seq<MovieResponse>, i: nat, j: nat)
    requires Inserting(s, i, j) && (j == 0 || TitleLe(s[j - 1].title, s[j].title))
    ensures SortedByTitle(s[..i + 1])
  {
    forall k, l | 0 <= k < l <= i
      ensures TitleLe(s[k].title, s[l].title)
    {
      if l == j && k < j - 1 {
        TitleLeTransitive(s[k].title, s[j - 1].title, s[j].title);
      }
    }
  }

  /** `results.sort(key=lambda m: m.title)`, in place. */
  method SortByTitle(a: array<MovieResponse>)
    modifies a
    ensures SortedByTitle(a[..])
    ensures multiset(a[..]) == multiset(old(a[..]))
  {
    var i := 0;
    while i < a.Length
      invariant 0 <= i <= a.Length
      invariant SortedByTitle(a[..i])
      invariant multiset(a[..]) == multiset(old(a[..]))
    {
      InsertingStart(a[..], i);
      var j := i;
      while j > 0 && !TitleLe(a[j - 1].title, a[j].title)
        invariant 0 <= j <= i < a.Length
        invariant Inserting(a[..], i, j)
        invariant multiset(a[..]) == multiset(old(a[..]))
      {
        InsertingSwap(a[..], i, j);
        a[j - 1], a[j] := a[j], a[j - 1];
        j := j - 1;
      }
      InsertingDone(a[..], i, j);
      i := i + 1;
    }
    assert a[..a.Length] == a[..];
  }

  /** A title-sorted rearrangement of the mapped records, cut at the limit, is
      the top of the mapped records by title. */
  lemma SortedPrefixIsTop(s: seq<MovieResponse>, mapped: seq<MovieResponse>)
    requires SortedByTitle(s)
    requires multiset(s) == multiset(mapped)
    ensures TopByTitle(s[..Min(PopularLimit, |s|)], mapped)
  {
    var n := Min(PopularLimit, |s|);
    var top, rest := s[..n], s[n..];
    assert s == top + rest;
    assert multiset(s) == multiset(top) + multiset(rest);
    assert multiset(mapped) - multiset(top) == multiset(rest);
    SortedSplit(s, n);
  }

  /** Cutting a title-sorted sequence leaves a sorted front whose titles sort no
      later than any title behind the cut. */
  lemma SortedSplit(s: seq<MovieResponse>, n: nat)
    requires SortedByTitle(s) && n <= |s|
    ensures SortedByTitle(s[..n])
    ensures forall x, y :: x in s[n..] && y in s[..n] ==> TitleLe(y.title, x.title)
  {
    var top, rest := s[..n], s[n..];
    assert SortedByTitle(top) by {
      forall i, j | 0 <= i < j < |top| ensures TitleLe(top[i].title, top[j].title) {
        assert top[i] == s[i] && top[j] == s[j];
      }
    }
    forall x, y | x in rest && y in top
      ensures TitleLe(y.title, x.title)
    {
      var l :| 0 <= l < |rest| && rest[l] == x;
      var k :| 0 <= k < |top| && top[k] == y;
      assert s[k] == y && s[n + l] == x;
    }
  }

  /** The fetching half of `_get_popular_fallback`: both popular lists, both
      taxonomies, and the gather over the tagged items. */
  method MapPopular(store: Store, p: Providers, params: SearchParams)
    returns (r: Result<seq<MovieResponse>>)
    requires store.Valid()
    modifies store
    ensures store.Valid()
    ensures Transparent(old(store.entries), store.entries, p)
    ensures OnlyReaderWrites(old(store.entries), old(store.ttls), store.entries, store.ttls)
    ensures r == PopularMapped(old(store.entries), p, params)
  {
    ghost var before, beforeTtls := store.entries, store.ttls;
    var moviePop :- GetPopular(store, p, false);
    ghost var s1, t1 := store.entries, store.ttls;
    var tvPop :- GetPopular(store, p, true);
    TransparentTrans(before, s1, store.entries, p);
    OnlyReaderWritesTrans(before, beforeTtls, s1, t1, store.entries, store.ttls);
    ghost var s2, t2 := store.entries, store.ttls;
    var movieGenres :- FetchGenres(store, p, false);
    TransparentTrans(before, s2, store.entries, p);
    OnlyReaderWritesTrans(before, beforeTtls, s2, t2, store.entries, store.ttls);
    ghost var s3, t3 := store.entries, store.ttls;
    var tvGenres :- FetchGenres(store, p, true);
    TransparentTrans(before, s3, store.entries, p);
    OnlyReaderWritesTrans(before, beforeTtls, s3, t3, store.entries, store.ttls);
    r := MapTagged(PopularRaw(moviePop, tvPop), movieGenres, tvGenres, params, p);
  }

  /** `_get_popular_fallback`. */
  method GetPopularFallback(store: Store, p: Providers, params: SearchParams)
    returns (r: Result<seq<MovieResponse>>)
    requires store.Valid()
    modifies store
    ensures store.Valid()
    ensures Transparent(old(store.entries), store.entries, p)
    ensures OnlyReaderWrites(old(store.entries), old(store.ttls), store.entries, store.ttls)
    ensures r.Ok? <==> PopularMapped(old(store.entries), p, params).Ok?
    ensures r.Ok? ==> PopularOutcome(r.value, PopularMapped(old(store.entries), p, params).value, params)
    ensures r.Ok? ==> |r.value| == Min(PopularLimit, |ResolvePopular(old(store.entries), p, MovieEp).value|
                                                     + |ResolvePopular(old(store.entries), p, Tv).value|)
  {
    var mapped :- MapPopular(store, p, params);
    var results := new MovieResponse[|mapped|](i requires 0 <= i < |mapped| => mapped[i]);
    assert results[..] == mapped;
    if !Truthy(params.title) {
      SortByTitle(results);
      SortedPrefixIsTop(results[..], mapped);
    }
    var n := Min(PopularLimit, results.Length);
    return Ok(results[..n]);
  }

  // -------------------------------------------------------------------- router

  /** `search_tmdb`: the routed strategy's result. The fallback is reached only
      without a title, so it always returns the top records by title. */
  method SearchTmdb(store: Store, p: Providers, params: SearchParams) returns (r: Result<seq<MovieResponse>>)
    requires store.Valid()
    modifies store
    ensures store.Valid()
    ensures Transparent(old(store.entries), store.entries, p)
    ensures OnlyReaderWrites(old(store.entries), old(store.ttls), store.entries, store.ttls)
    ensures Classify(params) == TitleOnly ==>
      r == TitleOnlySpec(old(store.entries), p, params, [Tv, MovieEp])
    ensures Classify(params) == TitleWithFilters ==>
      r == KeepMatching(TitleWithFiltersCandidates(old(store.entries), p, params, IsSeries(params)), params)
    ensures Classify(params) == FiltersOnly ==>
      r == KeepMatching(FiltersOnlyCandidates(old(store.entries), p, params, IsSeries(params)), params)
    ensures Classify(params) == PopularFallback ==>
      && (r.Ok? <==> PopularMapped(old(store.entries), p, params).Ok?)
      && (r.Ok? ==> TopByTitle(r.value, PopularMapped(old(store.entries), p, params).value))
  {
    var isSeries := IsSeries(params);
    match Classify(params)
    case TitleOnly =>
      TitleOnlyEndpointsWhenRouted(params);
      r := SearchByTitleOnly(store, p, params, isSeries);
    case TitleWithFilters =>
      r := SearchByTitleWithFilters(store, p, params, isSeries);
    case FiltersOnly =>
      r := SearchByFiltersOnly(store, p, params, isSeries);
    case PopularFallback =>
      r := GetPopularFallback(store, p, params);
  }
}
