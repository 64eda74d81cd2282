/** The record mapper (`map_to_movie`): merges one catalog item with the
    enrichment payload found through its cross-reference id. */
module Mapper {
  import opened Wrappers
  import opened Strings
  import opened PyDict
  import opened Upstream
  import opened Schemas
  import opened CacheAside

  /** The image base the catalog poster path is appended to. */
  const PosterBase := "https://image.tmdb.org/t/p/w500"

  /** `int(date.split('-')[0]) if date else None`. */
  function CatalogYear(date: string): (r: Result<Option<nat>>)
    ensures date == "" ==> r == Ok(None)
    ensures date != "" ==> (r.Ok? <==> BeforeFirst(date, '-') != "" && AllDigits(BeforeFirst(date, '-')))
    ensures date != "" && r.Ok? ==> r.value == Some(StringToNat(BeforeFirst(date, '-')))
  {
    if date == "" then Ok(None)
    else
      var y :- ParseInt(BeforeFirst(date, '-'));
      Ok(Some(y))
  }

  lemma {:induction false} BeforeFirstOfConcat(a: string, sep: char, rest: string)
    requires sep !in a
    ensures BeforeFirst(a + [sep] + rest, sep) == a
  {
    if a != [] {
      assert (a + [sep] + rest)[1..] == a[1..] + [sep] + rest;
      BeforeFirstOfConcat(a[1..], sep, rest);
    }
  }

  /** A `YYYY-MM-DD` date written from year `y` yields year `y`. */
  lemma CatalogYearOfDate(y: nat, rest: string)
    ensures CatalogYear(NatToString(y) + "-" + rest) == Ok(Some(y))
  {
    var s := NatToString(y);
    assert '-' !in s by {
      forall i | 0 <= i < |s| ensures s[i] != '-' { assert IsDigit(s[i]); }
    }
    BeforeFirstOfConcat(s, '-', rest);
    assert s + "-" + rest == s + ['-'] + rest;
    StringToNatOfNatToString(y);
  }

  /** `int(omdb.get('Year')) if omdb.get('Year') else None`. */
  function EnrichmentYear(year: Option<string>): (r: Result<Option<nat>>)
    ensures !Truthy(year) ==> r == Ok(None)
    ensures Truthy(year) ==> (r.Ok? <==> AllDigits(year.value))
    ensures Truthy(year) && r.Ok? ==> r.value == Some(StringToNat(year.value))
  {
    if Truthy(year) then
      var y :- ParseInt(year.value);
      Ok(Some(y))
    else Ok(None)
  }

  /** `[genres.get(g) for g in ids if genres.get(g)]`. */
  function GenreNames(ids: seq<nat>, t: Taxonomy): (names: seq<string>)
    ensures |names| <= |ids|
    ensures forall n :: n in names ==> n != "" && exists i :: 0 <= i < |ids| && Get(t, ids[i]) == Some(n)
  {
    if ids == [] then []
    else
      var rest := GenreNames(ids[1..], t);
      assert forall n :: n in rest ==> exists i :: 0 <= i < |ids| && Get(t, ids[i]) == Some(n) by {
        forall n | n in rest ensures exists i :: 0 <= i < |ids| && Get(t, ids[i]) == Some(n) {
          var i :| 0 <= i < |ids[1..]| && Get(t, ids[1..][i]) == Some(n);
          assert Get(t, ids[i + 1]) == Some(n);
        }
      }
      var g := Get(t, ids[0]);
      if g.Some? && g.value != "" then [g.value] + rest else rest
  }

  /** Genre resolution is done id by id, so it keeps the order of the ids. */
  lemma {:induction false} GenreNamesConcat(a: seq<nat>, b: seq<nat>, t: Taxonomy)
    ensures GenreNames(a + b, t) == GenreNames(a, t) + GenreNames(b, t)
  {
    if a == [] {
      assert a + b == b;
    } else {
      assert (a + b)[0] == a[0] && (a + b)[1..] == a[1..] + b;
      GenreNamesConcat(a[1..], b, t);
    }
  }

  /** When every id names a genre, the names are exactly the ids' names, in order. */
  lemma {:induction false} GenreNamesAllKnown(ids: seq<nat>, t: Taxonomy)
    requires forall i :: 0 <= i < |ids| ==> Get(t, ids[i]).Some? && Get(t, ids[i]).value != ""
    ensures |GenreNames(ids, t)| == |ids|
    ensures forall i :: 0 <= i < |ids| ==> GenreNames(ids, t)[i] == Get(t, ids[i]).value
  {
    if ids != [] {
      GenreNamesAllKnown(ids[1..], t);
    }
  }

  /** The poster: the catalog path when it is set, else the fallback. */
  function PosterUrl(path: Option<string>, fallback: Option<string>): (r: Option<string>)
    ensures Truthy(path) ==> r == Some(PosterBase + path.value)
    ensures !Truthy(path) ==> r == fallback
  {
    if Truthy(path) then Some(PosterBase + path.value) else fallback
  }

  /** No rating after position `i` comes from the same source as rating `i`. */
  predicate LastWithSource(ratings: seq<Rating>, i: nat)
    requires i < |ratings|
  {
    forall j :: i < j < |ratings| ==> ratings[j].source != ratings[i].source
  }

  /** `{r['Source']: r['Value'] for r in ratings}`: one key per source, holding
      the value of the last rating from that source. */
  function RatingsOf(ratings: seq<Rating>): (d: Dict<string, string>)
    ensures DistinctKeys(d)
    ensures forall s :: s in KeySet(d) <==> exists i :: 0 <= i < |ratings| && ratings[i].source == s
    ensures forall i :: 0 <= i < |ratings| && LastWithSource(ratings, i) ==> Get(d, ratings[i].source) == Some(ratings[i].value)
  {
    var pairs := seq(|ratings|, i requires 0 <= i < |ratings| => (ratings[i].source, ratings[i].value));
    assert forall s :: s in PairKeys(pairs) <==> exists i :: 0 <= i < |ratings| && ratings[i].source == s by {
      forall s | s in PairKeys(pairs) ensures exists i :: 0 <= i < |ratings| && ratings[i].source == s {
        var i :| 0 <= i < |pairs| && pairs[i].0 == s;
        assert ratings[i].source == s;
      }
      forall s | exists i :: 0 <= i < |ratings| && ratings[i].source == s ensures s in PairKeys(pairs) {
        var i :| 0 <= i < |ratings| && ratings[i].source == s;
        assert pairs[i].0 == s;
      }
    }
    assert forall i :: 0 <= i < |ratings| && LastWithSource(ratings, i) ==> Get(FromPairs(pairs), ratings[i].source) == Some(ratings[i].value) by {
      forall i | 0 <= i < |ratings| && LastWithSource(ratings, i) ensures Get(FromPairs(pairs), ratings[i].source) == Some(ratings[i].value) {
        assert forall j :: i < j < |pairs| ==> pairs[j].0 != pairs[i].0;
        FromPairsLastWins(pairs, i);
      }
    }
    FromPairs(pairs)
  }

  /** `params.type or ('series' if media_type == 'tv' else 'movie')`. */
  function RecordType(params: SearchParams, ep: Endpoint): (t: MediaType)
    ensures params.mtype.Some? ==> t == params.mtype.value
    ensures params.mtype.None? ==> (t == Series <==> ep == Tv)
  {
    if params.mtype.Some? then params.mtype.value else if ep == Tv then Series else Movie
  }

  /** The record built from the catalog values and, when present, the payload. */
  function Merge(item: RawItem, ep: Endpoint, params: SearchParams, title: string, year: Option<nat>,
                 genreList: seq<string>, actors: seq<string>, imdbId: Option<string>, omdb: Option<OmdbPayload>)
    : Result<MovieResponse>
  {
    var id := if Truthy(imdbId) then imdbId.value else NatToString(item.id);
    match omdb
    case Some(o) =>
      // `title or omdb.get('Title')` can be None, which the response model rejects.
      var mergedTitle :- if title != "" then Ok(title) else if o.title.Some? then Ok(o.title.value) else Err;
      var mergedYear :- if year.Some? && year.value != 0 then Ok(year) else EnrichmentYear(o.year);
      Ok(MovieResponse(id, mergedTitle, mergedYear, RecordType(params, ep), genreList, actors,
                       o.director, o.runtime, o.plot, PosterUrl(item.posterPath, o.poster),
                       RatingsOf(o.ratings.GetOr([])), Merged))
    case None =>
      Ok(MovieResponse(id, title, year, RecordType(params, ep), genreList, actors,
                       None, None, None, PosterUrl(item.posterPath, None), [], Tmdb))
  }

  /** Without a payload the merge always succeeds and keeps the catalog values;
      with one it fails exactly when neither side has a title, or the catalog has
      no usable year and the payload's year is not a number. The record type,
      genres and cast are passed through, and the id is the cross-reference id
      when there is one, otherwise the catalog id in decimal. */
  lemma MergeOutcome(item: RawItem, ep: Endpoint, params: SearchParams, title: string, year: Option<nat>,
                     genreList: seq<string>, actors: seq<string>, imdbId: Option<string>, omdb: Option<OmdbPayload>)
    ensures var r := Merge(item, ep, params, title, year, genreList, actors, imdbId, omdb);
            && (omdb.None? ==> r.Ok? && r.value.source == Tmdb && r.value.title == title && r.value.year == year)
            && (omdb.Some? ==>
                  (r.Ok? <==> (title != "" || omdb.value.title.Some?)
                              && ((year.Some? && year.value != 0) || EnrichmentYear(omdb.value.year).Ok?)))
            && (omdb.Some? && r.Ok? ==> r.value.source == Merged)
            && (r.Ok? ==> r.value.mtype == RecordType(params, ep) && r.value.genres == genreList && r.value.actors == actors)
            && (r.Ok? && Truthy(imdbId) ==> r.value.id == imdbId.value)
            && (r.Ok? && !Truthy(imdbId) ==> AllDigits(r.value.id) && StringToNat(r.value.id) == item.id)
  {
    StringToNatOfNatToString(item.id);
  }

  /** `map_to_movie`. */
  function MapToMovie(item: RawItem, ep: Endpoint, genres: Taxonomy, params: SearchParams, p: Providers)
    : Result<MovieResponse>
  {
    var title := FirstTruthy(item.title, item.name);
    var date := FirstTruthy(item.releaseDate, item.firstAirDate);
    var year :- CatalogYear(date);
    var genreList := GenreNames(item.genreIds, genres);
    var actors :- FetchCredits(p, ep, item.id);
    var imdbId :- GetImdbId(p, ep, item.id);
    var omdb :- if Truthy(imdbId) then FetchOmdbData(p, imdbId.value) else Ok(None);
    Merge(item, ep, params, title, year, genreList, actors, imdbId, omdb)
  }

  /** A malformed catalog date, a failed credits call or a failed detail call
      makes the mapping fail; a successful mapping carries the item's resolved
      genres and its credited cast, in order. */
  lemma MapToMovieOutcome(item: RawItem, ep: Endpoint, genres: Taxonomy, params: SearchParams, p: Providers)
    ensures var r := MapToMovie(item, ep, genres, params, p);
            && (CatalogYear(FirstTruthy(item.releaseDate, item.firstAirDate)).Err? ==> r.Err?)
            && (FetchCredits(p, ep, item.id).Err? ==> r.Err?)
            && (GetImdbId(p, ep, item.id).Err? ==> r.Err?)
            && (r.Ok? ==> FetchCredits(p, ep, item.id).Ok? && r.value.actors == FetchCredits(p, ep, item.id).value)
            && (r.Ok? ==> r.value.genres == GenreNames(item.genreIds, genres))
  {
    if MapToMovie(item, ep, genres, params, p).Ok? {
      MapToMovieMerge(item, ep, genres, params, p);
    }
  }

  /** A successful mapping is the merge of the item's catalog values, its cast and
      its cross-reference id, with the merge's guarantees. */
  lemma MapToMovieMerge(item: RawItem, ep: Endpoint, genres: Taxonomy, params: SearchParams, p: Providers)
    requires MapToMovie(item, ep, genres, params, p).Ok?
    ensures CatalogYear(FirstTruthy(item.releaseDate, item.firstAirDate)).Ok?
    ensures FetchCredits(p, ep, item.id).Ok? && GetImdbId(p, ep, item.id).Ok?
    ensures var m := MapToMovie(item, ep, genres, params, p).value;
            var imdbId := GetImdbId(p, ep, item.id).value;
            && m.actors == FetchCredits(p, ep, item.id).value
            && m.genres == GenreNames(item.genreIds, genres)
            && m.mtype == RecordType(params, ep)
            && (Truthy(imdbId) ==> m.id == imdbId.value)
            && (!Truthy(imdbId) ==> AllDigits(m.id) && StringToNat(m.id) == item.id)
  {
    var year := CatalogYear(FirstTruthy(item.releaseDate, item.firstAirDate));
    var actors := FetchCredits(p, ep, item.id);
    var imdbId := GetImdbId(p, ep, item.id);
    assert year.Ok? && actors.Ok? && imdbId.Ok?;
    var omdb := if Truthy(imdbId.value) then FetchOmdbData(p, imdbId.value.value) else Ok(None);
    assert omdb.Ok?;
    var title := FirstTruthy(item.title, item.name);
    var genreList := GenreNames(item.genreIds, genres);
    assert MapToMovie(item, ep, genres, params, p)
        == Merge(item, ep, params, title, year.value, genreList, actors.value, imdbId.value, omdb.value);
    MergeOutcome(item, ep, params, title, year.value, genreList, actors.value, imdbId.value, omdb.value);
  }

  /** The detail call gives a non-empty cross-reference id, and the enrichment
      provider answers 200 with `Response == 'True'` for it. */
  predicate EnrichmentFound(p: Providers, ep: Endpoint, tmdbId: nat) {
    var d := p.details(ep, tmdbId);
    && d.Reply? && d.status == 200 && Truthy(d.body)
    && var o := p.omdb(d.body.value);
       o.Reply? && o.status == 200 && o.body.response == Some("True")
  }

  /** The payload of a found enrichment. */
  function Payload(p: Providers, ep: Endpoint, tmdbId: nat): OmdbPayload
    requires EnrichmentFound(p, ep, tmdbId)
  {
    p.omdb(p.details(ep, tmdbId).body.value).body
  }

  /** When `map_to_movie` succeeds: the catalog date parses, the credits call
      succeeds, the detail call and (for a non-empty cross-reference id) the
      enrichment call do not fail in transport, and a found payload supplies the
      title and the year the catalog lacks. A missing enrichment, from any other
      status or an unsuccessful `Response`, never fails the mapping. */
  lemma MapToMovieSucceeds(item: RawItem, ep: Endpoint, genres: Taxonomy, params: SearchParams, p: Providers)
    ensures var d := p.details(ep, item.id);
            var cy := CatalogYear(FirstTruthy(item.releaseDate, item.firstAirDate));
            var title := FirstTruthy(item.title, item.name);
            MapToMovie(item, ep, genres, params, p).Ok? <==>
              && cy.Ok?
              && FetchCredits(p, ep, item.id).Ok?
              && d.Reply?
              && !(d.status == 200 && Truthy(d.body) && p.omdb(d.body.value).TransportError?)
              && (EnrichmentFound(p, ep, item.id) ==>
                    && (title != "" || Payload(p, ep, item.id).title.Some?)
                    && ((cy.value.Some? && cy.value.value != 0) || EnrichmentYear(Payload(p, ep, item.id).year).Ok?))
  {
    var cy := CatalogYear(FirstTruthy(item.releaseDate, item.firstAirDate));
    var credits := FetchCredits(p, ep, item.id);
    var imdbId := GetImdbId(p, ep, item.id);
    if cy.Ok? && credits.Ok? && imdbId.Ok? {
      var omdb := if Truthy(imdbId.value) then FetchOmdbData(p, imdbId.value.value) else Ok(None);
      if omdb.Ok? {
        var title := FirstTruthy(item.title, item.name);
        var genreList := GenreNames(item.genreIds, genres);
        assert MapToMovie(item, ep, genres, params, p)
            == Merge(item, ep, params, title, cy.value, genreList, credits.value, imdbId.value, omdb.value);
        MergeOutcome(item, ep, params, title, cy.value, genreList, credits.value, imdbId.value, omdb.value);
        assert omdb.value.Some? <==> EnrichmentFound(p, ep, item.id);
        if omdb.value.Some? {
          assert omdb.value.value == Payload(p, ep, item.id);
        }
      }
    }
  }

  /** A missing enrichment degrades to a catalog-only record: with the date, the
      credits and the detail call in order, an item whose enrichment is not found
      (and whose enrichment call, if made, does not fail in transport) maps to a
      `'TMDB'` record. */
  lemma MapToMovieDegrades(item: RawItem, ep: Endpoint, genres: Taxonomy, params: SearchParams, p: Providers)
    requires CatalogYear(FirstTruthy(item.releaseDate, item.firstAirDate)).Ok?
    requires FetchCredits(p, ep, item.id).Ok?
    requires p.details(ep, item.id).Reply?
    requires !EnrichmentFound(p, ep, item.id)
    requires var d := p.details(ep, item.id);
             !(d.status == 200 && Truthy(d.body) && p.omdb(d.body.value).TransportError?)
    ensures MapToMovie(item, ep, genres, params, p).Ok?
    ensures MapToMovie(item, ep, genres, params, p).value.source == Tmdb
  {
    MapToMovieSucceeds(item, ep, genres, params, p);
    MapToMovieProvenance(item, ep, genres, params, p);
  }

  /** A mapped record is `'Merged'` exactly when an enrichment payload was found. */
  lemma MapToMovieProvenance(item: RawItem, ep: Endpoint, genres: Taxonomy, params: SearchParams, p: Providers)
    requires MapToMovie(item, ep, genres, params, p).Ok?
    ensures MapToMovie(item, ep, genres, params, p).value.source == Merged <==> EnrichmentFound(p, ep, item.id)
  {
  }

  /** Without a payload: no director, runtime or plot, no ratings, the poster only
      from the catalog path, and title and year from the catalog alone. */
  lemma MapToMovieWithoutEnrichment(item: RawItem, ep: Endpoint, genres: Taxonomy, params: SearchParams, p: Providers)
    requires MapToMovie(item, ep, genres, params, p).Ok?
    requires !EnrichmentFound(p, ep, item.id)
    ensures var m := MapToMovie(item, ep, genres, params, p).value;
            && m.source == Tmdb
            && m.director.None? && m.runtime.None? && m.plot.None?
            && m.ratings == []
            && (Truthy(item.posterPath) <==> m.posterUrl.Some?)
            && (Truthy(item.posterPath) ==> m.posterUrl == Some(PosterBase + item.posterPath.value))
            && m.title == FirstTruthy(item.title, item.name)
            && CatalogYear(FirstTruthy(item.releaseDate, item.firstAirDate)) == Ok(m.year)
  {
  }

  /** With a payload: crew and plot come from it, the catalog poster path wins over
      the enrichment poster, the rating sources are exactly the payload's `Source`
      values, the catalog title is kept whenever it is not empty, and a missing or
      zero catalog year is filled from the payload's `Year`. */
  lemma MapToMovieWithEnrichment(item: RawItem, ep: Endpoint, genres: Taxonomy, params: SearchParams, p: Providers)
    requires MapToMovie(item, ep, genres, params, p).Ok?
    requires EnrichmentFound(p, ep, item.id)
    ensures var m := MapToMovie(item, ep, genres, params, p).value;
            var o := Payload(p, ep, item.id);
            && m.source == Merged
            && m.director == o.director && m.runtime == o.runtime && m.plot == o.plot
            && m.posterUrl == (if Truthy(item.posterPath) then Some(PosterBase + item.posterPath.value) else o.poster)
            && (forall s :: s in KeySet(m.ratings) <==> exists r :: r in o.ratings.GetOr([]) && r.source == s)
            && m.ratings == RatingsOf(o.ratings.GetOr([]))
            && (forall i :: 0 <= i < |o.ratings.GetOr([])| && LastWithSource(o.ratings.GetOr([]), i) ==>
                  Get(m.ratings, o.ratings.GetOr([])[i].source) == Some(o.ratings.GetOr([])[i].value))
            && (FirstTruthy(item.title, item.name) != "" ==> m.title == FirstTruthy(item.title, item.name))
            && (FirstTruthy(item.title, item.name) == "" ==> Some(m.title) == o.title)
            && var cy := CatalogYear(FirstTruthy(item.releaseDate, item.firstAirDate));
               && cy.Ok?
               && (cy.value.Some? && cy.value.value != 0 ==> m.year == cy.value)
               && (cy.value.None? || cy.value == Some(0) ==>
                     EnrichmentYear(o.year).Ok? && m.year == EnrichmentYear(o.year).value)
  {
    var m := MapToMovie(item, ep, genres, params, p).value;
    var rs := Payload(p, ep, item.id).ratings.GetOr([]);
    forall s ensures s in KeySet(m.ratings) <==> exists r :: r in rs && r.source == s {
      if s in KeySet(m.ratings) {
        var i :| 0 <= i < |rs| && rs[i].source == s;
        assert rs[i] in rs;
      }
    }
  }

  /** The record id is the cross-reference id when there is one, otherwise the
      catalog id written in decimal, which reads back as that id; the record type
      is the requested one, or else `Series` exactly for the `tv` endpoint; the
      genres are the item's genre ids resolved in order. */
  lemma MapToMovieIdentity(item: RawItem, ep: Endpoint, genres: Taxonomy, params: SearchParams, p: Providers)
    requires MapToMovie(item, ep, genres, params, p).Ok?
    ensures var m := MapToMovie(item, ep, genres, params, p).value;
            var d := p.details(ep, item.id);
            && (d.Reply? && d.status == 200 && Truthy(d.body) ==> m.id == d.body.value)
            && (!(d.Reply? && d.status == 200 && Truthy(d.body)) ==> AllDigits(m.id) && StringToNat(m.id) == item.id)
            && (params.mtype.Some? ==> m.mtype == params.mtype.value)
            && (params.mtype.None? ==> (m.mtype == Series <==> ep == Tv))
            && m.genres == GenreNames(item.genreIds, genres)
  {
    MapToMovieMerge(item, ep, genres, params, p);
  }

  /** A catalog date `YYYY-...` gives the record year `YYYY` unless the year is 0,
      which Python treats as missing when a payload can supply one. */
  lemma MapToMovieYear(item: RawItem, ep: Endpoint, genres: Taxonomy, params: SearchParams, p: Providers, y: nat, rest: string)
    requires FirstTruthy(item.releaseDate, item.firstAirDate) == NatToString(y) + "-" + rest
    requires y != 0 || !EnrichmentFound(p, ep, item.id)
    ensures MapToMovie(item, ep, genres, params, p).Ok? ==> MapToMovie(item, ep, genres, params, p).value.year == Some(y)
  {
    if MapToMovie(item, ep, genres, params, p).Ok? {
      CatalogYearOfDate(y, rest);
      if EnrichmentFound(p, ep, item.id) {
        MapToMovieWithEnrichment(item, ep, genres, params, p);
      } else {
        MapToMovieWithoutEnrichment(item, ep, genres, params, p);
      }
    }
  }
}
