/** The two upstream providers, seen only through the replies they give.
    Each HTTP call of the core becomes one field of `Providers`, a total function
    from the call's arguments to its reply, so a request runs against one fixed
    set of replies. Only the JSON fields the core reads are kept. */
module Upstream {
  import opened Wrappers
  import opened PyDict
  import opened Sequences

  /** The catalog path segment: `'tv'` or `'movie'`. */
  datatype Endpoint = Tv | MovieEp

  /** `'tv' if is_series else 'movie'`. */
  function EndpointFor(isSeries: bool): (ep: Endpoint)
    ensures ep == Tv <==> isSeries
  {
    if isSeries then Tv else MovieEp
  }

  /** A catalog item. `genreIds` is `item.get('genre_ids', [])`. */
  datatype RawItem = RawItem(
    id: nat,
    title: Option<string>,
    name: Option<string>,
    releaseDate: Option<string>,
    firstAirDate: Option<string>,
    genreIds: seq<nat>,
    posterPath: Option<string>)

  datatype Person = Person(id: nat)

  datatype GenreEntry = GenreEntry(id: nat, name: string)

  datatype CastEntry = CastEntry(name: Option<string>)

  datatype Rating = Rating(source: string, value: string)

  /** The enrichment provider's JSON body. */
  datatype OmdbPayload = OmdbPayload(
    response: Option<string>,
    title: Option<string>,
    year: Option<string>,
    director: Option<string>,
    runtime: Option<string>,
    plot: Option<string>,
    poster: Option<string>,
    ratings: Option<seq<Rating>>)

  /** One HTTP exchange: a status with its decoded body, or a transport failure
      (connection error or the 10-second timeout), which raises. */
  datatype Reply<T> = Reply(status: int, body: T) | TransportError

  /** A list-valued JSON field such as `results` or `cast`; `None` when absent. */
  type ListReply<T> = Reply<Option<seq<T>>>

  /** The replies of every upstream call the core makes during one request. */
  datatype Providers = Providers(
    apiKey: string,
    search: (Option<string>, Endpoint) -> ListReply<RawItem>,
    discover: (Endpoint, Dict<string, string>) -> ListReply<RawItem>,
    personSearch: string -> ListReply<Person>,
    tvCredits: nat -> ListReply<RawItem>,
    popular: Endpoint -> ListReply<RawItem>,
    genreList: Endpoint -> ListReply<GenreEntry>,
    credits: (Endpoint, nat) -> ListReply<CastEntry>,
    details: (Endpoint, nat) -> Reply<Option<string>>,
    omdb: string -> Reply<OmdbPayload>)

  /** `resp.raise_for_status()` followed by `resp.json()`: only a 2xx reply has a body. */
  function RaiseForStatus<T>(reply: Reply<T>): (r: Result<T>)
    ensures r.Ok? <==> reply.Reply? && 200 <= reply.status < 300
    ensures r.Ok? ==> r.value == reply.body
  {
    if reply.Reply? && 200 <= reply.status < 300 then Ok(reply.body) else Err
  }

  /** `resp.raise_for_status(); return resp.json().get(field, [])`. */
  function ListField<T>(reply: ListReply<T>): (r: Result<seq<T>>)
    ensures r.Ok? <==> RaiseForStatus(reply).Ok?
    ensures r.Ok? && reply.body.None? ==> r.value == []
    ensures r.Ok? && reply.body.Some? ==> r.value == reply.body.value
  {
    var body :- RaiseForStatus(reply);
    Ok(body.GetOr([]))
  }

  /** `get_search_results`: the first page of a title search and the endpoint used. */
  function SearchResults(p: Providers, title: Option<string>, isSeries: bool): (r: Result<(seq<RawItem>, Endpoint)>)
    ensures r.Ok? ==> r.value.1 == EndpointFor(isSeries)
    ensures r.Ok? <==> RaiseForStatus(p.search(title, EndpointFor(isSeries))).Ok?
    ensures r.Ok? ==> r.value.0 == ListField(p.search(title, EndpointFor(isSeries))).value
  {
    var ep := EndpointFor(isSeries);
    var items :- ListField(p.search(title, ep));
    Ok((items, ep))
  }

  /** A cast entry with a non-empty name. */
  predicate IsNamed(c: CastEntry) {
    c.name.Some? && c.name.value != ""
  }

  /** The names `[c.get('name') for c in cast if c.get('name')]`: one name per
      named entry, in cast order, repeats included. */
  function CastNames(cast: seq<CastEntry>): (names: seq<string>)
    ensures |names| == |Filter(cast, IsNamed)|
    ensures forall i :: 0 <= i < |names| ==> names[i] == Filter(cast, IsNamed)[i].name.value
    ensures forall n :: n in names <==> n != "" && CastEntry(Some(n)) in cast
  {
    if cast == [] then []
    else
      var rest := CastNames(cast[1..]);
      var names := if IsNamed(cast[0]) then [cast[0].name.value] + rest else rest;
      NamesConsOrder(cast, rest, names);
      NamesConsMembers(cast, rest, names);
      names
  }

  /** Taking one more entry keeps the names in step with the named entries. */
  lemma NamesConsOrder(cast: seq<CastEntry>, rest: seq<string>, names: seq<string>)
    requires cast != []
    requires |rest| == |Filter(cast[1..], IsNamed)|
    requires forall i :: 0 <= i < |rest| ==> rest[i] == Filter(cast[1..], IsNamed)[i].name.value
    requires names == if IsNamed(cast[0]) then [cast[0].name.value] + rest else rest
    ensures |names| == |Filter(cast, IsNamed)|
    ensures forall i :: 0 <= i < |names| ==> names[i] == Filter(cast, IsNamed)[i].name.value
  {
    FilterCons(cast, IsNamed);
    if IsNamed(cast[0]) {
      assert forall i :: 0 < i < |names| ==> names[i] == rest[i - 1];
    }
  }

  /** Taking one more entry adds its name, when it has one, to the names. */
  lemma NamesConsMembers(cast: seq<CastEntry>, rest: seq<string>, names: seq<string>)
    requires cast != []
    requires forall n :: n in rest <==> n != "" && CastEntry(Some(n)) in cast[1..]
    requires names == if IsNamed(cast[0]) then [cast[0].name.value] + rest else rest
    ensures forall n :: n in names <==> n != "" && CastEntry(Some(n)) in cast
  {
    assert forall c :: c in cast <==> c == cast[0] || c in cast[1..];
  }

  /** `_fetch_credits`: the non-empty cast names of one item. */
  function FetchCredits(p: Providers, ep: Endpoint, tmdbId: nat): (r: Result<seq<string>>)
    ensures r.Ok? <==> RaiseForStatus(p.credits(ep, tmdbId)).Ok?
    ensures r.Ok? ==> r.value == CastNames(ListField(p.credits(ep, tmdbId)).value)
    ensures r.Ok? ==> forall n :: n in r.value ==> n != ""
  {
    var cast :- ListField(p.credits(ep, tmdbId));
    Ok(CastNames(cast))
  }

  /** `_get_imdb_id`: the cross-reference id, read only from a 200 reply. Any other
      status gives `None`; only a transport failure raises. */
  function GetImdbId(p: Providers, ep: Endpoint, tmdbId: nat): (r: Result<Option<string>>)
    ensures r.Err? <==> p.details(ep, tmdbId).TransportError?
    ensures r.Ok? && r.value.Some? ==> p.details(ep, tmdbId) == Reply(200, r.value)
    ensures p.details(ep, tmdbId).Reply? && p.details(ep, tmdbId).status == 200 ==> r == Ok(p.details(ep, tmdbId).body)
    ensures p.details(ep, tmdbId).Reply? && p.details(ep, tmdbId).status != 200 ==> r == Ok(None)
  {
    match p.details(ep, tmdbId)
    case TransportError => Err
    case Reply(status, imdbId) => if status == 200 then Ok(imdbId) else Ok(None)
  }

  /** `_fetch_omdb_data`: the payload only when the status is 200 and its
      `Response` field is the string `'True'`. */
  function FetchOmdbData(p: Providers, imdbId: string): (r: Result<Option<OmdbPayload>>)
    ensures r.Err? <==> p.omdb(imdbId).TransportError?
    ensures r.Ok? && r.value.Some? <==>
      p.omdb(imdbId).Reply? && p.omdb(imdbId).status == 200 && p.omdb(imdbId).body.response == Some("True")
    ensures r.Ok? && r.value.Some? ==> r.value.value == p.omdb(imdbId).body
  {
    match p.omdb(imdbId)
    case TransportError => Err
    case Reply(status, data) =>
      if status == 200 && data.response == Some("True") then Ok(Some(data)) else Ok(None)
  }
}
