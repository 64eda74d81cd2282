/** The request and response records of the search endpoint. */
module Schemas {
  import opened Wrappers
  import opened PyDict

  /** The `Literal['movie', 'series']` of `type`. */
  datatype MediaType = Movie | Series

  /** Where a record's data came from: the catalog alone (`'TMDB'`) or the catalog
      merged with the enrichment provider (`'Merged'`). */
  datatype Source = Tmdb | Merged

  /** `MovieSearchParams`: every field may be absent. */
  datatype SearchParams = SearchParams(
    title: Option<string>,
    actors: Option<string>,
    mtype: Option<MediaType>,
    genre: Option<string>)

  /** `MovieResponse`, the unified record. */
  datatype MovieResponse = MovieResponse(
    id: string,
    title: string,
    year: Option<nat>,
    mtype: MediaType,
    genres: seq<string>,
    actors: seq<string>,
    director: Option<string>,
    runtime: Option<string>,
    plot: Option<string>,
    posterUrl: Option<string>,
    ratings: Dict<string, string>,
    source: Source)

  /** Python truthiness of an optional string: present and not empty. */
  predicate Truthy(s: Option<string>) {
    s.Some? && s.value != ""
  }

  /** `a or b or ''` over two optional strings. */
  function FirstTruthy(a: Option<string>, b: Option<string>): (r: string)
    ensures Truthy(a) ==> r == a.value
    ensures !Truthy(a) && Truthy(b) ==> r == b.value
    ensures !Truthy(a) && !Truthy(b) ==> r == ""
  {
    if Truthy(a) then a.value else if Truthy(b) then b.value else ""
  }
}
