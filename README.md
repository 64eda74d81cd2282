# Movie search aggregation, modelled in Dafny

This project models the search core of a movie/TV search backend. The core
answers one search query by combining a movie catalog provider (TMDB) with an
enrichment provider (OMDB), and it keeps a process-wide key/value cache.

- **Query router** (`search_tmdb`): sends a query to one of four strategies.
  - title only;
  - title with filters;
  - filters only;
  - popular fallback.
- **Strategies**: each strategy collects raw catalog items and maps every item
  to a unified `MovieResponse` record. The two filtered strategies then keep
  only the records that pass the match filter. The fallback sorts by title and
  cuts the list at 20.
- **Record mapper** (`map_to_movie`): merges a catalog item with the enrichment
  payload found through its cross-reference (IMDB) id.
- **Filter discovery** (`discover_by_filters`): resolves a genre name and an
  actor name into discovery queries or into a person's series credits.
- **Cache-aside readers** (`fetch_genres`, `get_popular`): read the store, and
  on a miss fetch, write back and return.

Modules, in dependency order:

| file | module | what it holds |
|---|---|---|
| `wrappers.dfy` | `Wrappers` | `Option`, and `Result` with an opaque error; any raised exception becomes `Err` |
| `strings.dfy` | `Strings` | ASCII case folding, substring search, decimal integers and `int()`, `split('-')[0]`, the ordinal string order used by the sort |
| `pydict.dfy` | `PyDict` | Python dicts as insertion-ordered association lists: `get`, item assignment, dict comprehensions |
| `sequences.dfy` | `Sequences` | the list-comprehension filter and order-preserving subsequences |
| `schemas.dfy` | `Schemas` | `MovieSearchParams`, `MovieResponse`, Python truthiness of optional strings |
| `upstream.dfy` | `Upstream` | the providers as an oracle of replies; the small result extractors |
| `cache_aside.dfy` | `CacheAside` | the store (`class Store`) and the two cache-aside readers |
| `discovery.dfy` | `Discovery` | filter discovery on the movie and series paths |
| `mapper.dfy` | `Mapper` | `map_to_movie` |
| `matching.dfy` | `Matching` | `matches` |
| `movie_client.dfy` | `MovieClient` | the router, the four strategies and the in-place title sort |

Upstream HTTP calls are not performed. Each call the core makes is a field of
the `Upstream.Providers` datatype: a total function from the call's arguments to
its reply. A reply is either a status with a decoded body, or a transport
failure. One request therefore runs against one fixed set of replies.

Methods model the parts that change state or loop:
- the cache readers;
- the discovery query that is filled step by step;
- the endpoint loop of the title-only strategy;
- the in-place sort.

Most of these methods are proved equal to a function of the cache contents
*before* the request: the cache readers, the discovery methods, the endpoint
loop and its per-endpoint step, the two filtered strategies, `MapPopular` and
`SearchTmdb` on the non-fallback paths. Two are proved against a relation
instead:
- `MovieClient.SortByTitle` leaves the array title-sorted and a permutation of
  its old contents;
- `MovieClient.GetPopularFallback` returns a list standing in the `TopByTitle`
  relation to the mapped popular records when there is no title.

The equalities with the before-request functions hold because of a transparency property:
whatever the readers write, a later reader returns the same thing it would
have returned before the write (`CacheAside.Transparent`). That property rests
on the integer-key round trip through JSON (`CacheAside.DecodeEncode`).

Every method that touches the store also states what it may write
(`CacheAside.OnlyReaderWrites`). A key already stored keeps its value and its
expiry. A key it adds is a taxonomy key (`genres:tv`, `genres:movie`) with no
expiry, or a popular-list key (`popular:tv`, `popular:movie`) with a 600-second
expiry.

## Behaviour kept as written

- The title-only strategy queries the series endpoint before the movie endpoint.
- A media type alone counts as a filter. So the title-only strategy is only
  ever reached without a type, and always searches both endpoints.
  - `app/clients/movie_client.py:30` and `:56-57`.
  - Proved by `MovieClient.TitleOnlyEndpointsWhenRouted`.
- The fallback skips the sort when the query has a title. The router reaches
  the fallback only without a title, so under routing the output is always
  title-sorted.
  - `MovieClient.PopularOutcome` models both arms of the test.
  - `MovieClient.SearchTmdb` states the routed result.
- Genre id 0 counts as unresolved on the series-credits path, because
  `if genre_id:` tests an integer (`app/utils/utils_movies_client.py:174`). The
  movie path tests the id's string form, which has no such exception
  (`:113`).
- A catalog year of 0 is falsy, so it is replaced from the enrichment payload
  when there is one (`:328`).
- When enrichment is used, a record whose catalog title is empty and whose
  payload has no `Title` fails. The response model requires a string title.
  The failure is modelled as an error.
- The discovery query always carries `api_key` and `page=1`
  (`app/utils/utils_movies_client.py:106` and `:182`); `Discovery.DiscoverQuery`
  states the whole query.
- Cast entries without a name, or with an empty one, are dropped (`:243`);
  `Upstream.CastNames` states the names in cast order.
- `_get_imdb_id` and `_fetch_omdb_data` treat a non-200 status as "no
  enrichment". A transport failure on either call still raises, so it fails
  the whole request rather than degrading to an unenriched record.

## Model

| member | source | states |
|---|---|---|
| `Strings.Lower` | app/utils/utils_movies_client.py:369 | case folding keeps the length and folds each character independently |
| `Strings.Contains` | app/utils/utils_movies_client.py:371 | `needle in hay` holds exactly when the needle occurs at some position of the haystack |
| `Strings.NatToString` | app/utils/utils_movies_client.py:341 | `str(n)` is a non-empty run of digits with no leading zero |
| `Strings.StringToNatOfNatToString` | app/utils/utils_movies_client.py:36 | `int(str(n)) == n` |
| `Strings.ParseInt` | app/utils/utils_movies_client.py:308 | `int(s)` succeeds exactly on a non-empty string of digits |
| `Strings.BeforeFirst` | app/utils/utils_movies_client.py:308 | `s.split(sep)[0]` is the prefix of `s` before the first `sep`, or all of `s` when there is none |
| `Strings.TitleLeTotal` | app/clients/movie_client.py:155 | any two titles are comparable under the sort order |
| `Strings.TitleLeTransitive` | app/clients/movie_client.py:155 | the sort order on titles is transitive |
| `Strings.TitleLeAntisymmetric` | app/clients/movie_client.py:155 | two titles ordered both ways are equal |
| `PyDict.Get` | app/utils/utils_movies_client.py:310-311 | `d.get(k)` is present exactly when `k` is a key, and then holds a value paired with `k` |
| `PyDict.Put` | app/utils/utils_movies_client.py:114 | `d[k] = v` adds `k` to the keys, and appends the pair when `k` is new |
| `PyDict.PutGet` | app/utils/utils_movies_client.py:114 | after `d[k] = v`, `get(k)` is `v` and every other key reads as before |
| `PyDict.FromPairs` | app/utils/utils_movies_client.py:44 | a dict comprehension has distinct keys, namely the keys of its pairs |
| `PyDict.FromPairsOfDict` | app/utils/utils_movies_client.py:36 | rebuilding a dict from its own items gives the same dict |
| `PyDict.PutKeepsKeys` | app/utils/utils_movies_client.py:325 | assigning to a present key keeps every key in its place |
| `PyDict.FromPairsFirstOrder` | app/utils/utils_movies_client.py:44 | a comprehension lists each key at the position of its first pair, so keys are in first-occurrence order |
| `PyDict.FromPairsLastWins` | app/utils/utils_movies_client.py:325 | in a comprehension the last pair with a key supplies that key's value |
| `Sequences.Filter` | app/clients/movie_client.py:98 | the filtered list holds each kept element as often as the input does, and no other element |
| `Sequences.FilterIsSubseq` | app/clients/movie_client.py:98 | a filtered list is an order-preserving subsequence of its input |
| `Schemas.FirstTruthy` | app/utils/utils_movies_client.py:306-307 | `a or b or ''` picks the first non-empty value |
| `Upstream.EndpointFor` | app/utils/utils_movies_client.py:62 | the endpoint is `tv` exactly for series |
| `Upstream.RaiseForStatus` | app/utils/utils_movies_client.py:67 | a reply yields its body exactly when it arrived with a 2xx status |
| `Upstream.ListField` | app/utils/utils_movies_client.py:67-68 | a list field is read only from a 2xx reply and is empty when absent |
| `Upstream.SearchResults` | app/utils/utils_movies_client.py:62-68 | the title search fails exactly when its reply is not 2xx; otherwise it returns that reply's `results` list (empty when absent) together with the endpoint it searched |
| `Upstream.CastNames` | app/utils/utils_movies_client.py:243 | one name per cast entry with a non-empty name, in cast order, and that entry's name; a string is listed exactly when it is non-empty and some entry carries it |
| `Upstream.FetchCredits` | app/utils/utils_movies_client.py:237-243 | the credits call fails exactly on a non-2xx reply; otherwise it returns the cast names of that reply's `cast` list, all non-empty |
| `Upstream.GetImdbId` | app/utils/utils_movies_client.py:259-265 | only a transport failure raises; a 200 reply gives exactly its `imdb_id` (present or not); any other status gives none |
| `Upstream.FetchOmdbData` | app/utils/utils_movies_client.py:279-285 | the payload is returned exactly for status 200 with `Response == 'True'`; only a transport failure raises |
| `CacheAside.KeysDistinct` | app/utils/utils_movies_client.py:33 | the keys `genres:tv`, `genres:movie`, `popular:tv`, `popular:movie` are pairwise different |
| `CacheAside.TaxonomyOf` | app/utils/utils_movies_client.py:44 | the id-to-name mapping has distinct keys, exactly the listed genre ids, and each id maps to the name of its last listing |
| `CacheAside.EncodeTaxonomy` | app/utils/utils_movies_client.py:45 | `json.dumps` writes each integer key as its decimal string, keeping names and order |
| `CacheAside.DecodeTaxonomy` | app/utils/utils_movies_client.py:36 | reading keys back with `int()` gives distinct keys, exactly the numbers of the stored keys, each mapped to the name stored last under that number |
| `CacheAside.DecodeTaxonomyExample` | app/utils/utils_movies_client.py:36 | the stored object `{"10": "Horror", "20": "Comedy"}` decodes to ids 10 and 20 with those names, in that order |
| `CacheAside.DecodeEncode` | app/utils/utils_movies_client.py:36-45 | decoding an encoded taxonomy gives back the same taxonomy |
| `CacheAside.ResolveGenres` | app/utils/utils_movies_client.py:32-46 | the taxonomy a reader returns: always available on a hit, fetched on a miss and failing exactly when the fetch is not 2xx; its keys are distinct |
| `CacheAside.ResolveGenresValue` | app/utils/utils_movies_client.py:32-46 | a hit returns the decoded stored object; a successful miss returns the taxonomy built from the fetched `genres` list |
| `CacheAside.ResolvePopular` | app/utils/utils_movies_client.py:208-221 | the popular list a reader returns: the cached list on a hit, the fetched `results` on a miss |
| `CacheAside.Store.Get` | app/utils/utils_movies_client.py:34 | a lookup finds a value exactly when the key is stored |
| `CacheAside.Store.Set` | app/utils/utils_movies_client.py:45 | a write overwrites the whole value and its expiry under the key and nothing else |
| `CacheAside.OnlyReaderWritesTrans` | app/utils/utils_movies_client.py:45 | store changes made only of reader writes compose: keys keep their values and expiries, and added keys are reader keys with the reader's expiry |
| `CacheAside.FetchGenres` | app/utils/utils_movies_client.py:21-46 | a hit returns the decoded taxonomy and writes nothing; a miss stores the encoded taxonomy with no expiry and returns it; the write is invisible to later readers and is a reader write |
| `CacheAside.GetPopular` | app/utils/utils_movies_client.py:197-221 | a hit returns the cached list and writes nothing; a miss stores the fetched list with expiry 600 and returns the same list; the write is invisible to later readers and is a reader write |
| `Discovery.FirstGenreId` | app/utils/utils_movies_client.py:110-112 | the first id, in taxonomy order, whose name equals the genre ignoring case; none when no name does |
| `Discovery.IdString` | app/utils/utils_movies_client.py:124 | `str(id)` is present exactly for a present id and reads back as that id |
| `Discovery.DiscoverQuery` | app/utils/utils_movies_client.py:106-124 | the query is `api_key`, then `page=1`, then `with_genres` when resolved, then `with_cast` when resolved, in insertion order |
| `Discovery.DiscoverQueryShape` | app/utils/utils_movies_client.py:106-124 | the query holds `api_key` and `page=1`, plus `with_genres` and `with_cast` exactly when resolved, and nothing else |
| `Discovery.GenreFilterId` | app/utils/utils_movies_client.py:108-112 | the taxonomy is consulted only when a genre is given, and the id is its first case-insensitive match |
| `Discovery.FirstPersonId` | app/utils/utils_movies_client.py:117-124 | the cast filter is the first person's id, and is absent exactly when the person search is empty |
| `Discovery.DiscoverMovieSpec` | app/utils/utils_movies_client.py:92-128 | movie discovery reports the movie endpoint; with a genre, a failing movie taxonomy fetch fails it; with an actor, a failing person search fails it |
| `Discovery.MovieQueryFilters` | app/utils/utils_movies_client.py:105-128 | movie discovery issues one call with the built query; `with_genres` is sent exactly when some genre name matches, `with_cast` exactly when a person is found |
| `Discovery.DiscoverTvSpec` | app/utils/utils_movies_client.py:146-194 | series discovery reports the series endpoint; an empty person search gives an empty list; an actor without a genre gives the person's credits unchanged; without an actor, a failing genre lookup fails the call; with an actor, a failing person search fails it, and so does a failing credits call for the first person, or, with a genre too, a failing series taxonomy fetch |
| `Discovery.TvQueryFilters` | app/utils/utils_movies_client.py:180-194 | without an actor, series discovery issues one `discover/tv` call with the built query; that query never has `with_cast`, and has `with_genres` exactly when a genre is given and some series genre name matches it |
| `Discovery.DiscoverSpec` | app/utils/utils_movies_client.py:71-89 | discovery reports the endpoint of the requested kind |
| `Discovery.TvCandidates` | app/utils/utils_movies_client.py:168-176 | the narrowed credits are no more than the credits; with a non-zero id every kept credit lists it; with no id or id 0 the credits are kept unchanged |
| `Discovery.TvActorAndGenre` | app/utils/utils_movies_client.py:148-178 | with an actor and a genre, the result is the first person's credits narrowed by the genre id resolved against the series taxonomy |
| `Discovery.TvCandidatesFilter` | app/utils/utils_movies_client.py:168-176 | a resolved non-zero genre id keeps exactly the credits listing it, in order and with multiplicity; an unresolved id, or id 0, keeps all credits |
| `Discovery.DiscoverMovieByFilters` | app/utils/utils_movies_client.py:92-128 | filling the query step by step gives the movie discovery result; cache writes are invisible; the store only gains reader keys with their expiries (`OnlyReaderWrites`) |
| `Discovery.DiscoverTvByFilters` | app/utils/utils_movies_client.py:131-194 | the imperative series path gives the series discovery result; cache writes are invisible; the store only gains reader keys with their expiries (`OnlyReaderWrites`) |
| `Discovery.DiscoverByFilters` | app/utils/utils_movies_client.py:71-89 | dispatch on the kind gives the discovery result; cache writes are invisible; the store only gains reader keys with their expiries (`OnlyReaderWrites`) |
| `Mapper.CatalogYear` | app/utils/utils_movies_client.py:307-308 | an empty date gives no year; otherwise the year is the digits before the first `-`, and anything else raises |
| `Mapper.CatalogYearOfDate` | app/utils/utils_movies_client.py:308 | a date written as `<y>-...` yields year `y` |
| `Mapper.EnrichmentYear` | app/utils/utils_movies_client.py:328 | an empty or missing `Year` gives none; a present one must be all digits and is read as an integer |
| `Mapper.GenreNames` | app/utils/utils_movies_client.py:310-311 | every resolved name is non-empty and is the taxonomy name of one of the item's ids |
| `Mapper.GenreNamesConcat` | app/utils/utils_movies_client.py:310-311 | genre resolution works id by id, so it preserves order |
| `Mapper.GenreNamesAllKnown` | app/utils/utils_movies_client.py:310-311 | when every id is known, the names are the ids' names, one for one and in order |
| `Mapper.PosterUrl` | app/utils/utils_movies_client.py:321-324 | the catalog poster path, prefixed with the image base, wins over the fallback poster |
| `Mapper.RatingsOf` | app/utils/utils_movies_client.py:325 | the rating keys are distinct and are exactly the payload's `Source` values; each source holds the `Value` of its last rating |
| `Mapper.RecordType` | app/utils/utils_movies_client.py:344 | the requested type when there is one, otherwise series exactly for the `tv` endpoint |
| `Mapper.Merge` | app/utils/utils_movies_client.py:317-353 | the final record from the catalog values and the optional payload; its contract is stated by `MergeOutcome` (success exactly when a title and a usable year are available, provenance, pass-through fields, id choice) |
| `Mapper.MergeOutcome` | app/utils/utils_movies_client.py:317-353 | without a payload the record is built from the catalog values with source `TMDB`; with one it succeeds exactly when a title and a usable year are available, with source `Merged`; type, genres and actors pass through; the id is the cross-reference id, else the catalog id in decimal |
| `Mapper.MapToMovie` | app/utils/utils_movies_client.py:288-353 | `map_to_movie`; its contract is stated by `MapToMovieSucceeds` (when it succeeds), `MapToMovieOutcome` and `MapToMovieMerge` (which steps must succeed, actors and genres), `MapToMovieProvenance`, `MapToMovieWithEnrichment`, `MapToMovieWithoutEnrichment`, `MapToMovieIdentity` and `MapToMovieYear` |
| `Mapper.MapToMovieOutcome` | app/utils/utils_movies_client.py:288-353 | a bad catalog date, a failing credits call or a transport failure on the details call fails the mapping; a record carries the credits' names as actors and the resolved genre names |
| `Mapper.MapToMovieMerge` | app/utils/utils_movies_client.py:305-353 | a mapped record implies every step before the merge succeeded, and carries their actors, genres, type and id |
| `Mapper.MapToMovieSucceeds` | app/utils/utils_movies_client.py:305-353 | the mapping succeeds exactly when the date parses, the credits call succeeds, neither the detail call nor the enrichment call (made for a non-empty id) fails in transport, and a found payload supplies any missing title and year |
| `Mapper.MapToMovieDegrades` | app/utils/utils_movies_client.py:314-338 | an item whose enrichment is not found, because of another status, an empty id or an unsuccessful `Response`, still maps, to a `TMDB` record |
| `Mapper.MapToMovieProvenance` | app/utils/utils_movies_client.py:317-338 | a record is `Merged` exactly when an enrichment payload was found |
| `Mapper.MapToMovieWithoutEnrichment` | app/utils/utils_movies_client.py:329-338 | without a payload: no director, runtime, plot or ratings; poster only from the catalog; catalog title and year |
| `Mapper.MapToMovieWithEnrichment` | app/utils/utils_movies_client.py:317-328 | with a payload: its crew and plot, the catalog poster first, the ratings built from the payload's ratings (each source with the value of its last rating), the catalog title unless that is empty, and the catalog year unless that is missing or 0, in which case the payload's `Year` |
| `Mapper.MapToMovieIdentity` | app/utils/utils_movies_client.py:340-345 | the id is the cross-reference id, else the catalog id in decimal; the type is the requested one, else series exactly for `tv`; the genres are the resolved ids |
| `Mapper.MapToMovieYear` | app/utils/utils_movies_client.py:308-328 | a catalog date `<y>-...` gives year `y`, unless `y` is 0 and a payload may replace it |
| `Matching.AnyGenreEquals` | app/utils/utils_movies_client.py:369 | some genre equals the filter, ignoring case |
| `Matching.AnyActorContains` | app/utils/utils_movies_client.py:371 | some actor contains the filter as a substring, ignoring case |
| `Matching.Matches` | app/utils/utils_movies_client.py:356-373 | a record matches exactly when it passes every filter that is given: type equality, case-insensitive genre equality, case-insensitive actor substring |
| `Matching.MatchesWithoutFilters` | app/utils/utils_movies_client.py:367-373 | a query with no filter keeps every record |
| `Matching.MatchesIgnoresCase` | app/utils/utils_movies_client.py:369-371 | queries that agree after case folding accept the same records |
| `Matching.MatchesFullActorName` | app/utils/utils_movies_client.py:371 | a record listing the requested actor by full name matches |
| `MovieClient.HasFilters` | app/clients/movie_client.py:30 | a query is filtered exactly when it has a genre, an actor or a type: each one alone makes it filtered, and a filtered query has one of them |
| `MovieClient.Classify` | app/clients/movie_client.py:28-39 | a title selects a title branch; a genre, actor or type selects a filtered branch; the fallback exactly when nothing is given; title-with-filters exactly for a title plus a genre, actor or type, filters-only exactly for a genre, actor or type without a title; title-only never has a type |
| `MovieClient.MapTagged` | app/clients/movie_client.py:150-153 | the gather succeeds exactly when every item maps, giving one record per item, in order, each with its own endpoint's taxonomy |
| `MovieClient.MapAll` | app/clients/movie_client.py:63-66 | the gather succeeds exactly when every item maps, giving one record per item, in order |
| `MovieClient.TitleEndpoints` | app/clients/movie_client.py:56-57 | `tv` is searched exactly without a type or for series, `movie` exactly without a type or for movies, never twice, and `tv` first without a type |
| `MovieClient.TitleOnlyEndpointsWhenRouted` | app/clients/movie_client.py:56-57 | a routed title-only query searches `tv` then `movie` |
| `MovieClient.EndpointMovies` | app/clients/movie_client.py:59-67 | the records one endpoint contributes; its contract is stated by `EndpointMoviesRecords` (success exactly when the search, the taxonomy and every mapping succeed; one record per search result, in order) |
| `MovieClient.EndpointMoviesRecords` | app/clients/movie_client.py:59-67 | one endpoint succeeds exactly when its search, its taxonomy and every mapping succeed, and then yields each search result's mapping with that taxonomy, one per result and in order |
| `MovieClient.TitleOnlySpec` | app/clients/movie_client.py:42-68 | `_search_by_title_only` over a list of endpoints; its contract is stated by `TitleOnlySpecOutcome`, `TitleOnlyOutput` and `TitleOnlyStep` (success exactly when every endpoint succeeds; the endpoints' records concatenated, nothing filtered) |
| `MovieClient.TitleOnlySpecOutcome` | app/clients/movie_client.py:56-68 | the strategy succeeds exactly when every endpoint does, and then begins with the first endpoint's records |
| `MovieClient.TitleOnlyOutput` | app/clients/movie_client.py:56-68 | the output is the series records followed by the movie records, one per search result: nothing is filtered |
| `MovieClient.TitleOnlyStep` | app/clients/movie_client.py:58-67 | one loop turn appends the endpoint's records, or ends the strategy with its error |
| `MovieClient.SearchEndpoint` | app/clients/movie_client.py:60-67 | one loop turn returns the endpoint's records as computed from the cache contents before the request; its cache write is invisible; the store only gains reader keys with their expiries (`OnlyReaderWrites`) |
| `MovieClient.SearchByTitleOnly` | app/clients/movie_client.py:42-68 | the endpoint loop returns the concatenated per-endpoint records; cache writes are invisible; the store only gains reader keys with their expiries (`OnlyReaderWrites`) |
| `MovieClient.KeepMatching` | app/clients/movie_client.py:98 | the filter fails exactly when the gather failed, keeps at most the gathered records, and keeps only matching ones |
| `MovieClient.KeepMatchingSelects` | app/clients/movie_client.py:98 | the filtered output is an order-preserving subsequence, every record in it matches, and every matching record is kept as often as it occurs |
| `MovieClient.TitleWithFiltersCandidates` | app/clients/movie_client.py:85-97 | for a series query with an actor the items come from discovery on `tv`, otherwise from the title search on the requested endpoint; the gather succeeds exactly when the items, the taxonomy and every mapping do, and yields each item's mapping, one per item and in order |
| `MovieClient.SearchByTitleWithFilters` | app/clients/movie_client.py:71-98 | the strategy returns the matching candidates; cache writes are invisible; the store only gains reader keys with their expiries (`OnlyReaderWrites`) |
| `MovieClient.FiltersOnlyCandidates` | app/clients/movie_client.py:114-121 | the items always come from discovery; the gather succeeds exactly when discovery, the taxonomy and every mapping do, and yields each discovered item's mapping, one per item and in order |
| `MovieClient.SearchByFiltersOnly` | app/clients/movie_client.py:101-122 | the strategy returns the matching candidates; cache writes are invisible; the store only gains reader keys with their expiries (`OnlyReaderWrites`) |
| `MovieClient.TopByTitleKeepsAllWhenFew` | app/clients/movie_client.py:154-156 | with at most 20 records, the fallback output is a rearrangement of all of them |
| `MovieClient.PopularRaw` | app/clients/movie_client.py:141-145 | the raw list is the movie items tagged `movie` followed by the series items tagged `tv` |
| `MovieClient.PopularMapped` | app/clients/movie_client.py:137-153 | the fallback maps one record per popular item of both lists |
| `MovieClient.PopularMappedTags` | app/clients/movie_client.py:141-153 | the fallback's records are the popular movies mapped with the movie taxonomy followed by the popular series mapped with the series taxonomy |
| `MovieClient.MapTaggedConcat` | app/clients/movie_client.py:150-153 | gathering two runs of items succeeds exactly when each run does, and joins their records |
| `MovieClient.SortByTitle` | app/clients/movie_client.py:155 | the in-place sort leaves the records in title order and a permutation of what they were |
| `MovieClient.SortedSplit` | app/clients/movie_client.py:154-156 | a prefix of a title-sorted list is sorted, and no title after the cut sorts before a title in the prefix |
| `MovieClient.SortedPrefixIsTop` | app/clients/movie_client.py:154-156 | the first 20 of a title-sorted permutation are the top records by title |
| `MovieClient.MapPopular` | app/clients/movie_client.py:137-153 | both popular lists and taxonomies are fetched through the cache and the tagged items mapped; cache writes are invisible; the store only gains reader keys with their expiries (`OnlyReaderWrites`) |
| `MovieClient.PopularOutcome` | app/clients/movie_client.py:154-156 | the popular fallback's result: the first `min(20, n)` mapped records in order for a titled query, otherwise the top 20 by title (`TopByTitle`); `GetPopularFallback` ensures it, `SortedPrefixIsTop` shows a title-sorted prefix meets it and `TopByTitleKeepsAllWhenFew` shows nothing is dropped with at most 20 records |
| `MovieClient.GetPopularFallback` | app/clients/movie_client.py:125-156 | the output has `min(20, movies + series)` records: the top by title without a title, the first in raw order with one; the store only gains reader keys with their expiries (`OnlyReaderWrites`) |
| `MovieClient.SearchTmdb` | app/clients/movie_client.py:15-39 | the result is the routed strategy's result; a routed fallback is always title-sorted; the store only gains reader keys with their expiries (`OnlyReaderWrites`) |

## Left out

- HTTP itself is not modelled: URLs, query strings other than the discovery query, API keys, the 10-second client timeout, status codes beyond 2xx/200. Each call is an oracle reply.
- Error kinds are collapsed into one `Err`, because the application turns every exception into the same 502 response.
- Concurrency is not modelled. Per-item mapping, the two popular fetches and cancellation are sequential here. Each gather is a map in argument order, and the first failure fails the result, which is what `asyncio.gather` returns.
- When the concurrent popular fetches fail, the other fetch may still complete its cache write. The model stops at the first failure, so those writes are not modelled. Either way the writes cannot change what readers return.
- The redis client, the JSON text and expiry timing are not modelled. The store keeps parsed JSON values and each key's recorded expiry.
  - `if cached:` treats any stored key as a hit; a stored JSON text is never empty.
  - Concurrent requests sharing the store are not modelled.
- `resp.json()` failures on non-JSON bodies are not modelled. In particular, the enrichment body is parsed before its status is checked.
- Malformed provider items are not modelled: an item without an `id`, a person without an `id`, a genre or rating entry missing a key. Provider ids are natural numbers.
- `Strings.Lower`: folds ASCII letters only. Python's Unicode `str.lower()` is not modelled.
- `Strings.ParseInt`: accepts only non-empty digit strings. Python's `int()` also accepts surrounding whitespace, a sign and underscores.
- `MovieClient.SortByTitle`: states sorted order and permutation, but not the stability of Python's sort.
- `MovieClient.GetPopularFallback`: for an untitled query, states the top-20-by-title relation rather than the exact list, so the order among equal titles is left open.
- `Discovery.DiscoverMovieSpec`: its own contract states the endpoint and the failing lookups. The query it sends is stated by `Discovery.MovieQueryFilters`.
- Request validation is not part of this model: rejecting a bad `type` with 422, and the response model's other checks besides the required title.
- `app/main.py` (the HTTP endpoint) and `app/config.py` (settings) are not part of this model.
- The unused constants `CACHE_TTL_OMDB` and `CACHE_TTL_SEARCH` are not part of this model.
- The discovery `page` value is kept as the string `"1"`, which is how it appears on the wire.
