/** The process-wide key/value store and the two cache-aside readers built on it:
    `fetch_genres` (taxonomies, no expiry) and `get_popular` (popularity lists,
    ten-minute expiry). A cached value is kept as the JSON value it encodes. */
module CacheAside {
  import opened Wrappers
  import opened Strings
  import opened PyDict
  import opened Upstream

  /** `CACHE_TTL_POPULAR`, in seconds. */
  const CacheTtlPopular: nat := 600

  /** A genre id -> genre name mapping, in the order the catalog listed it. */
  type Taxonomy = Dict<nat, string>

  /** The parsed JSON text held under a key: an object with string keys (a taxonomy
      after `json.dumps`) or an array of catalog items. */
  datatype CachedValue = JsonObject(pairs: Dict<string, string>) | JsonArray(items: seq<RawItem>)

  function EndpointName(ep: Endpoint): string {
    match ep
    case Tv => "tv"
    case MovieEp => "movie"
  }

  function GenresKey(ep: Endpoint): string {
    "genres:" + EndpointName(ep)
  }

  function PopularKey(ep: Endpoint): string {
    "popular:" + EndpointName(ep)
  }

  /** The four keys this core writes are pairwise different. */
  lemma KeysDistinct()
    ensures GenresKey(Tv) != GenresKey(MovieEp)
    ensures PopularKey(Tv) != PopularKey(MovieEp)
    ensures forall a, b :: GenresKey(a) != PopularKey(b)
  {
    forall a, b ensures GenresKey(a) != PopularKey(b) {
      assert GenresKey(a)[0] == 'g' && PopularKey(b)[0] == 'p';
    }
    assert GenresKey(Tv)[7] == 't' && GenresKey(MovieEp)[7] == 'm';
    assert PopularKey(Tv)[8] == 't' && PopularKey(MovieEp)[8] == 'm';
  }

  /** No entry after position `i` carries the same id as entry `i`. */
  predicate LastWithId(genres: seq<GenreEntry>, i: nat)
    requires i < |genres|
  {
    forall j :: i < j < |genres| ==> genres[j].id != genres[i].id
  }

  /** `{g['id']: g['name'] for g in genres}`: one key per id, named by the last
      entry that carries it. */
  function TaxonomyOf(genres: seq<GenreEntry>): (t: Taxonomy)
    ensures DistinctKeys(t)
    ensures forall id :: id in KeySet(t) <==> exists i :: 0 <= i < |genres| && genres[i].id == id
    ensures forall i :: 0 <= i < |genres| && LastWithId(genres, i) ==> Get(t, genres[i].id) == Some(genres[i].name)
  {
    var pairs := seq(|genres|, i requires 0 <= i < |genres| => (genres[i].id, genres[i].name));
    assert forall id :: id in PairKeys(pairs) <==> exists i :: 0 <= i < |genres| && genres[i].id == id by {
      forall id ensures id in PairKeys(pairs) ==> exists i :: 0 <= i < |genres| && genres[i].id == id {
        if id in PairKeys(pairs) {
          var i :| 0 <= i < |pairs| && pairs[i].0 == id;
          assert genres[i].id == id;
        }
      }
      forall id | exists i :: 0 <= i < |genres| && genres[i].id == id ensures id in PairKeys(pairs) {
        var i :| 0 <= i < |genres| && genres[i].id == id;
        assert pairs[i].0 == id;
      }
    }
    assert forall i :: 0 <= i < |genres| && LastWithId(genres, i) ==> Get(FromPairs(pairs), genres[i].id) == Some(genres[i].name) by {
      forall i | 0 <= i < |genres| && LastWithId(genres, i) ensures Get(FromPairs(pairs), genres[i].id) == Some(genres[i].name) {
        assert forall j :: i < j < |pairs| ==> pairs[j].0 != pairs[i].0;
        FromPairsLastWins(pairs, i);
      }
    }
    FromPairs(pairs)
  }

  /** `json.dumps(mapping)`: every integer key is written as its decimal string. */
  function EncodeTaxonomy(t: Taxonomy): (o: Dict<string, string>)
    ensures |o| == |t|
    ensures forall i :: 0 <= i < |t| ==> o[i] == (NatToString(t[i].0), t[i].1)
  {
    seq(|t|, i requires 0 <= i < |t| => (NatToString(t[i].0), t[i].1))
  }

  predicate DigitKeys(o: Dict<string, string>) {
    forall i :: 0 <= i < |o| ==> AllDigits(o[i].0)
  }

  /** No key after position `i` reads as the same number as key `i`. */
  predicate LastWithNumber(o: Dict<string, string>, i: nat)
    requires DigitKeys(o) && i < |o|
  {
    forall j :: i < j < |o| ==> StringToNat(o[j].0) != StringToNat(o[i].0)
  }

  /** `{int(k): v for k, v in json.loads(cached).items()}`: one key per number the
      object's keys spell, holding the value of the last key that spells it. */
  function DecodeTaxonomy(o: Dict<string, string>): (t: Taxonomy)
    requires DigitKeys(o)
    ensures DistinctKeys(t)
    ensures forall id :: id in KeySet(t) <==> exists i :: 0 <= i < |o| && StringToNat(o[i].0) == id
    ensures forall i :: 0 <= i < |o| && LastWithNumber(o, i) ==> Get(t, StringToNat(o[i].0)) == Some(o[i].1)
  {
    var pairs := seq(|o|, i requires 0 <= i < |o| => (StringToNat(o[i].0), o[i].1));
    assert forall id :: id in PairKeys(pairs) <==> exists i :: 0 <= i < |o| && StringToNat(o[i].0) == id by {
      forall id ensures id in PairKeys(pairs) ==> exists i :: 0 <= i < |o| && StringToNat(o[i].0) == id {
        if id in PairKeys(pairs) {
          var i :| 0 <= i < |pairs| && pairs[i].0 == id;
          assert StringToNat(o[i].0) == id;
        }
      }
      forall id | exists i :: 0 <= i < |o| && StringToNat(o[i].0) == id ensures id in PairKeys(pairs) {
        var i :| 0 <= i < |o| && StringToNat(o[i].0) == id;
        assert pairs[i].0 == id;
      }
    }
    assert forall i :: 0 <= i < |o| && LastWithNumber(o, i) ==> Get(FromPairs(pairs), StringToNat(o[i].0)) == Some(o[i].1) by {
      forall i | 0 <= i < |o| && LastWithNumber(o, i) ensures Get(FromPairs(pairs), StringToNat(o[i].0)) == Some(o[i].1) {
        assert forall j :: i < j < |pairs| ==> pairs[j].0 != pairs[i].0;
        FromPairsLastWins(pairs, i);
      }
    }
    FromPairs(pairs)
  }

  /** A cached taxonomy `{"10": "Horror", "20": "Comedy"}` reads back with integer keys. */
  lemma DecodeTaxonomyExample()
    ensures DigitKeys([("10", "Horror"), ("20", "Comedy")])
    ensures DecodeTaxonomy([("10", "Horror"), ("20", "Comedy")]) == [(10, "Horror"), (20, "Comedy")]
  {
    var t: Taxonomy := [(10, "Horror"), (20, "Comedy")];
    assert NatToString(10) == NatToString(1) + [DigitChar(0)] == "10";
    assert NatToString(20) == NatToString(2) + [DigitChar(0)] == "20";
    assert EncodeTaxonomy(t) == [("10", "Horror"), ("20", "Comedy")];
    DecodeEncode(t);
  }

  /** Writing a taxonomy to the cache and reading it back gives the same taxonomy:
      the int -> string -> int key round trip. */
  lemma DecodeEncode(t: Taxonomy)
    requires DistinctKeys(t)
    ensures DigitKeys(EncodeTaxonomy(t))
    ensures DecodeTaxonomy(EncodeTaxonomy(t)) == t
  {
    var o := EncodeTaxonomy(t);
    var pairs := seq(|o|, i requires 0 <= i < |o| => (StringToNat(o[i].0), o[i].1));
    forall i | 0 <= i < |t| ensures pairs[i] == t[i] {
      StringToNatOfNatToString(t[i].0);
    }
    assert pairs == t;
    FromPairsOfDict(t);
  }

  /** The shape of the value each of this core's keys holds. */
  predicate Fits(key: string, v: CachedValue) {
    && ((key == GenresKey(Tv) || key == GenresKey(MovieEp)) ==> v.JsonObject? && DigitKeys(v.pairs))
    && ((key == PopularKey(Tv) || key == PopularKey(MovieEp)) ==> v.JsonArray?)
  }

  predicate WellFormed(entries: map<string, CachedValue>) {
    forall k :: k in entries ==> Fits(k, entries[k])
  }

  /** What `fetch_genres` returns for an endpoint when the store holds `entries`:
      the decoded cached taxonomy on a hit, the freshly fetched one on a miss. */
  function ResolveGenres(entries: map<string, CachedValue>, p: Providers, ep: Endpoint): (r: Result<Taxonomy>)
    requires WellFormed(entries)
    ensures GenresKey(ep) in entries ==> r.Ok?
    ensures GenresKey(ep) !in entries ==> (r.Ok? <==> RaiseForStatus(p.genreList(ep)).Ok?)
    ensures r.Ok? ==> DistinctKeys(r.value)
  {
    var key := GenresKey(ep);
    if key in entries then
      Ok(DecodeTaxonomy(entries[key].pairs))
    else
      var genres :- ListField(p.genreList(ep));
      Ok(TaxonomyOf(genres))
  }

  /** The taxonomy `fetch_genres` returns: on a hit, the cached object read back
      with integer keys; on a miss, the fetched genre list keyed by id. */
  lemma ResolveGenresValue(entries: map<string, CachedValue>, p: Providers, ep: Endpoint)
    requires WellFormed(entries)
    ensures GenresKey(ep) in entries ==>
              ResolveGenres(entries, p, ep) == Ok(DecodeTaxonomy(entries[GenresKey(ep)].pairs))
    ensures GenresKey(ep) !in entries && ResolveGenres(entries, p, ep).Ok? ==>
              ResolveGenres(entries, p, ep).value == TaxonomyOf(ListField(p.genreList(ep)).value)
  {
  }

  /** What `get_popular` returns for an endpoint when the store holds `entries`. */
  function ResolvePopular(entries: map<string, CachedValue>, p: Providers, ep: Endpoint): (r: Result<seq<RawItem>>)
    requires WellFormed(entries)
    ensures PopularKey(ep) in entries ==> r == Ok(entries[PopularKey(ep)].items)
    ensures PopularKey(ep) !in entries ==> r == ListField(p.popular(ep))
  {
    var key := PopularKey(ep);
    if key in entries then Ok(entries[key].items) else ListField(p.popular(ep))
  }

  /** A change of the store that no cache-aside reader can observe: every reader
      returns what it returned before. */
  predicate Transparent(before: map<string, CachedValue>, after: map<string, CachedValue>, p: Providers) {
    && WellFormed(before)
    && WellFormed(after)
    && ResolveGenres(after, p, Tv) == ResolveGenres(before, p, Tv)
    && ResolveGenres(after, p, MovieEp) == ResolveGenres(before, p, MovieEp)
    && ResolvePopular(after, p, Tv) == ResolvePopular(before, p, Tv)
    && ResolvePopular(after, p, MovieEp) == ResolvePopular(before, p, MovieEp)
  }

  /** Writes that readers cannot observe compose. */
  lemma TransparentTrans(a: map<string, CachedValue>, b: map<string, CachedValue>, c: map<string, CachedValue>, p: Providers)
    requires Transparent(a, b, p) && Transparent(b, c, p)
    ensures Transparent(a, c, p)
  {
  }

  /** A key a cache-aside reader writes, together with the expiry it writes it
      with: a taxonomy key never expires, a popular-list key after
      `CacheTtlPopular` seconds. */
  predicate ReaderKey(k: string, ttl: Option<nat>) {
    || ((k == GenresKey(Tv) || k == GenresKey(MovieEp)) && ttl == None)
    || ((k == PopularKey(Tv) || k == PopularKey(MovieEp)) && ttl == Some(CacheTtlPopular))
  }

  /** The only changes the readers make to a store: every stored key keeps its
      value and its expiry, and every added key is a reader's key with that
      reader's expiry. */
  predicate OnlyReaderWrites(e0: map<string, CachedValue>, t0: map<string, Option<nat>>,
                             e1: map<string, CachedValue>, t1: map<string, Option<nat>>) {
    && (forall k :: k in e0 ==> k in e1 && e1[k] == e0[k])
    && (forall k :: k in t0 ==> k in t1 && t1[k] == t0[k])
    && (forall k :: k in e1 && k !in e0 ==> k in t1 && ReaderKey(k, t1[k]))
  }

  /** Adding a reader's key with its expiry is a reader write. */
  lemma OnlyReaderWritesAdd(e: map<string, CachedValue>, t: map<string, Option<nat>>,
                            k: string, v: CachedValue, ttl: Option<nat>)
    requires k !in e && k !in t && ReaderKey(k, ttl)
    ensures OnlyReaderWrites(e, t, e[k := v], t[k := ttl])
  {
  }

  /** Reader writes compose. */
  lemma OnlyReaderWritesTrans(e0: map<string, CachedValue>, t0: map<string, Option<nat>>,
                              e1: map<string, CachedValue>, t1: map<string, Option<nat>>,
                              e2: map<string, CachedValue>, t2: map<string, Option<nat>>)
    requires e0.Keys == t0.Keys && e1.Keys == t1.Keys
    requires OnlyReaderWrites(e0, t0, e1, t1) && OnlyReaderWrites(e1, t1, e2, t2)
    ensures OnlyReaderWrites(e0, t0, e2, t2)
  {
    forall k | k in e2 && k !in e0 ensures k in t2 && ReaderKey(k, t2[k]) {
      if k in e1 {
        assert k in t1 && ReaderKey(k, t1[k]);
        assert t2[k] == t1[k];
      }
    }
  }

  /** The key/value store (`_redis`): values by key, and the expiry each key was
      written with (`None` for no expiry). */
  class Store {
    var entries: map<string, CachedValue>
    var ttls: map<string, Option<nat>>

    ghost predicate Valid()
      reads this
    {
      entries.Keys == ttls.Keys && WellFormed(entries)
    }

    constructor ()
      ensures Valid() && entries == map[] && ttls == map[]
    {
      entries := map[];
      ttls := map[];
    }

    /** `_redis.get(key)`. */
    method Get(key: string) returns (v: Option<CachedValue>)
      ensures v.Some? <==> key in entries
      ensures v.Some? ==> v.value == entries[key]
    {
      v := if key in entries then Some(entries[key]) else None;
    }

    /** `_redis.set(key, value, ex=ttl)`: a whole-value overwrite. */
    method Set(key: string, value: CachedValue, ttl: Option<nat>)
      requires Valid() && Fits(key, value)
      modifies this
      ensures Valid()
      ensures entries == old(entries)[key := value]
      ensures ttls == old(ttls)[key := ttl]
    {
      entries := entries[key := value];
      ttls := ttls[key := ttl];
    }
  }

  /** `fetch_genres`: a hit returns the cached taxonomy with its keys read back as
      integers and writes nothing; a miss fetches the list, stores it under
      `genres:<endpoint>` with no expiry and returns it. */
  method FetchGenres(store: Store, p: Providers, isSeries: bool) returns (r: Result<Taxonomy>)
    requires store.Valid()
    modifies store
    ensures store.Valid()
    ensures r == ResolveGenres(old(store.entries), p, EndpointFor(isSeries))
    ensures GenresKey(EndpointFor(isSeries)) in old(store.entries) || r.Err? ==>
      store.entries == old(store.entries) && store.ttls == old(store.ttls)
    ensures GenresKey(EndpointFor(isSeries)) !in old(store.entries) && r.Ok? ==>
      && store.entries == old(store.entries)[GenresKey(EndpointFor(isSeries)) := JsonObject(EncodeTaxonomy(r.value))]
      && store.ttls == old(store.ttls)[GenresKey(EndpointFor(isSeries)) := None]
    ensures Transparent(old(store.entries), store.entries, p)
    ensures OnlyReaderWrites(old(store.entries), old(store.ttls), store.entries, store.ttls)
  {
    var ep := EndpointFor(isSeries);
    var key := GenresKey(ep);
    var cached := store.Get(key);
    if cached.Some? {
      return Ok(DecodeTaxonomy(cached.value.pairs));
    }
    var genres :- ListField(p.genreList(ep));
    var mapping := TaxonomyOf(genres);
    DecodeEncode(mapping);
    KeysDistinct();
    OnlyReaderWritesAdd(store.entries, store.ttls, key, JsonObject(EncodeTaxonomy(mapping)), None);
    store.Set(key, JsonObject(EncodeTaxonomy(mapping)), None);
    return Ok(mapping);
  }

  /** `get_popular`: a hit returns the cached list without a fetch; a miss stores
      the fetched `results` (empty when absent) under `popular:<endpoint>` with a
      600-second expiry and returns that same list. */
  method GetPopular(store: Store, p: Providers, isSeries: bool) returns (r: Result<seq<RawItem>>)
    requires store.Valid()
    modifies store
    ensures store.Valid()
    ensures r == ResolvePopular(old(store.entries), p, EndpointFor(isSeries))
    ensures PopularKey(EndpointFor(isSeries)) in old(store.entries) || r.Err? ==>
      store.entries == old(store.entries) && store.ttls == old(store.ttls)
    ensures PopularKey(EndpointFor(isSeries)) !in old(store.entries) && r.Ok? ==>
      && store.entries == old(store.entries)[PopularKey(EndpointFor(isSeries)) := JsonArray(r.value)]
      && store.ttls == old(store.ttls)[PopularKey(EndpointFor(isSeries)) := Some(CacheTtlPopular)]
    ensures Transparent(old(store.entries), store.entries, p)
    ensures OnlyReaderWrites(old(store.entries), old(store.ttls), store.entries, store.ttls)
  {
    var ep := EndpointFor(isSeries);
    var key := PopularKey(ep);
    var cached := store.Get(key);
    if cached.Some? {
      return Ok(cached.value.items);
    }
    var items :- ListField(p.popular(ep));
    KeysDistinct();
    OnlyReaderWritesAdd(store.entries, store.ttls, key, JsonArray(items), Some(CacheTtlPopular));
    store.Set(key, JsonArray(items), Some(CacheTtlPopular));
    return Ok(items);
  }
}
