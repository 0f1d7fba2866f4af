/**
 * The fetch-through accessor.  The three entry points of the API client
 * share one skeleton, differing only in the shape they decode:
 * look the locator up in the cache; on a hit decode the cached bytes; on a
 * miss fetch, read and decode, and store the raw bytes only when decoding
 * succeeded.  Decoding is an arbitrary partial function supplied by the
 * caller; the network is an `Http.Outcome` per locator.
 */
module PokeApi {
  import opened Common
  import opened Http
  import opened PokeCache

  /** A retrieval either yields a decoded value or reports an error. */
  datatype Result<T> = Ok(value: T) | Err(error: Error)

  /** What one retrieval does: its result, the cache entries after it, and the locators it fetched. */
  datatype Step<T> = Step(result: Result<T>, entries: map<string, Entry>, fetches: seq<string>)

  /** Decode a payload, reporting failure as a decode error. */
  function Decoded<T>(decode: Bytes -> Option<T>, data: Bytes): (r: Result<T>)
    ensures r.Ok? <==> decode(data).Some?
    ensures r.Ok? ==> decode(data) == Some(r.value)
    ensures r.Err? ==> r.error == DecodeError
  {
    match decode(data)
    case Some(v) => Ok(v)
    case None => Err(DecodeError)
  }

  /** One retrieval of `url` at time `now`, starting from cache entries `m`. */
  function Access<T>(m: map<string, Entry>, url: string, now: nat,
                     fetch: string -> Outcome, decode: Bytes -> Option<T>): (s: Step<T>)
    // the network is consulted, for exactly `url`, only on a miss
    ensures s.fetches == if url in m then [] else [url]
    // a hit answers from the cached bytes and changes nothing
    ensures url in m ==> s.entries == m && s.result == Decoded(decode, m[url].val)
    // the cache changes only by storing the fetched bytes under `url` after they decoded
    ensures s.entries != m ==>
              && url !in m && fetch(url).Delivered? && s.result.Ok?
              && s.entries == m[url := Entry(now, fetch(url).data)]
    // on a miss, `url` ends up cached exactly when the retrieval succeeded
    ensures url !in m ==> (url in s.entries <==> s.result.Ok?)
    // every success leaves `url` cached with bytes that decode to the value returned
    ensures s.result.Ok? ==> url in s.entries && decode(s.entries[url].val) == Some(s.result.value)
    // a failed retrieval on a miss reports the stage that failed
    ensures url !in m && !fetch(url).Delivered? ==> s.result == Err(FailureOf(fetch(url)))
    // on a miss, a delivered body is the answer: its decoded value, or a decode error
    ensures url !in m && fetch(url).Delivered? ==> s.result == Decoded(decode, fetch(url).data)
  {
    if url in m then
      Step(Decoded(decode, m[url].val), m, [])
    else
      match fetch(url)
      case Delivered(_, data) =>
        (match decode(data)
         case Some(v) => Step(Ok(v), m[url := Entry(now, data)], [url])
         case None => Step(Err(DecodeError), m, [url]))
      case _ => Step(Err(FailureOf(fetch(url))), m, [url])
  }

  /**
   * A second retrieval of the same locator after a successful one, with no
   * sweep in between, fetches nothing, changes nothing and yields the same
   * value, whatever the network would do the second time.
   */
  lemma AccessRepeated<T>(m: map<string, Entry>, url: string, t1: nat, t2: nat,
                          fetch1: string -> Outcome, fetch2: string -> Outcome,
                          decode: Bytes -> Option<T>)
    requires Access(m, url, t1, fetch1, decode).result.Ok?
    ensures var s1 := Access(m, url, t1, fetch1, decode);
            var s2 := Access(s1.entries, url, t2, fetch2, decode);
            s2.fetches == [] && s2.entries == s1.entries && s2.result == s1.result
  {
  }

  /**
   * The status code is never inspected: a body that decodes is returned and
   * cached whatever status came with it.
   */
  lemma AccessIgnoresStatus<T>(m: map<string, Entry>, url: string, now: nat,
                               fetch: string -> Outcome, decode: Bytes -> Option<T>)
    requires url !in m && fetch(url).Delivered? && decode(fetch(url).data).Some?
    ensures Access(m, url, now, fetch, decode) ==
            Step(Ok(decode(fetch(url).data).value), m[url := Entry(now, fetch(url).data)], [url])
  {
  }

  /**
   * Once a sweep has evicted the entry for `url`, the next retrieval of
   * `url` goes back to the network.
   */
  lemma AccessAfterEviction<T>(m: map<string, Entry>, url: string, interval: nat, now: nat,
                               fetch: string -> Outcome, decode: Bytes -> Option<T>)
    requires url in m && IsStale(m[url], now, interval)
    ensures Access(Reaped(m, now, interval), url, now, fetch, decode).fetches == [url]
  {
  }

  /** The shared skeleton of `GetLocationAreas`, `GetAreaPokemon` and `GetPokemonData`. */
  method FetchThrough<T>(cache: Cache, url: string, now: nat,
                         fetch: string -> Outcome, decode: Bytes -> Option<T>)
    returns (r: Result<T>, fetches: seq<string>)
    modifies cache
    ensures Step(r, cache.entries, fetches) == Access(old(cache.entries), url, now, fetch, decode)
  {
    var cached, ok := cache.Get(url);
    if ok {
      r, fetches := Decoded(decode, cached), [];
      return;
    }
    fetches := [url];
    var outcome := fetch(url);
    if !outcome.Delivered? {
      r := Err(FailureOf(outcome));
      return;
    }
    var data := outcome.data;
    var decoded := decode(data);
    if decoded.None? {
      r := Err(DecodeError);
      return;
    }
    cache.Add(url, data, now);
    r := Ok(decoded.value);
  }

  /** A link as it appears in listings: a name and its locator. */
  datatype NamedLink = NamedLink(name: string, url: string)

  /** A page of location areas, with the locators of its neighbours. */
  datatype LocationArea = LocationArea(count: int, next: string, previous: string, results: seq<NamedLink>)

  /** The creatures that can be encountered in one area. */
  datatype AreaPokemon = AreaPokemon(encounters: seq<NamedLink>)

  datatype PokemonStat = PokemonStat(statName: string, baseStat: int)

  /** One creature's record. */
  datatype Pokemon = Pokemon(name: string, height: int, weight: int, stats: seq<PokemonStat>,
                             types: seq<string>, baseExperience: int)

  method GetLocationAreas(cache: Cache, url: string, now: nat,
                          fetch: string -> Outcome, decode: Bytes -> Option<LocationArea>)
    returns (r: Result<LocationArea>, fetches: seq<string>)
    modifies cache
    ensures Step(r, cache.entries, fetches) == Access(old(cache.entries), url, now, fetch, decode)
  {
    r, fetches := FetchThrough(cache, url, now, fetch, decode);
  }

  method GetAreaPokemon(cache: Cache, url: string, now: nat,
                        fetch: string -> Outcome, decode: Bytes -> Option<AreaPokemon>)
    returns (r: Result<AreaPokemon>, fetches: seq<string>)
    modifies cache
    ensures Step(r, cache.entries, fetches) == Access(old(cache.entries), url, now, fetch, decode)
  {
    r, fetches := FetchThrough(cache, url, now, fetch, decode);
  }

  method GetPokemonData(cache: Cache, url: string, now: nat,
                        fetch: string -> Outcome, decode: Bytes -> Option<Pokemon>)
    returns (r: Result<Pokemon>, fetches: seq<string>)
    modifies cache
    ensures Step(r, cache.entries, fetches) == Access(old(cache.entries), url, now, fetch, decode)
  {
    r, fetches := FetchThrough(cache, url, now, fetch, decode);
  }
}
