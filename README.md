# Pokedex core, modelled in Dafny

This project models the core of a command-line explorer for a paginated
creature catalogue. It covers three things:

- **the expiring cache** (`internal/pokecache/pokecache.go`). This is a map
  from locator strings to byte payloads. Each payload is stamped with the time
  it was stored. Reads never look at that stamp. A periodic sweep deletes
  every entry whose age is strictly greater than the interval.
- **the fetch-through accessor** (`internal/pokeapi/pokeapi.go`). This is the
  skeleton shared by `GetLocationAreas`, `GetAreaPokemon` and
  `GetPokemonData`. It looks the locator up in the cache. On a hit it decodes
  the cached bytes, and a decode failure is an error, not a miss. On a miss it
  requests, reads and decodes, and it caches the raw bytes only after a
  successful decode.
- **the command layer's input normalisation and pagination bookkeeping**
  (`main.go`). This covers `cleanInput` and the `Config` updates of
  `commandMap` and `commandMapb`.

Modules:

- `Common`: `Option`, `byte`, `Bytes`.
- `Http`: a network retrieval's `Outcome` and the `Error` kinds.
- `PokeCache`: the `Cache` class and the `Reaped` specification of one sweep.
- `PokeApi`: the `Access` specification function, the generic `FetchThrough`
  method proved against it, the three named accessors, and the payload
  datatypes.
- `Commands`: `CleanInput`, `Config`, `CommandMap` and `CommandMapb`.
- `Scenarios`: client methods. Each one runs on a cache of its own and shows
  what callers can conclude from the contracts.

Time is an explicit `now: nat` argument, and the interval is a `nat`. An
entry is stale when `now - createdAt > interval`, computed over the integers.
The network is a function `fetch: string -> Outcome`. It gives, per locator,
which stage failed or the status and body delivered. JSON decoding is an
arbitrary partial function `decode: Bytes -> Option<T>` supplied by the
caller. The accessor's out-parameter `fetches` lists the locators it sent to
the network, so "no fetch" and "the key is exactly `url`" can be stated.

Three facts of the code shape the model:

- The accessor never inspects the HTTP status code (`pokeapi.go:71-86`), so
  a non-2xx body that decodes is returned and cached (`AccessIgnoresStatus`).
- `commandMap` and `commandMapb` in `main.go` fetch and decode directly,
  bypassing the accessor and the cache. The model gives them the network
  outcome and a decoder, and no cache.
- `Get` returns the stored slice itself, not a copy. Payloads here are
  values, so this aliasing is not visible in the model.

## Model

| member | source | states |
|---|---|---|
| `PokeCache.Cache.constructor` | internal/pokecache/pokecache.go:34-35 | a new cache holds no entries and keeps the given interval |
| `PokeCache.Cache.Add` | internal/pokecache/pokecache.go:18-25 | the entry for `key` becomes `(now, val)` whether or not it existed; the key set becomes the old one plus `key`; every other key keeps its entry |
| `PokeCache.Cache.Get` | internal/pokecache/pokecache.go:27-32 | changes nothing; `ok` holds exactly when the key is present, whatever the entry's age; then the stored payload is returned, otherwise an empty (nil) payload |
| `PokeCache.Cache.Reap` | internal/pokecache/pokecache.go:46-51 | deleting stale entries one key at a time leaves exactly `Reaped(old entries, now, interval)` |
| `PokeCache.Reaped` | internal/pokecache/pokecache.go:46-49 | a key survives a sweep iff it was present and its age is at most the interval (eviction uses strict `>`); no key is added; survivors keep their payload and timestamp |
| `PokeCache.ReapedIdempotent` | internal/pokecache/pokecache.go:46-49 | a second sweep at the same moment removes nothing more |
| `PokeCache.ReapedLaterSubsumes` | internal/pokecache/pokecache.go:46-49 | a sweep followed by a later one leaves what the later one alone leaves |
| `Http.FailureOf` | internal/pokeapi/pokeapi.go:64-80 | a rejected request, a transport failure and a failed body read are each reported as their own error kind, never as a decode error |
| `PokeApi.Decoded` | internal/pokeapi/pokeapi.go:58-61 | decoding succeeds exactly when the decoder accepts the bytes and yields its value; otherwise a decode error |
| `PokeApi.Access` | internal/pokeapi/pokeapi.go:55-88 | the network is used, for exactly `url`, only on a miss; a hit decodes the cached bytes and changes nothing; the cache changes only by storing the raw fetched bytes under `url`, stamped `now`, after they decoded; on a miss `url` ends up cached iff the call succeeded; every success leaves `url` cached with bytes that decode to the returned value; on a miss a failed network stage is reported as itself, and a delivered body gives its decoded value or a decode error |
| `PokeApi.AccessRepeated` | internal/pokeapi/pokeapi.go:57-62 | after a successful retrieval, a second one of the same locator with no sweep in between fetches nothing, changes nothing and yields the same value |
| `PokeApi.AccessIgnoresStatus` | internal/pokeapi/pokeapi.go:71-87 | on a miss, a delivered body that decodes is returned and cached whatever its status code |
| `PokeApi.AccessAfterEviction` | internal/pokeapi/pokeapi.go:57-64 | once a sweep has evicted `url`'s stale entry, the next retrieval of `url` fetches it again |
| `PokeApi.FetchThrough` | internal/pokeapi/pokeapi.go:55-88 | the generic skeleton's result, new cache entries and fetches are exactly those of `Access` on the old entries |
| `PokeApi.GetLocationAreas` | internal/pokeapi/pokeapi.go:55-88 | `FetchThrough` instantiated with a location-area decoder |
| `PokeApi.GetAreaPokemon` | internal/pokeapi/pokeapi.go:90-123 | `FetchThrough` instantiated with an area-encounters decoder |
| `PokeApi.GetPokemonData` | internal/pokeapi/pokeapi.go:125-158 | `FetchThrough` instantiated with a creature-record decoder |
| `Commands.ToLower` | main.go:70 | same length; each character lowered as ASCII; no upper-case letter remains |
| `Commands.Fields` | main.go:70 | every word is non-empty and free of white space, and consists of characters of the input |
| `Commands.FieldsConcat` | main.go:70 | the words glued together in order are the input with all white space removed |
| `Commands.FieldsEmpty` | main.go:70 | there are no words iff the input is empty or all white space |
| `Commands.FieldsSkipSpace` | main.go:70 | leading white space of any length adds no word and is skipped |
| `Commands.FieldsWordThenSpace` | main.go:70 | a word followed by any non-empty white-space run is split off as one word, and splitting goes on after the run |
| `Commands.FieldsWordAtEnd` | main.go:70 | a word at the end of the input is split off as one word |
| `Commands.FieldsJoinSpaced` | main.go:70 | splitting words joined by single spaces gives back exactly those words |
| `Commands.CleanInput` | main.go:69-71 | every word is non-empty, holds no white space and no upper-case letter |
| `Commands.CleanInputConcat` | main.go:69-71 | the words glued together are the lowered line without white space |
| `Commands.CleanInputEmpty` | main.go:69-71 | an empty or all-white-space line, and only such a line, yields no words |
| `Commands.CleanInputSkipSpace` | main.go:69-71 | leading white space of a line is ignored |
| `Commands.CleanInputWordThenSpace` | main.go:69-71 | a word followed by any non-empty white-space run cleans to the lowered word, followed by the cleaning of the rest |
| `Commands.CleanInputOfWords` | main.go:69-71 | a line of lower-case words separated by single spaces cleans to exactly those words |
| `Commands.CommandWordAsWritten` | main.go:59-61 | the dispatch loop's `inputSlice[0]`, defined only when the cleaned line has a word |
| `Commands.BlankLineHasNoCommandWord` | main.go:59-61 | an empty line and a line of spaces both clean to no words, so the index is out of range |
| `Commands.CommandWord` | main.go:59-61 | the first word of the line, or None exactly when the line is blank |
| `Commands.MapLocator` | main.go:100-105 | `map` requests the stored next link when it is non-empty, otherwise the base locator followed by `location-area`; never the empty locator |
| `Commands.TurnPage` | main.go:106-130 | success iff a body was delivered and decoded; then the links become the page's next and previous links; on every failure the links are unchanged |
| `Commands.Config.constructor` | main.go:51 | the REPL starts with empty next and previous links |
| `Commands.FollowPage` | main.go:106-132 | requesting a locator updates the config and reports the outcome exactly as `TurnPage` does |
| `Commands.CommandMap` | main.go:99-133 | requests `MapLocator(next)` and updates the links as `TurnPage` does |
| `Commands.CommandMapb` | main.go:135-166 | requests the stored previous link even when it is empty, and updates the links as `TurnPage` does |
| `Scenarios.FreshCacheMisses` | internal/pokecache/pokecache.go:27-35 | on a new cache every read misses |
| `Scenarios.AddThenGet` | internal/pokecache/pokecache.go:18-30 | a stored payload is read back, however old it is, when no sweep ran |
| `Scenarios.OverwriteLaterWins` | internal/pokecache/pokecache.go:18-24 | of two writes to one key the later is read back; another key's payload is untouched |
| `Scenarios.SweepExpiry` | internal/pokecache/pokecache.go:46-49 | after a sweep the payload is still read back iff its age is at most the interval |
| `Scenarios.RepeatedRetrieval` | internal/pokeapi/pokeapi.go:55-88 | the first retrieval on an empty cache fetches; after a success the second fetches nothing and yields the same value; after a failure the second fetches again |
| `Scenarios.DecodeFailureIsolation` | internal/pokeapi/pokeapi.go:82-84 | a fetched body that does not decode gives a decode error and leaves the locator uncached |

## Left out

- The background goroutine and its ticker (`pokecache.go:36, 40-45`) are concurrency. The model has one sequential sweep step, `Reap(now)`.
- The mutex is left out, and so is the unlocked reading in `Get` and in the sweep's range. The model is sequential, so data races cannot be expressed.
- `PokeCache.Cache.constructor`: accepts an interval of 0. In Go, `NewCache(0)` starts `reapLoop`, whose `time.NewTicker(0)` (`pokecache.go:41`) panics; the ticker is not part of this model.
- Wall-clock time is not modelled. `time.Now` and `time.Since` become the `now` argument, and one sweep uses a single `now` for every entry. The Go loop reads the clock once per entry.
- The order of Go's map iteration is not modelled. The sweep examines keys in an arbitrary order, and its result does not depend on that order.
- HTTP is foreign I/O and is left out: `http.NewRequest`, `client.Do`, `io.ReadAll` and `Body.Close`. It appears only as the per-locator `Http.Outcome` given by `fetch`.
- Concrete error values are not modelled. Only the failing stage is kept.
- JSON decoding is a library call and is left out: `json.Unmarshal`, `json.Decoder`, and the field tags `pokemon_encounters`, `base_experience` and `base_stat`. The model takes it as an arbitrary partial decoder. The payload datatypes in `PokeApi` only name the decoded shapes.
- `Commands.FollowPage`: does not model streaming decoding. `commandMap` and `commandMapb` read the body inside `json.Decoder.Decode` (`main.go:118-120, 151-153`), which stops at the end of the first JSON value. Go can therefore succeed when reading fails after a complete page, while the model reports every failed read as a read error.
- `main.go` declares its own copy of the location-area type. The model reuses `PokeApi.LocationArea`, which has the same fields.
- The REPL loop, stdin scanning, printing, `os.Exit` (`commandExit`), the `registry` map and `commandHelp` are I/O and glue. `commandHelp` always returns the same error. The pages' `Next` links and result names that the commands print are not modelled either.
- `Commands.ToLower`: does not model Unicode case mapping. Only `A`-`Z` are lowered, and every other character passes through unchanged.
- `Commands.Fields`: does not model Unicode white space. Only the six ASCII white-space characters split words; U+0085, U+00A0 and other Unicode spaces do not.
- Each accessor entry point runs the same skeleton. The shared package-level cache becomes an explicit `Cache` argument.

## Findings

| source | as written | input that shows it | evidently intended | confidence | as-written member | corrected member |
|---|---|---|---|---|---|---|
| main.go:59-61 | the dispatch loop indexes `cleanInput(input)[0]` with no length check | an empty line, or a line of spaces, cleans to no words and the index is out of range | a blank line is skipped and the prompt shown again | not executed | `Commands.CommandWordAsWritten`, `Commands.BlankLineHasNoCommandWord` | `Commands.CommandWord` |
