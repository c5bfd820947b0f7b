# CacheIt cache engine in Dafny

This project models the core of CacheIt, a Swift library for caching data in memory and on disk. It also proves properties of that model.

CacheIt has two tiers:

- **Transient tier.** Units live in a dictionary owned by `TransientCacheManager`. Each unit fixes its key, payload, metadata and expiration instant when it is created.
- **Persistent tier.** Units are owned by `PersistentCacheManager`. Each unit is backed by one file in the cache directory. That file is a *container*: two 8-byte length prefixes, then a JSON header (file name, cache key, expiration, version), then optional JSON metadata, then the payload. A unit re-reads its payload from its file every time it is asked. When a manager starts, it *rehydrates*: it rebuilds units from the files it finds in the directory.

`CacheController` routes every request to the manager of the tier it names. `CacheDefaultConfig` supplies each tier's factory defaults.

Modules, one file each:

| module | file | models |
|---|---|---|
| `Wrappers` | wrappers.dfy | `Option` |
| `Bytes` | bytes.dfy | bytes and the 8-byte little-endian length prefixes |
| `Serialization` | serialization.dfy | a fixed byte encoding that stands in for `JSONSerialization`, and decimal text that stands in for ISO-8601 dates |
| `Container` | container.dfy | container encoding (`saveCache`) and sector decoding (`data(for:with:)`) |
| `CacheKit` | cache_kit.dfy | `CacheType`, `CacheUnitConfig`, `PersistentCacheDataType`, `CacheDefaultConfig` and their defaults |
| `PersistentCacheSpec` | persistent_spec.dfy | the persistent tier as values: entries, the file map, and what each manager operation does to them |
| `PersistentCache` | persistent_cache.dfy | the classes `PersistentCacheUnit` and `PersistentCacheManager`, each method proved against `PersistentCacheSpec` |
| `TransientCache` | transient_cache.dfy | the transient tier as values, and the classes `TransientCacheUnit` and `TransientCacheManager` |
| `Controller` | cache_controller.dfy | `CacheController` and `CacheUnitConfig.cache(cacheController:)` |

Environment inputs are explicit:

- **Time.** Time is an integer clock. Every operation that reads the time takes a parameter `now`, in seconds.
- **Cache directory.** The directory is a map from file name to bytes (`FileMap`). The result of listing the directory is a parameter: `None` when the listing fails.
- **`.file(url)` source.** It carries the result of reading the URL: `None` when the read fails.
- **Fresh file names.** `NSUUID()` becomes a parameter `uuid`. The lemmas that need the name to be new require `FreshName`.

Each class keeps a ghost abstraction: `State()` for the persistent manager, `Contents()` for the transient one. Every state-changing method says what it does to that abstraction. The lemmas then prove what the source promises about the functions it is stated in.

Three behaviours of the code are easy to miss:

- **Timer floor.** The transient timer interval is `expiration - now`, with no floor. Only the persistent tier applies `max(…, 1)`.
- **Transient replacement.** Transient `createCacheUnit` does not expire the unit it replaces. It only overwrites the dictionary entry.
- **Persistent `.alreadyStoredFile` key.** The persistent `createCacheUnit` with `.alreadyStoredFile` files the unit under the request's key, but the unit's own `cacheKey` comes from the file's header. Expiring a prior unit removes that unit's *own* key. `Create`, `ExpirePrior` and `Build` keep this behaviour, and `MisKeyedPriorFile` states its consequence: the overwritten unit's file stays in the directory unless a unit filed under that unit's own key shares the file. `MisKeyedPriorKeepsFile` is an example store where it stays. The lemmas that need "each unit is filed under its own key" state it as `KeysConsistent`.

## Model

| member | source | states |
|---|---|---|
| Bytes.LeRoundTrip | Sources/cacheit/PersistentCache/PersistentCacheManager.swift:123-127 | reading back the little-endian bytes of any value that fits in the width gives the value, so a length prefix decodes to the length it was written from |
| Serialization.StringRoundTrip | Sources/cacheit/PersistentCache/PersistentCacheUnit.swift:97-102 | decoding an encoded string followed by any bytes gives the string and exactly those remaining bytes |
| Serialization.ObjectRoundTrip | Sources/cacheit/PersistentCache/PersistentCacheUnit.swift:102-107 | decoding the serialization of any header or metadata object gives back the same object, keys and values in order |
| Serialization.Lookup | Sources/cacheit/PersistentCache/PersistentCacheUnit.swift:77-78 | a member lookup succeeds exactly when the key is present, and returns a value stored under that key |
| Serialization.IntRoundTrip | Sources/cacheit/PersistentCache/PersistentCacheUnit.swift:94-96 | the expiration written into the header parses back to the same instant (stands in for ISO-8601 formatting and parsing, line 79) |
| Container.Encode | Sources/cacheit/PersistentCache/PersistentCacheUnit.swift:114-135 | a container is produced exactly when header length + metadata length + 16 is below `UInt.max`; when it is, its length is exactly 16 + header + metadata + payload |
| Container.EncodeLayout | Sources/cacheit/PersistentCache/PersistentCacheUnit.swift:121-135 | the container is header length (8 bytes) ++ metadata length (8 bytes) ++ header ++ metadata ++ payload, with metadata length 0 and no metadata bytes when there is no metadata |
| Container.Decode | Sources/cacheit/PersistentCache/PersistentCacheManager.swift:118-141 | a missing file or a container of at most 2 bytes gives nothing, and so does one shorter than the two prefixes; otherwise, with the offsets read from the prefixes, each sector is found exactly when the payload offset stays within `UInt.max` and the sector lies inside the file (the metadata sector also needs a non-zero length), and it is then exactly the bytes between its offsets |
| Container.DecodeEncode | Sources/cacheit/PersistentCache/PersistentCacheManager.swift:132-139 | decoding a container built by `saveCache` gives back the header, the payload, and the metadata exactly when its length is non-zero |
| CacheKit.TransientDefaults | Sources/cacheit/CacheKit.swift:28 | the transient default lifetime is 30 seconds |
| CacheKit.PersistentDefaults | Sources/cacheit/CacheKit.swift:29 | the persistent default lifetime is 3600 seconds and the disk budget is 200 |
| CacheKit.TransientConfig | Sources/cacheit/CacheKit.swift:19 | a transient request built with its defaults has no explicit lifetime and no metadata |
| CacheKit.PersistentConfig | Sources/cacheit/CacheKit.swift:20 | a persistent request built with its defaults has no explicit lifetime and no metadata |
| PersistentCacheSpec.DecodeEntry | Sources/cacheit/PersistentCache/PersistentCacheUnit.swift:74-88 | rehydrating a file gives a unit exactly when the header yields a cache key and a parseable expiration; the unit has those, the file as its file name, and the metadata sector's object (absent when missing or unparseable) |
| PersistentCacheSpec.Construct | Sources/cacheit/PersistentCache/PersistentCacheUnit.swift:45-64 | the unit keeps the given key, lifetime and metadata; construction fails exactly for an unreadable `.file`; `.alreadyStoredFile(name)` keeps `name` and writes nothing; `.data` and `.file` take the fresh identifier as file name; at most that one file changes |
| PersistentCacheSpec.TimerInterval | Sources/cacheit/PersistentCache/PersistentCacheUnit.swift:66 | the persistent timer interval is the time left, but at least 1 |
| PersistentCacheSpec.WrittenFileDecodes | Sources/cacheit/PersistentCache/PersistentCacheUnit.swift:91-137 | a file written by `saveCache` rehydrates to the same key, lifetime, metadata and file name, and its payload sector is the payload |
| PersistentCacheSpec.RemoveIdempotent | Sources/cacheit/PersistentCache/PersistentCacheManager.swift:50-59 | removing a key twice is the same as removing it once, and the key is gone |
| PersistentCacheSpec.RemoveFrame | Sources/cacheit/PersistentCache/PersistentCacheManager.swift:50-59 | removal touches only the key and its unit's file; an absent key is a no-op |
| PersistentCacheSpec.PurgeClears | Sources/cacheit/PersistentCache/PersistentCacheManager.swift:143-147 | after a purge no key is left, no purged unit's file remains, and every other file is unchanged |
| PersistentCacheSpec.CreateFromData | Sources/cacheit/PersistentCache/PersistentCacheManager.swift:61-91 | creating from bytes or from a readable file: the key maps to a unit with the fresh file name, lifetime now + (explicit or default) and the metadata; the payload reads back when written; the written file rehydrates to that unit; the prior unit's file is gone when it was filed under its own key |
| PersistentCacheSpec.CreateFromStoredFile | Sources/cacheit/PersistentCache/PersistentCacheManager.swift:74-76 | creating from an already stored file writes nothing and installs, under the request's key, the unit that file rehydrates to after the prior unit expired; nothing is installed when it does not decode |
| PersistentCacheSpec.CreateFailureLeavesKeyEmpty | Sources/cacheit/PersistentCache/PersistentCacheManager.swift:85-90 | when construction gives no unit, the key has no unit afterwards (every unit filed under its own key) |
| PersistentCacheSpec.MisKeyedPriorKeepsFile | Sources/cacheit/PersistentCache/PersistentCacheManager.swift:70-72 | on an example store, a prior unit under `k` whose own key is another, absent one is overwritten in the map but its file is not deleted |
| PersistentCacheSpec.MisKeyedPriorFile | Sources/cacheit/PersistentCache/PersistentCacheManager.swift:70-72 | when the prior unit under `k` carries another key `h`, its file survives the create exactly when no unit filed under `h` has the same file |
| PersistentCacheSpec.CreateExpiresPrior | Sources/cacheit/PersistentCache/PersistentCacheManager.swift:69-72 | with every unit filed under its own key, creating for a key deletes the prior unit's file whatever the source, and every other key keeps its unit |
| PersistentCacheSpec.CreateKeepsKeysConsistent | Sources/cacheit/PersistentCache/PersistentCacheManager.swift:67-90 | creating from bytes or a file keeps every unit filed under its own key; there is never more than one unit per key |
| PersistentCacheSpec.CreateFromUnreadableFile | Sources/cacheit/PersistentCache/PersistentCacheUnit.swift:56-60 | an unreadable `.file` writes no container and changes nothing but expiring the prior unit; the key is then without a unit (every unit filed under its own key) |
| PersistentCacheSpec.DefaultLifetime | Sources/cacheit/PersistentCache/PersistentCacheManager.swift:80 | without an explicit lifetime the unit expires at now + the manager's default |
| PersistentCacheSpec.CreateWrongTier | Sources/cacheit/PersistentCache/PersistentCacheManager.swift:62-65 | a transient request leaves the persistent store unchanged |
| PersistentCacheSpec.DiskIndexSound | Sources/cacheit/PersistentCache/PersistentCacheManager.swift:41-44 | every rehydrated unit is filed under its own cache key and was decoded from a listed file |
| PersistentCacheSpec.DiskIndexFirstWins | Sources/cacheit/PersistentCache/PersistentCacheManager.swift:41-44 | a decodable file whose key no earlier listed file carries is rehydrated as that key's unit: first in listing order wins |
| PersistentCacheSpec.ReloadKeepsMemory | Sources/cacheit/PersistentCache/PersistentCacheManager.swift:47 | the merge keeps every unit already in memory, adds every rehydrated key not in memory with its rehydrated unit and no other key, and changes no file |
| PersistentCacheSpec.CreateThenRehydrate | Sources/cacheit/PersistentCache/PersistentCacheManager.swift:37-48 | a unit created from bytes or a readable file is found again, same lifetime and metadata and same payload, by a new manager that rehydrates from any listing of the directory, provided no file listed before its own decodes to the same cache key |
| PersistentCache.PersistentCacheUnit.Data | Sources/cacheit/PersistentCache/PersistentCacheUnit.swift:36-38 | the payload sector of the unit's file, read from the current directory, or no bytes when there is none |
| PersistentCache.PersistentCacheUnit.Init | Sources/cacheit/PersistentCache/PersistentCacheUnit.swift:45-72 | the new unit and the directory are those `Construct` gives; the unit is fresh, belongs to the manager, has `cacheId` equal to its file name (the fresh identifier, or the adopted name for `.alreadyStoredFile`), and its timer interval is `TimerInterval`; the manager's map and defaults are unchanged |
| PersistentCache.PersistentCacheUnit.InitWith | Sources/cacheit/PersistentCache/PersistentCacheUnit.swift:74-89 | a unit is built exactly when `DecodeEntry` succeeds, records what it decodes, has the file's name as both `fileName` and `cacheId`, and arms its timer with `TimerInterval`; nothing is written |
| PersistentCache.PersistentCacheUnit.SaveCache | Sources/cacheit/PersistentCache/PersistentCacheUnit.swift:91-137 | the container built step by step is written under the unit's file name, or nothing is written when the size guard refuses it |
| PersistentCache.PersistentCacheUnit.Expire | Sources/cacheit/PersistentCache/PersistentCacheUnit.swift:139-143 | the manager's state becomes `Remove` of the unit's own key |
| PersistentCache.PersistentCacheManager.constructor | Sources/cacheit/PersistentCache/PersistentCacheManager.swift:22-35 | factory defaults 3600 and 200, then the state is the rehydration of the directory into an empty map |
| PersistentCache.PersistentCacheManager.ReloadCache | Sources/cacheit/PersistentCache/PersistentCacheManager.swift:37-48 | the state becomes `Reload` of the old state and the listing; defaults unchanged; every new unit is fresh |
| PersistentCache.PersistentCacheManager.RemoveCache | Sources/cacheit/PersistentCache/PersistentCacheManager.swift:50-59 | the key is erased and its unit's file deleted; nothing when absent; the state becomes `Remove` |
| PersistentCache.PersistentCacheManager.CreateCacheUnit | Sources/cacheit/PersistentCache/PersistentCacheManager.swift:61-91 | the state becomes `Create` of the old state, with the old default lifetime; defaults unchanged |
| PersistentCache.PersistentCacheManager.BuildUnit | Sources/cacheit/PersistentCache/PersistentCacheManager.swift:74-83 | the unit built and the directory afterwards are those `Build` gives: rehydration for `.alreadyStoredFile`, construction otherwise; the unit's `cacheId` is its file name and its timer interval is `TimerInterval` of its expiration |
| PersistentCache.PersistentCacheManager.CacheUnit | Sources/cacheit/PersistentCache/PersistentCacheManager.swift:93-97 | returns the unit under the key exactly when there is one; nothing changes |
| PersistentCache.PersistentCacheManager.SaveCache | Sources/cacheit/PersistentCache/PersistentCacheManager.swift:99-105 | the named file now holds the bytes; nothing else changes |
| PersistentCache.PersistentCacheManager.DataFor | Sources/cacheit/PersistentCache/PersistentCacheManager.swift:118-141 | the sector `Container.Decode` gives for the named file; nothing for a missing file or one of at most 2 bytes |
| PersistentCache.PersistentCacheManager.PurgeCache | Sources/cacheit/PersistentCache/PersistentCacheManager.swift:143-147 | removing each key present at the start leaves the state `Purge` of the old state: empty map, purged units' files deleted |
| PersistentCache.PersistentCacheManager.SetDefault | Sources/cacheit/PersistentCache/PersistentCacheManager.swift:149-156 | a persistent config replaces the lifetime and the disk budget; any other changes nothing; units and files never change |
| TransientCache.CreateThenFetch | Sources/cacheit/TransientCache/TransientCacheManager.swift:32-48 | after a create the key holds the supplied payload and metadata with lifetime now + (explicit or default); no other key changes |
| TransientCache.DefaultLifetime | Sources/cacheit/TransientCache/TransientCacheManager.swift:40 | without an explicit lifetime the manager's default applies, and a config built with its defaults has no metadata |
| TransientCache.CreateWrongTier | Sources/cacheit/TransientCache/TransientCacheManager.swift:33-36 | a persistent request leaves the transient map unchanged |
| TransientCache.RemoveProperties | Sources/cacheit/TransientCache/TransientCacheManager.swift:26-30 | removal erases exactly the key, leaves every other key unchanged, and is idempotent |
| TransientCache.KeyedPreserved | Sources/cacheit/TransientCache/TransientCacheManager.swift:32-48 | create and remove keep every unit filed under its own key |
| TransientCache.TransientCacheUnit.constructor | Sources/cacheit/TransientCache/TransientCacheUnit.swift:22-34 | key, payload, metadata and expiration are the given values (immutable fields); the timer interval is expiration - now, with no floor |
| TransientCache.TransientCacheUnit.Expire | Sources/cacheit/TransientCache/TransientCacheUnit.swift:36-40 | the manager's contents become `Remove` of the unit's key; the default lifetime is unchanged |
| TransientCache.TransientCacheManager.constructor | Sources/cacheit/TransientCache/TransientCacheManager.swift:15-24 | an empty map and the default lifetime of 30 seconds |
| TransientCache.TransientCacheManager.RemoveCache | Sources/cacheit/TransientCache/TransientCacheManager.swift:26-30 | the map loses the key and nothing else; the default lifetime is unchanged |
| TransientCache.TransientCacheManager.CreateCacheUnit | Sources/cacheit/TransientCache/TransientCacheManager.swift:32-48 | the contents become `Create` of the old contents; the unit under the key is fresh and its timer interval is the requested lifetime |
| TransientCache.TransientCacheManager.CacheUnit | Sources/cacheit/TransientCache/TransientCacheManager.swift:50-54 | returns the unit under the key exactly when there is one, with that key; nothing changes |
| TransientCache.TransientCacheManager.PurgeCache | Sources/cacheit/TransientCache/TransientCacheManager.swift:56-60 | removing each key present at the start leaves the map empty; the default lifetime is unchanged |
| TransientCache.TransientCacheManager.SetDefault | Sources/cacheit/TransientCache/TransientCacheManager.swift:62-69 | a transient config replaces the default lifetime; any other changes nothing; the map never changes |
| Controller.CacheController.constructor | Sources/cacheit/CacheController.swift:13-16 | both managers start with their factory defaults; the transient map is empty; the persistent one is rehydrated |
| Controller.CacheController.CreateCacheUnit | Sources/cacheit/CacheController.swift:18-25 | a transient request changes only the transient manager, a persistent one only the persistent manager, each as its own `createCacheUnit` |
| Controller.CacheController.CacheUnit | Sources/cacheit/CacheController.swift:27-34 | looks the key up in the requested tier only, and finds nothing else |
| Controller.CacheController.RemoveCache | Sources/cacheit/CacheController.swift:36-43 | removes the key from the named tier; the other tier is unchanged |
| Controller.CacheController.PurgeCache | Sources/cacheit/CacheController.swift:45-52 | empties the named tier; the other tier is unchanged |
| Controller.CacheController.SetDefault | Sources/cacheit/CacheController.swift:56-63 | hands the config to the named tier only; no unit or file changes |
| Controller.CacheController.ResetAllSettings | Sources/cacheit/CacheController.swift:65-74 | both tiers end empty, the persistent units' files are deleted, and the defaults are 30 s, 3600 s and 200 |
| Controller.Cache | Sources/cacheit/CacheKit.swift:22-24 | exactly the controller's `createCacheUnit(with:)` |

## Left out

- Dispatch queues and thread safety: every `queue.sync` and `queue.async(flags: .barrier)` block runs as an ordinary sequential step. So asynchronous transient removals are not interleaved with later calls.
- Timers and `OperationQueue.main`: only the interval a unit arms its timer with is modelled (`timerInterval`). Timers firing, and `invalidate()`, are not modelled. A firing is the caller invoking `Expire`.
- `Date` and `TimeInterval` are floating point in the source. Here they are integers (seconds on an abstract clock).
- `deinit` of a transient unit calls `expire()`. That behaviour depends on ARC object lifetimes, so it is not modelled and nothing is asserted about it either way.
- `description`, logging (`log`, `os_log`) and `loggingLevel` are not modelled: they are output only.
- `JSONSerialization` is replaced by the fixed encoding in `Serialization`. As a result:
  - metadata values are strings only;
  - serializing the header or the metadata never fails, so the two early `return`s of `saveCache` at lines 102 and 110 cannot happen in the model.
- ISO-8601 date formatting and parsing are replaced by signed decimal text (`ShowInt`/`ParseInt`). There are no time zones and no loss of sub-second precision.
- The library version written into the header is fixed at "1.0". Reading it from the bundle's info dictionary is not modelled.
- Native word width is fixed at 8 bytes, little-endian.
- The header-length slice `container[...8]` takes 9 bytes, of which only the first 8 are copied. The model reads 8.
- Swift traps on an out-of-range slice, on an overflowing `UInt` sum, and in the size guard. In the model:
  - `Container.Decode` returns `None` in all of those cases, including containers of 3 to 15 bytes;
  - an overflowing sum in the size guard writes nothing, as the guard itself would.
- Cache keys compare as sequences of Unicode scalars, not up to canonical equivalence as Swift's `String` does. Two spellings of one key (such as a precomposed and a decomposed accent) are one dictionary key in the source but two keys in the model.
- `FileManager` writes, deletes and directory creation never fail in the model. A failed `try?` write or delete would leave the directory unchanged in the source.
- `PersistentCacheManager.data(contentsOf:)` of an arbitrary URL is the value carried by `File(read)`. Reading a cache file is a map lookup.
- `maxDiskSpaceUsage` is stored and reset, but the source never enforces it, and neither does the model.
- `assertionFailure` on a config of the wrong tier is a no-op here, as it is in release builds.
- `CacheController.shared`, the lazy creation of the managers, and the generic `cacheUnit<T>` are modelled as a controller built by its constructor whose `CacheUnit` takes the tier as a parameter.
- `PersistentCacheUnit.Expired` and `TransientCacheUnit.Expired` are stated by their definition (`now > expiration`) and carry no further contract.
- Sources/cacheit/PersistentCache/PersistentCache.swift, Sources/cacheit/TransientCache/TransientCache.swift and Sources/cacheit/Logging/Log.swift are not part of this model: they are `NSKeyedArchiver`, async dispatch and logging wrappers. The playground, app delegate, package manifest and tests are not part of this model either.
