/**
 * The persistent tier's objects.  A manager owns the key-to-unit map and the
 * cache directory; a unit fixes its key, file name, lifetime and metadata when
 * it is built and re-reads its payload from disk on every access.  Each
 * mutating method is proved to take `State()` to the value the matching
 * function of PersistentCacheSpec gives.
 */
module PersistentCache {
  import opened Wrappers
  import opened Bytes
  import opened Serialization
  import Container
  import opened CacheKit
  import opened PersistentCacheSpec

  /** What each unit of `m` records. */
  ghost function Records(m: map<CacheKey, PersistentCacheUnit>): map<CacheKey, Entry>
  {
    map k | k in m :: m[k].Record()
  }

  lemma RecordsUpdate(m: map<CacheKey, PersistentCacheUnit>, k: CacheKey, u: PersistentCacheUnit)
    ensures Records(m[k := u]) == Records(m)[k := u.Record()]
  {
  }

  lemma RecordsUnion(a: map<CacheKey, PersistentCacheUnit>, b: map<CacheKey, PersistentCacheUnit>)
    ensures Records(a + b) == Records(a) + Records(b)
  {
  }

  class PersistentCacheUnit {
    const cacheKey: CacheKey
    const fileName: string
    const cacheId: CacheId
    const metaData: MetaData
    const expiration: int
    const cacheManager: PersistentCacheManager
    /** The interval, in seconds, that the one-shot expiration timer is armed with. */
    const timerInterval: int

    /** The unit as a value. */
    function Record(): Entry
    {
      Entry(cacheKey, fileName, expiration, metaData)
    }

    /** The field assignments of the designated initializer, timer included. */
    constructor (cacheKey: CacheKey, fileName: string, expiration: int, metaData: MetaData,
                 cacheManager: PersistentCacheManager, now: int)
      ensures this.cacheKey == cacheKey && this.fileName == fileName && cacheId == fileName
      ensures this.expiration == expiration && this.metaData == metaData
      ensures this.cacheManager == cacheManager
      ensures timerInterval == TimerInterval(expiration, now)
    {
      this.cacheKey := cacheKey;
      this.fileName := fileName;
      this.cacheId := fileName;
      this.expiration := expiration;
      this.metaData := metaData;
      this.cacheManager := cacheManager;
      this.timerInterval := TimerInterval(expiration, now);
    }

    /** `expired`: the expiration instant lies in the past. */
    predicate Expired(now: int)
    {
      now > expiration
    }

    /** `data`: the payload sector of the unit's file, read afresh. */
    function Data(): (r: seq<byte>)
      reads cacheManager
      ensures var sector := ReadSector(cacheManager.files, fileName, Container.CachedData);
        r == if sector.Some? then sector.value else []
    {
      Payload(cacheManager.files, fileName)
    }

    /**
     * `init?(cacheKey:cacheManager:expiration:dataType:metaData:)`.  Bytes and
     * a readable file get the fresh identifier `uuid` as file name and are
     * written out; an unreadable file gives no unit; an already stored file is
     * adopted as it is.
     */
    static method Init(cacheKey: CacheKey, cacheManager: PersistentCacheManager, expiration: int,
                       dataType: PersistentCacheDataType, metaData: MetaData, now: int, uuid: string)
      returns (unit: PersistentCacheUnit?)
      requires cacheManager.Valid()
      modifies cacheManager
      ensures cacheManager.Valid() && cacheManager.cache == old(cacheManager.cache)
      ensures cacheManager.expiration == old(cacheManager.expiration)
      ensures cacheManager.maxDiskSpaceUsage == old(cacheManager.maxDiskSpaceUsage)
      ensures var built := Construct(old(cacheManager.files), cacheKey, expiration, dataType, metaData, uuid);
        && cacheManager.files == built.1
        && (unit == null <==> built.0.None?)
        && (unit != null ==> fresh(unit) && unit.Record() == built.0.value && unit.cacheManager == cacheManager
                             && unit.cacheId == unit.fileName
                             && unit.timerInterval == TimerInterval(expiration, now))
    {
      match dataType
      case Data(data) =>
        unit := new PersistentCacheUnit(cacheKey, uuid, expiration, metaData, cacheManager, now);
        unit.SaveCache(data);
      case File(read) =>
        if read.None? {
          unit := null;
        } else {
          unit := new PersistentCacheUnit(cacheKey, uuid, expiration, metaData, cacheManager, now);
          unit.SaveCache(read.value);
        }
      case AlreadyStoredFile(fileName) =>
        unit := new PersistentCacheUnit(cacheKey, fileName, expiration, metaData, cacheManager, now);
    }

    /**
     * `init?(with:cacheManager:)`: rebuilds a unit from the header and
     * metadata sectors of an existing file, which it keeps as its file.
     */
    static method InitWith(cachedDataContainerFileName: string, cacheManager: PersistentCacheManager, now: int)
      returns (unit: PersistentCacheUnit?)
      ensures unit == null <==> DecodeEntry(cacheManager.files, cachedDataContainerFileName).None?
      ensures unit != null ==>
        && fresh(unit) && unit.cacheManager == cacheManager
        && unit.Record() == DecodeEntry(cacheManager.files, cachedDataContainerFileName).value
        && unit.cacheId == unit.fileName == cachedDataContainerFileName
        && unit.timerInterval == TimerInterval(unit.expiration, now)
    {
      var header := DecodeHeader(cacheManager.files, cachedDataContainerFileName);
      if header.None? {
        return null;
      }
      var metaData := DecodeMetaData(cacheManager.files, cachedDataContainerFileName);
      unit := new PersistentCacheUnit(header.value.0, cachedDataContainerFileName, header.value.1, metaData,
                                      cacheManager, now);
    }

    /** `saveCache(data:expiration:metaData:)`: builds the container and writes it under the unit's file name. */
    method SaveCache(data: seq<byte>)
      requires cacheManager.Valid()
      modifies cacheManager
      ensures cacheManager.Valid() && cacheManager.cache == old(cacheManager.cache)
      ensures cacheManager.expiration == old(cacheManager.expiration)
      ensures cacheManager.maxDiskSpaceUsage == old(cacheManager.maxDiskSpaceUsage)
      ensures cacheManager.files == SaveFile(old(cacheManager.files), Record(), data)
    {
      var headerData := EncodeObject(HeaderObject(Record()));
      var metaDataData: Option<seq<byte>> := None;
      if metaData.Some? {
        metaDataData := Some(EncodeObject(metaData.value));
      }
      var headerLength := |headerData|;
      var metaLength := if metaDataData.Some? then |metaDataData.value| else 0;
      if !(headerLength + metaLength + Container.LENGTH_DESCRIPTION_BYTES < Container.UINT_MAX) {
        return;
      }
      var container: seq<byte> := [];
      container := container + ToLe(headerLength, WORD_SIZE);
      container := container + ToLe(metaLength, WORD_SIZE);
      container := container + headerData;
      if metaDataData.Some? {
        container := container + metaDataData.value;
      }
      container := container + data;
      assert metaDataData == MetaDataBytes(metaData);
      assert metaLength == Container.MetaLength(metaDataData);
      assert container == ToLe(headerLength, WORD_SIZE) + ToLe(metaLength, WORD_SIZE) + headerData
                          + Container.MetaBytes(metaDataData) + data;
      assert UnitContainer(Record(), data) == Some(container);
      cacheManager.SaveCache(container, fileName);
    }

    /** `expire()`: removes this unit's key, and that key's file, from the manager. */
    method Expire()
      requires cacheManager.Valid()
      modifies cacheManager
      ensures cacheManager.Valid()
      ensures cacheManager.State() == Remove(old(cacheManager.State()), cacheKey)
      ensures cacheManager.expiration == old(cacheManager.expiration)
      ensures cacheManager.maxDiskSpaceUsage == old(cacheManager.maxDiskSpaceUsage)
    {
      cacheManager.RemoveCache(cacheKey);
    }
  }

  class PersistentCacheManager {
    var cache: map<CacheKey, PersistentCacheUnit>
    /** The cache directory's files, by name. */
    var files: FileMap
    /** Default time-to-live, in seconds, for units created without one. */
    var expiration: int
    var maxDiskSpaceUsage: nat

    /** Every unit in the map belongs to this manager. */
    ghost predicate Valid()
      reads this
    {
      forall k :: k in cache ==> cache[k].cacheManager == this
    }

    ghost function State(): Store
      reads this
    {
      Store(Records(cache), files)
    }

    /** `init()`: factory defaults, then the units found in the cache directory. */
    constructor (files: FileMap, listing: Option<seq<string>>, now: int)
      ensures Valid()
      ensures expiration == DEFAULT_PERSISTENT_EXPIRATION && maxDiskSpaceUsage == DEFAULT_MAX_DISK_SPACE_USAGE
      ensures State() == Reload(Store(map[], files), listing)
      ensures forall k :: k in cache ==> fresh(cache[k])
    {
      var defaultConfig := PersistentDefaults();
      this.cache := map[];
      this.files := files;
      this.expiration := defaultConfig.expiration;
      this.maxDiskSpaceUsage := defaultConfig.maxDiskSpaceUsage;
      new;
      ReloadCache(listing, now);
    }

    /**
     * `reloadCache()`: decodes every listed file, keeps the first unit per
     * cache key, and merges them in below the units already present.
     * `listing` is the directory listing, `None` when it cannot be read.
     */
    method ReloadCache(listing: Option<seq<string>>, now: int)
      requires Valid()
      modifies this
      ensures Valid()
      ensures State() == Reload(old(State()), listing)
      ensures expiration == old(expiration) && maxDiskSpaceUsage == old(maxDiskSpaceUsage)
      ensures forall k :: k in cache ==> (k in old(cache) && cache[k] == old(cache)[k]) || fresh(cache[k])
    {
      if listing.None? {
        return;
      }
      var cachedFiles := listing.value;
      var diskCache: map<CacheKey, PersistentCacheUnit> := map[];
      var i := 0;
      while i < |cachedFiles|
        invariant 0 <= i <= |cachedFiles|
        invariant cache == old(cache) && files == old(files)
        invariant expiration == old(expiration) && maxDiskSpaceUsage == old(maxDiskSpaceUsage)
        invariant forall k :: k in diskCache ==> diskCache[k].cacheManager == this && fresh(diskCache[k])
        invariant Records(diskCache) == DiskIndex(files, cachedFiles[..i])
      {
        var unit := PersistentCacheUnit.InitWith(cachedFiles[i], this, now);
        assert cachedFiles[..i + 1][..i] == cachedFiles[..i];
        if unit != null && unit.cacheKey !in diskCache {
          RecordsUpdate(diskCache, unit.cacheKey, unit);
          diskCache := diskCache[unit.cacheKey := unit];
        }
        i := i + 1;
      }
      assert cachedFiles[..i] == cachedFiles;
      RecordsUnion(diskCache, cache);
      cache := diskCache + cache;
    }

    /** `removeCache(for:)`: deletes the unit's file and forgets the key; nothing when absent. */
    method RemoveCache(key: CacheKey)
      requires Valid()
      modifies this
      ensures Valid()
      ensures cache == old(cache) - {key}
      ensures files == if key in old(cache) then old(files) - {old(cache)[key].fileName} else old(files)
      ensures State() == Remove(old(State()), key)
      ensures expiration == old(expiration) && maxDiskSpaceUsage == old(maxDiskSpaceUsage)
    {
      if key in cache {
        var cacheUnit := cache[key];
        files := files - {cacheUnit.fileName};
        cache := cache - {key};
      }
    }

    /** The effect of `createCacheUnit(with:)`; the default lifetime is left alone. */
    twostate predicate CreatedFrom(config: CacheUnitConfig, now: int, uuid: string)
      reads this
    {
      && State() == Create(old(State()), config, now, uuid, old(expiration))
      && expiration == old(expiration) && maxDiskSpaceUsage == old(maxDiskSpaceUsage)
    }

    /**
     * `createCacheUnit(with:)`: expires the unit already under the key, builds
     * the new unit (writing its file) and installs it if construction
     * succeeded.  `uuid` is the identifier a unit built from bytes or a file
     * receives.
     */
    method CreateCacheUnit(config: CacheUnitConfig, now: int, uuid: string)
      requires Valid()
      modifies this
      ensures Valid()
      ensures CreatedFrom(config, now, uuid)
    {
      if !config.Persistent? {
        return;
      }
      ghost var s0 := State();
      var cacheKey := config.cacheKey;
      if cacheKey in cache {
        cache[cacheKey].Expire();
      }
      ghost var s1 := State();
      assert s1 == ExpirePrior(s0, cacheKey);
      var cacheUnit := BuildUnit(config, now, uuid);
      if cacheUnit != null {
        RecordsUpdate(cache, cacheKey, cacheUnit);
        cache := cache[cacheKey := cacheUnit];
      }
    }

    /** The construction step of `createCacheUnit(with:)`, by kind of data source. */
    method BuildUnit(config: CacheUnitConfig, now: int, uuid: string) returns (cacheUnit: PersistentCacheUnit?)
      requires Valid() && config.Persistent?
      modifies this
      ensures Valid() && cache == old(cache)
      ensures expiration == old(expiration) && maxDiskSpaceUsage == old(maxDiskSpaceUsage)
      ensures var built := Build(old(files), config, now, uuid, expiration);
        && files == built.1
        && (cacheUnit == null <==> built.0.None?)
        && (cacheUnit != null ==> fresh(cacheUnit) && cacheUnit.cacheManager == this
                                  && cacheUnit.Record() == built.0.value
                                  && cacheUnit.cacheId == cacheUnit.fileName
                                  && cacheUnit.timerInterval == TimerInterval(cacheUnit.expiration, now))
    {
      if config.dataType.AlreadyStoredFile? {
        cacheUnit := PersistentCacheUnit.InitWith(config.dataType.fileName, this, now);
      } else {
        cacheUnit := PersistentCacheUnit.Init(config.cacheKey, this, now + config.expiration.GetOr(expiration),
                                              config.dataType, config.metaData, now, uuid);
      }
    }

    /** `cacheUnit(for:)`: the unit under the key, if any; nothing changes. */
    method CacheUnit(cacheKey: CacheKey) returns (unit: PersistentCacheUnit?)
      ensures unit != null <==> cacheKey in cache
      ensures unit != null ==> unit == cache[cacheKey]
    {
      unit := if cacheKey in cache then cache[cacheKey] else null;
    }

    /** `saveCache(with:fileName:)`: writes a file into the cache directory. */
    method SaveCache(data: seq<byte>, fileName: string)
      requires Valid()
      modifies this
      ensures Valid()
      ensures files == old(files)[fileName := data] && cache == old(cache)
      ensures expiration == old(expiration) && maxDiskSpaceUsage == old(maxDiskSpaceUsage)
    {
      files := files[fileName := data];
    }

    /** `data(for:with:)`: one sector of a file in the cache directory. */
    method DataFor(sector: Container.Sector, fileName: string) returns (r: Option<seq<byte>>)
      ensures r == ReadSector(files, fileName, sector)
      ensures fileName !in files || |files[fileName]| <= 2 ==> r.None?
    {
      var container := ReadFile(files, fileName);
      r := Container.Decode(container, sector);
    }

    /** `purgeCache()`: removes every key present when it starts, one at a time. */
    method PurgeCache()
      requires Valid()
      modifies this
      ensures Valid()
      ensures State() == Purge(old(State()))
      ensures expiration == old(expiration) && maxDiskSpaceUsage == old(maxDiskSpaceUsage)
    {
      var keys := cache.Keys;
      while keys != {}
        invariant Valid()
        invariant keys <= old(cache).Keys
        invariant cache == map k | k in keys :: old(cache)[k]
        invariant files == old(files) - FileNames(Records(old(cache)) - keys)
        invariant expiration == old(expiration) && maxDiskSpaceUsage == old(maxDiskSpaceUsage)
        decreases keys
      {
        var cacheKey :| cacheKey in keys;
        ghost var before := Records(old(cache)) - keys;
        RemoveCache(cacheKey);
        keys := keys - {cacheKey};
        assert Records(old(cache)) - keys == before[cacheKey := old(cache)[cacheKey].Record()];
        FileNamesInsert(before, cacheKey, old(cache)[cacheKey].Record());
      }
      assert Records(old(cache)) - keys == Records(old(cache));
    }

    /** `setDefault(config:)`: a persistent config replaces both defaults; any other is ignored. */
    method SetDefault(config: CacheDefaultConfig)
      modifies this
      ensures config.PersistentDefault? ==>
        expiration == config.expiration && maxDiskSpaceUsage == config.maxDiskSpaceUsage
      ensures !config.PersistentDefault? ==>
        expiration == old(expiration) && maxDiskSpaceUsage == old(maxDiskSpaceUsage)
      ensures cache == old(cache) && files == old(files)
    {
      if config.PersistentDefault? {
        expiration := config.expiration;
        maxDiskSpaceUsage := config.maxDiskSpaceUsage;
      }
    }
  }
}
