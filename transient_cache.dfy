/**
 * The transient tier: an in-memory key-to-unit map.  A unit fixes its key,
 * payload, metadata and expiration instant when it is built; its manager holds
 * the map and the default lifetime.  The manager's methods are proved to take
 * `Contents()` to the value the functions below give, and the lemmas state
 * what those functions promise.
 */
module TransientCache {
  import opened Wrappers
  import opened Bytes
  import opened CacheKit

  /** A transient unit as a value. */
  datatype Item = Item(cacheKey: CacheKey, data: seq<byte>, metaData: MetaData, expiration: int)

  type Table = map<CacheKey, Item>

  /** Every item is filed under its own key. */
  predicate Keyed(t: Table)
  {
    forall k :: k in t ==> t[k].cacheKey == k
  }

  /** The item `createCacheUnit(with:)` builds from a transient config. */
  function NewItem(config: CacheUnitConfig, now: int, defaultExpiration: int): Item
    requires config.Transient?
  {
    Item(config.cacheKey, config.data, config.metaData, now + config.expiration.GetOr(defaultExpiration))
  }

  /** `createCacheUnit(with:)` on values: a transient config is filed under its key; any other is ignored. */
  function Create(t: Table, config: CacheUnitConfig, now: int, defaultExpiration: int): Table
  {
    if config.Transient? then t[config.cacheKey := NewItem(config, now, defaultExpiration)] else t
  }

  /** `removeCache(for:)` on values. */
  function Remove(t: Table, k: CacheKey): Table
  {
    t - {k}
  }

  /** A fetch after a create returns the supplied payload, metadata and lifetime; no other key moves. */
  lemma CreateThenFetch(t: Table, config: CacheUnitConfig, now: int, defaultExpiration: int)
    requires config.Transient?
    ensures var r := Create(t, config, now, defaultExpiration);
      && config.cacheKey in r
      && r[config.cacheKey].data == config.data
      && r[config.cacheKey].metaData == config.metaData
      && r[config.cacheKey].expiration == now + config.expiration.GetOr(defaultExpiration)
      && forall k :: k != config.cacheKey ==> (k in r <==> k in t) && (k in t ==> r[k] == t[k])
  {
  }

  /** Without an explicit lifetime the manager's default applies. */
  lemma DefaultLifetime(t: Table, cacheKey: CacheKey, data: seq<byte>, now: int, defaultExpiration: int)
    ensures Create(t, TransientConfig(cacheKey, data), now, defaultExpiration)[cacheKey].expiration
            == now + defaultExpiration
    ensures Create(t, TransientConfig(cacheKey, data), now, defaultExpiration)[cacheKey].metaData.None?
  {
  }

  /** A persistent config leaves the transient table alone. */
  lemma CreateWrongTier(t: Table, config: CacheUnitConfig, now: int, defaultExpiration: int)
    requires config.Persistent?
    ensures Create(t, config, now, defaultExpiration) == t
  {
  }

  /** Removal erases exactly the key, and a second removal changes nothing. */
  lemma RemoveProperties(t: Table, k: CacheKey)
    ensures k !in Remove(t, k)
    ensures forall j :: j != k ==> (j in Remove(t, k) <==> j in t) && (j in t ==> Remove(t, k)[j] == t[j])
    ensures Remove(Remove(t, k), k) == Remove(t, k)
  {
  }

  /** Creating and removing keep every item under its own key. */
  lemma KeyedPreserved(t: Table, config: CacheUnitConfig, now: int, defaultExpiration: int, k: CacheKey)
    requires Keyed(t)
    ensures Keyed(Create(t, config, now, defaultExpiration))
    ensures Keyed(Remove(t, k))
  {
  }

  /** What each unit of `m` holds. */
  ghost function Items(m: map<CacheKey, TransientCacheUnit>): Table
  {
    map k | k in m :: m[k].Record()
  }

  class TransientCacheUnit {
    const cacheKey: CacheKey
    const data: seq<byte>
    const metaData: MetaData
    const cacheManager: TransientCacheManager
    const expiration: int
    /** The interval, in seconds, that the one-shot expiration timer is armed with. */
    const timerInterval: int

    /** The unit as a value. */
    function Record(): Item
    {
      Item(cacheKey, data, metaData, expiration)
    }

    /** `init(cacheKey:cacheManager:expiration:data:metaData:)`, timer included. */
    constructor (cacheKey: CacheKey, cacheManager: TransientCacheManager, expiration: int, data: seq<byte>,
                 metaData: MetaData, now: int)
      ensures this.cacheKey == cacheKey && this.cacheManager == cacheManager
      ensures this.expiration == expiration && this.data == data && this.metaData == metaData
      ensures timerInterval == expiration - now
    {
      this.cacheKey := cacheKey;
      this.cacheManager := cacheManager;
      this.expiration := expiration;
      this.data := data;
      this.metaData := metaData;
      this.timerInterval := expiration - now;
    }

    /** `expired`: the expiration instant lies in the past. */
    predicate Expired(now: int)
    {
      now > expiration
    }

    /** `expire()`: removes this unit's key from its manager. */
    method Expire()
      requires cacheManager.Valid()
      modifies cacheManager
      ensures cacheManager.Valid()
      ensures cacheManager.Contents() == Remove(old(cacheManager.Contents()), cacheKey)
      ensures cacheManager.expiration == old(cacheManager.expiration)
    {
      cacheManager.RemoveCache(cacheKey);
    }
  }

  class TransientCacheManager {
    var cache: map<CacheKey, TransientCacheUnit>
    /** Default time-to-live, in seconds, for units created without one. */
    var expiration: int

    /** Every unit in the map belongs to this manager and is filed under its own key. */
    ghost predicate Valid()
      reads this
    {
      forall k :: k in cache ==> cache[k].cacheManager == this && cache[k].cacheKey == k
    }

    ghost function Contents(): Table
      reads this
    {
      Items(cache)
    }

    /** `init()`: an empty map and the factory default lifetime. */
    constructor ()
      ensures Valid() && Contents() == map[]
      ensures expiration == DEFAULT_TRANSIENT_EXPIRATION
    {
      var defaultConfig := TransientDefaults();
      cache := map[];
      expiration := defaultConfig.expiration;
    }

    /** `removeCache(for:)`: forgets the key; nothing when absent. */
    method RemoveCache(key: CacheKey)
      requires Valid()
      modifies this
      ensures Valid()
      ensures cache == old(cache) - {key}
      ensures Contents() == Remove(old(Contents()), key)
      ensures expiration == old(expiration)
    {
      cache := cache - {key};
    }

    /** The effect of `createCacheUnit(with:)`; the default lifetime is left alone. */
    twostate predicate CreatedFrom(config: CacheUnitConfig, now: int)
      reads this
    {
      && Contents() == Create(old(Contents()), config, now, old(expiration))
      && expiration == old(expiration)
    }

    /**
     * `createCacheUnit(with:)`: builds a unit expiring `now` plus the explicit
     * or default lifetime and files it under its key, replacing any unit there.
     */
    method CreateCacheUnit(config: CacheUnitConfig, now: int)
      requires Valid()
      modifies this
      ensures Valid()
      ensures CreatedFrom(config, now)
      ensures config.Transient? ==>
        && config.cacheKey in cache && fresh(cache[config.cacheKey])
        && cache[config.cacheKey].timerInterval == config.expiration.GetOr(expiration)
    {
      if !config.Transient? {
        return;
      }
      var cacheKey := config.cacheKey;
      var cacheUnit := new TransientCacheUnit(cacheKey, this, now + config.expiration.GetOr(expiration),
                                              config.data, config.metaData, now);
      cache := cache[cacheKey := cacheUnit];
    }

    /** `cacheUnit(for:)`: the unit under the key, if any; nothing changes. */
    method CacheUnit(cacheKey: CacheKey) returns (unit: TransientCacheUnit?)
      requires Valid()
      ensures unit != null <==> cacheKey in Contents()
      ensures unit != null ==> unit == cache[cacheKey] && unit.Record() == Contents()[cacheKey]
      ensures unit != null ==> unit.cacheKey == cacheKey
    {
      unit := if cacheKey in cache then cache[cacheKey] else null;
    }

    /** `purgeCache()`: removes every key present when it starts, one at a time. */
    method PurgeCache()
      requires Valid()
      modifies this
      ensures Valid()
      ensures cache == map[] && Contents() == map[]
      ensures expiration == old(expiration)
    {
      var keys := cache.Keys;
      while keys != {}
        invariant Valid()
        invariant cache.Keys == keys
        invariant expiration == old(expiration)
        decreases keys
      {
        var cacheKey :| cacheKey in keys;
        RemoveCache(cacheKey);
        keys := keys - {cacheKey};
      }
    }

    /** `setDefault(config:)`: a transient config replaces the default lifetime; any other is ignored. */
    method SetDefault(config: CacheDefaultConfig)
      modifies this
      ensures expiration == if config.TransientDefault? then config.expiration else old(expiration)
      ensures cache == old(cache)
    {
      if config.TransientDefault? {
        expiration := config.expiration;
      }
    }
  }
}
