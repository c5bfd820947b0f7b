/**
 * The public entry point: one manager per tier, and every request routed to
 * the manager of the tier it names.  Each method states what happens to the
 * addressed tier and that the other tier is left exactly as it was.
 */
module Controller {
  import opened Wrappers
  import opened CacheKit
  import PersistentCacheSpec
  import opened PersistentCache
  import opened TransientCache

  /** The outcome of `cacheUnit(for:)`: a unit of the requested tier, or nothing. */
  datatype FetchedUnit =
    | NotFound
    | TransientUnit(transientUnit: TransientCacheUnit)
    | PersistentUnit(persistentUnit: PersistentCacheUnit)

  class CacheController {
    const transientCacheManager: TransientCacheManager
    const persistentCacheManager: PersistentCacheManager

    ghost predicate Valid()
      reads this, transientCacheManager, persistentCacheManager
    {
      transientCacheManager.Valid() && persistentCacheManager.Valid()
    }

    /**
     * Both managers, built with their factory defaults; the persistent one
     * rehydrates from `files` and the directory `listing`.
     */
    constructor (files: PersistentCacheSpec.FileMap, listing: Option<seq<string>>, now: int)
      ensures Valid() && fresh(transientCacheManager) && fresh(persistentCacheManager)
      ensures transientCacheManager.Contents() == map[]
      ensures transientCacheManager.expiration == DEFAULT_TRANSIENT_EXPIRATION
      ensures persistentCacheManager.State() == PersistentCacheSpec.Reload(PersistentCacheSpec.Store(map[], files), listing)
      ensures persistentCacheManager.expiration == DEFAULT_PERSISTENT_EXPIRATION
      ensures persistentCacheManager.maxDiskSpaceUsage == DEFAULT_MAX_DISK_SPACE_USAGE
    {
      transientCacheManager := new TransientCacheManager();
      persistentCacheManager := new PersistentCacheManager(files, listing, now);
    }

    /** `createCacheUnit(with:)`: the config's own tier creates the unit; the other tier does not change. */
    method CreateCacheUnit(config: CacheUnitConfig, now: int, uuid: string)
      requires Valid()
      modifies transientCacheManager, persistentCacheManager
      ensures Valid()
      ensures config.Transient? ==> transientCacheManager.CreatedFrom(config, now) && unchanged(persistentCacheManager)
      ensures config.Persistent? ==> persistentCacheManager.CreatedFrom(config, now, uuid) && unchanged(transientCacheManager)
    {
      match config
      case Transient(_, _, _, _) =>
        transientCacheManager.CreateCacheUnit(config, now);
      case Persistent(_, _, _, _) =>
        persistentCacheManager.CreateCacheUnit(config, now, uuid);
    }

    /** `cacheUnit(for:)`: looks the key up in the requested tier only; nothing changes. */
    method CacheUnit(cacheType: CacheType, key: CacheKey) returns (r: FetchedUnit)
      requires Valid()
      ensures cacheType == TransientType ==>
        if key in transientCacheManager.cache then r == TransientUnit(transientCacheManager.cache[key]) else r == NotFound
      ensures cacheType == PersistentType ==>
        if key in persistentCacheManager.cache then r == PersistentUnit(persistentCacheManager.cache[key]) else r == NotFound
    {
      match cacheType
      case TransientType =>
        var unit := transientCacheManager.CacheUnit(key);
        r := if unit == null then NotFound else TransientUnit(unit);
      case PersistentType =>
        var unit := persistentCacheManager.CacheUnit(key);
        r := if unit == null then NotFound else PersistentUnit(unit);
    }

    /** `removeCache(with:for:)`: removes the key from the named tier only. */
    method RemoveCache(cacheType: CacheType, key: CacheKey)
      requires Valid()
      modifies transientCacheManager, persistentCacheManager
      ensures Valid()
      ensures cacheType == TransientType ==>
        && transientCacheManager.Contents() == TransientCache.Remove(old(transientCacheManager.Contents()), key)
        && transientCacheManager.expiration == old(transientCacheManager.expiration)
        && unchanged(persistentCacheManager)
      ensures cacheType == PersistentType ==>
        && persistentCacheManager.State() == PersistentCacheSpec.Remove(old(persistentCacheManager.State()), key)
        && persistentCacheManager.expiration == old(persistentCacheManager.expiration)
        && persistentCacheManager.maxDiskSpaceUsage == old(persistentCacheManager.maxDiskSpaceUsage)
        && unchanged(transientCacheManager)
    {
      match cacheType
      case TransientType =>
        transientCacheManager.RemoveCache(key);
      case PersistentType =>
        persistentCacheManager.RemoveCache(key);
    }

    /** `purgeCache(with:)`: empties the named tier only. */
    method PurgeCache(cacheType: CacheType)
      requires Valid()
      modifies transientCacheManager, persistentCacheManager
      ensures Valid()
      ensures cacheType == TransientType ==>
        && transientCacheManager.Contents() == map[]
        && transientCacheManager.expiration == old(transientCacheManager.expiration)
        && unchanged(persistentCacheManager)
      ensures cacheType == PersistentType ==>
        && persistentCacheManager.State() == PersistentCacheSpec.Purge(old(persistentCacheManager.State()))
        && persistentCacheManager.expiration == old(persistentCacheManager.expiration)
        && persistentCacheManager.maxDiskSpaceUsage == old(persistentCacheManager.maxDiskSpaceUsage)
        && unchanged(transientCacheManager)
    {
      match cacheType
      case TransientType =>
        transientCacheManager.PurgeCache();
      case PersistentType =>
        persistentCacheManager.PurgeCache();
    }

    /**
     * `setDefault(config:with:)`: hands the config to the named tier, which
     * ignores a config of the other tier.  Units and files never change.
     */
    method SetDefault(config: CacheDefaultConfig, cacheType: CacheType)
      requires Valid()
      modifies transientCacheManager, persistentCacheManager
      ensures Valid()
      ensures transientCacheManager.cache == old(transientCacheManager.cache)
      ensures persistentCacheManager.cache == old(persistentCacheManager.cache)
      ensures persistentCacheManager.files == old(persistentCacheManager.files)
      ensures transientCacheManager.expiration ==
        if cacheType == TransientType && config.TransientDefault? then config.expiration
        else old(transientCacheManager.expiration)
      ensures cacheType == PersistentType && config.PersistentDefault? ==>
        && persistentCacheManager.expiration == config.expiration
        && persistentCacheManager.maxDiskSpaceUsage == config.maxDiskSpaceUsage
      ensures !(cacheType == PersistentType && config.PersistentDefault?) ==>
        && persistentCacheManager.expiration == old(persistentCacheManager.expiration)
        && persistentCacheManager.maxDiskSpaceUsage == old(persistentCacheManager.maxDiskSpaceUsage)
    {
      match cacheType
      case TransientType =>
        transientCacheManager.SetDefault(config);
      case PersistentType =>
        persistentCacheManager.SetDefault(config);
    }

    /**
     * `resetAllSettings()`: purges both tiers, deleting the files of the
     * persistent units, and restores the factory defaults.
     */
    method ResetAllSettings()
      requires Valid()
      modifies transientCacheManager, persistentCacheManager
      ensures Valid()
      ensures transientCacheManager.Contents() == map[]
      ensures persistentCacheManager.State() == PersistentCacheSpec.Purge(old(persistentCacheManager.State()))
      ensures transientCacheManager.expiration == DEFAULT_TRANSIENT_EXPIRATION
      ensures persistentCacheManager.expiration == DEFAULT_PERSISTENT_EXPIRATION
      ensures persistentCacheManager.maxDiskSpaceUsage == DEFAULT_MAX_DISK_SPACE_USAGE
    {
      transientCacheManager.PurgeCache();
      persistentCacheManager.PurgeCache();
      var transientConfig := TransientDefaults();
      transientCacheManager.SetDefault(transientConfig);
      var persistentConfig := PersistentDefaults();
      persistentCacheManager.SetDefault(persistentConfig);
    }
  }

  /** `CacheUnitConfig.cache(cacheController:)`: the controller's `createCacheUnit(with:)`. */
  method Cache(config: CacheUnitConfig, cacheController: CacheController, now: int, uuid: string)
    requires cacheController.Valid()
    modifies cacheController.transientCacheManager, cacheController.persistentCacheManager
    ensures cacheController.Valid()
    ensures config.Transient? ==>
      cacheController.transientCacheManager.CreatedFrom(config, now) && unchanged(cacheController.persistentCacheManager)
    ensures config.Persistent? ==>
      cacheController.persistentCacheManager.CreatedFrom(config, now, uuid) && unchanged(cacheController.transientCacheManager)
  {
    cacheController.CreateCacheUnit(config, now, uuid);
  }
}
