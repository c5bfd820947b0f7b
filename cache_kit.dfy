/** The public configuration types: tiers, creation requests and per-tier defaults. */
module CacheKit {
  import opened Wrappers
  import opened Bytes
  import opened Serialization

  type CacheKey = string
  type CacheId = string

  /** Caller-supplied metadata; present only if the caller gave some. */
  type MetaData = Option<Object>

  /** The two tiers. */
  datatype CacheType = TransientType | PersistentType

  /**
   * Where a persistent unit's payload comes from.  `File` carries the outcome
   * of reading the file it names (`None` when that read fails), since reading
   * an arbitrary URL is outside the model.
   */
  datatype PersistentCacheDataType =
    | Data(data: seq<byte>)
    | File(read: Option<seq<byte>>)
    | AlreadyStoredFile(fileName: string)

  /** A creation request; `expiration` is a time-to-live in seconds. */
  datatype CacheUnitConfig =
    | Transient(cacheKey: CacheKey, expiration: Option<int>, data: seq<byte>, metaData: MetaData)
    | Persistent(cacheKey: CacheKey, expiration: Option<int>, dataType: PersistentCacheDataType, metaData: MetaData)

  /** Per-tier defaults; `maxDiskSpaceUsage` is recorded but never enforced. */
  datatype CacheDefaultConfig =
    | TransientDefault(expiration: int)
    | PersistentDefault(expiration: int, maxDiskSpaceUsage: nat)

  const DEFAULT_TRANSIENT_EXPIRATION: int := 30
  const DEFAULT_PERSISTENT_EXPIRATION: int := 60 * 60
  const DEFAULT_MAX_DISK_SPACE_USAGE: nat := 200

  /** `CacheDefaultConfig.transient()`, every argument left at its default. */
  function TransientDefaults(): (r: CacheDefaultConfig)
    ensures r.TransientDefault? && r.expiration == 30
  {
    TransientDefault(DEFAULT_TRANSIENT_EXPIRATION)
  }

  /** `CacheDefaultConfig.persistent()`, every argument left at its default. */
  function PersistentDefaults(): (r: CacheDefaultConfig)
    ensures r.PersistentDefault? && r.expiration == 3600 && r.maxDiskSpaceUsage == 200
  {
    PersistentDefault(DEFAULT_PERSISTENT_EXPIRATION, DEFAULT_MAX_DISK_SPACE_USAGE)
  }

  /** `CacheUnitConfig.transient(cacheKey:data:)`: no explicit lifetime, no metadata. */
  function TransientConfig(cacheKey: CacheKey, data: seq<byte>): (r: CacheUnitConfig)
    ensures r.Transient? && r.cacheKey == cacheKey && r.data == data
    ensures r.expiration.None? && r.metaData.None?
  {
    Transient(cacheKey, None, data, None)
  }

  /** `CacheUnitConfig.persistent(cacheKey:dataType:)`: no explicit lifetime, no metadata. */
  function PersistentConfig(cacheKey: CacheKey, dataType: PersistentCacheDataType): (r: CacheUnitConfig)
    ensures r.Persistent? && r.cacheKey == cacheKey && r.dataType == dataType
    ensures r.expiration.None? && r.metaData.None?
  {
    Persistent(cacheKey, None, dataType, None)
  }
}
