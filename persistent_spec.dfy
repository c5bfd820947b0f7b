/**
 * The persistent tier as values: what each unit records, the container it
 * writes, how a file is decoded back into a unit, and what every manager
 * operation does to the entry map and the cache directory.  The classes in
 * module PersistentCache are proved against these functions.
 */
module PersistentCacheSpec {
  import opened Wrappers
  import opened Bytes
  import opened Serialization
  import Container
  import opened CacheKit

  /** The cache directory: file name to contents. */
  type FileMap = map<string, seq<byte>>

  // Header member names and the library version written into every header.
  const CACHE_KEY_KEY: string := "_cacheKey"
  const EXPIRATION_KEY: string := "_expiration"
  const FILE_NAME_KEY: string := "_fileName"
  const VERSION_KEY: string := "_version"
  const VERSION: string := "1.0"

  /** What a persistent unit records; its `cacheId` always equals `fileName`. */
  datatype Entry = Entry(cacheKey: CacheKey, fileName: string, expiration: int, metaData: MetaData)

  /** A manager's entry map together with the cache directory. */
  datatype Store = Store(index: map<CacheKey, Entry>, files: FileMap)

  function HeaderObject(e: Entry): Object
  {
    [ (FILE_NAME_KEY, e.fileName),
      (CACHE_KEY_KEY, e.cacheKey),
      (EXPIRATION_KEY, ShowInt(e.expiration)),
      (VERSION_KEY, VERSION) ]
  }

  function MetaDataBytes(metaData: MetaData): Option<seq<byte>>
  {
    if metaData.Some? then Some(EncodeObject(metaData.value)) else None
  }

  /** The container a unit's `saveCache` builds for `data`, if the size guard lets it. */
  function UnitContainer(e: Entry, data: seq<byte>): Option<seq<byte>>
  {
    Container.Encode(EncodeObject(HeaderObject(e)), MetaDataBytes(e.metaData), data)
  }

  /** The directory after a unit's `saveCache`: its file written, or nothing when the guard refuses. */
  function SaveFile(files: FileMap, e: Entry, data: seq<byte>): FileMap
  {
    match UnitContainer(e, data)
    case Some(c) => files[e.fileName := c]
    case None => files
  }

  function ReadFile(files: FileMap, name: string): Option<seq<byte>>
  {
    if name in files then Some(files[name]) else None
  }

  /** `data(for:with:)`: one sector of the named file. */
  function ReadSector(files: FileMap, name: string, sector: Container.Sector): Option<seq<byte>>
  {
    Container.Decode(ReadFile(files, name), sector)
  }

  /** A unit's `data`: the payload sector, or no bytes when there is none. */
  function Payload(files: FileMap, name: string): seq<byte>
  {
    ReadSector(files, name, Container.CachedData).GetOr([])
  }

  /** The cache key and expiration of a file's header, if it has a well-formed one. */
  function DecodeHeader(files: FileMap, name: string): Option<(CacheKey, int)>
  {
    match ReadSector(files, name, Container.Header)
    case None => None
    case Some(headerData) =>
      match DecodeObject(headerData)
      case None => None
      case Some(header) =>
        match Lookup(header, CACHE_KEY_KEY)
        case None => None
        case Some(cacheKey) =>
          match Lookup(header, EXPIRATION_KEY)
          case None => None
          case Some(expirationStr) =>
            match ParseInt(expirationStr)
            case None => None
            case Some(expiration) => Some((cacheKey, expiration))
  }

  /** A file's metadata: absent when the sector is missing or does not parse. */
  function DecodeMetaData(files: FileMap, name: string): MetaData
  {
    match ReadSector(files, name, Container.MetaData)
    case None => None
    case Some(b) => DecodeObject(b)
  }

  /** `init?(with:cacheManager:)`: rebuilds a unit from the file `name`, reusing it as file name. */
  function DecodeEntry(files: FileMap, name: string): (r: Option<Entry>)
    ensures r.Some? <==> DecodeHeader(files, name).Some?
    ensures r.Some? ==>
      && r.value.fileName == name
      && r.value.cacheKey == DecodeHeader(files, name).value.0
      && r.value.expiration == DecodeHeader(files, name).value.1
      && r.value.metaData == DecodeMetaData(files, name)
  {
    match DecodeHeader(files, name)
    case None => None
    case Some((cacheKey, expiration)) => Some(Entry(cacheKey, name, expiration, DecodeMetaData(files, name)))
  }

  /**
   * The designated `init?`: the unit it builds (or `None`) and the directory
   * afterwards.  `uuid` is the fresh identifier the initializer would draw.
   */
  function Construct(files: FileMap, cacheKey: CacheKey, expiration: int, dataType: PersistentCacheDataType,
                     metaData: MetaData, uuid: string): (r: (Option<Entry>, FileMap))
    ensures r.0.Some? ==> r.0.value.cacheKey == cacheKey && r.0.value.expiration == expiration
                          && r.0.value.metaData == metaData
    ensures r.0.None? <==> dataType.File? && dataType.read.None?
    ensures dataType.AlreadyStoredFile? ==> r.0.value.fileName == dataType.fileName && r.1 == files
    ensures !dataType.AlreadyStoredFile? && r.0.Some? ==> r.0.value.fileName == uuid
    ensures r.1 == files || (r.0.Some? && r.0.value.fileName in r.1
                             && r.1 == files[r.0.value.fileName := r.1[r.0.value.fileName]])
  {
    match dataType
    case Data(data) =>
      var e := Entry(cacheKey, uuid, expiration, metaData);
      (Some(e), SaveFile(files, e, data))
    case File(read) =>
      if read.None? then (None, files)
      else
        var e := Entry(cacheKey, uuid, expiration, metaData);
        (Some(e), SaveFile(files, e, read.value))
    case AlreadyStoredFile(fileName) =>
      (Some(Entry(cacheKey, fileName, expiration, metaData)), files)
  }

  /** The persistent timer's interval: the time left, but never less than one second. */
  function TimerInterval(expiration: int, now: int): (r: int)
    ensures r >= 1 && r >= expiration - now
    ensures r == 1 || r == expiration - now
  {
    if expiration - now > 1 then expiration - now else 1
  }

  /** `removeCache(for:)`: delete the unit's file and forget the key; nothing when absent. */
  function Remove(s: Store, k: CacheKey): Store
  {
    if k in s.index then Store(s.index - {k}, s.files - {s.index[k].fileName}) else s
  }

  function FileNames(index: map<CacheKey, Entry>): set<string>
  {
    set k | k in index :: index[k].fileName
  }

  /** `purgeCache`: every present key removed, with its file. */
  function Purge(s: Store): Store
  {
    Store(map[], s.files - FileNames(s.index))
  }

  /** The store after the prior unit for `cacheKey`, if any, has expired. */
  function ExpirePrior(s: Store, cacheKey: CacheKey): Store
  {
    if cacheKey in s.index then Remove(s, s.index[cacheKey].cacheKey) else s
  }

  /** Every unit is filed under its own cache key. */
  predicate KeysConsistent(s: Store)
  {
    forall k :: k in s.index ==> s.index[k].cacheKey == k
  }

  /** The unit a persistent request builds (or `None`), and the directory afterwards. */
  function Build(files: FileMap, config: CacheUnitConfig, now: int, uuid: string, defaultExpiration: int)
    : (Option<Entry>, FileMap)
    requires config.Persistent?
  {
    if config.dataType.AlreadyStoredFile? then (DecodeEntry(files, config.dataType.fileName), files)
    else Construct(files, config.cacheKey, now + config.expiration.GetOr(defaultExpiration),
                   config.dataType, config.metaData, uuid)
  }

  /**
   * `createCacheUnit(with:)`: a prior unit for the key is expired (which removes
   * the prior unit's own cache key), the new unit is built, and it is
   * installed under the request's key if construction succeeded.  A request
   * for the other tier changes nothing.
   */
  function Create(s: Store, config: CacheUnitConfig, now: int, uuid: string, defaultExpiration: int): Store
  {
    if !config.Persistent? then s
    else
      var s1 := ExpirePrior(s, config.cacheKey);
      var built := Build(s1.files, config, now, uuid, defaultExpiration);
      Store(if built.0.Some? then s1.index[config.cacheKey := built.0.value] else s1.index, built.1)
  }

  /**
   * The units `reloadCache` decodes from a directory listing: undecodable
   * files are skipped, and of several files with one cache key the first
   * listed wins.
   */
  function DiskIndex(files: FileMap, listing: seq<string>): map<CacheKey, Entry>
    decreases |listing|
  {
    if listing == [] then map[]
    else
      var earlier := DiskIndex(files, listing[..|listing| - 1]);
      match DecodeEntry(files, listing[|listing| - 1])
      case None => earlier
      case Some(e) => if e.cacheKey in earlier then earlier else earlier[e.cacheKey := e]
  }

  /** `reloadCache`: decoded units merged in, units already in memory kept. */
  function Reload(s: Store, listing: Option<seq<string>>): Store
  {
    if listing.None? then s else Store(DiskIndex(s.files, listing.value) + s.index, s.files)
  }

  // ---------------------------------------------------------------------------
  // Properties

  /** Lookup of the header's two required members. */
  lemma HeaderLookups(e: Entry)
    ensures Lookup(HeaderObject(e), CACHE_KEY_KEY) == Some(e.cacheKey)
    ensures Lookup(HeaderObject(e), EXPIRATION_KEY) == Some(ShowInt(e.expiration))
  {
    var o := HeaderObject(e);
    assert FILE_NAME_KEY[1] != CACHE_KEY_KEY[1];
    assert FILE_NAME_KEY[1] != EXPIRATION_KEY[1] && CACHE_KEY_KEY[1] != EXPIRATION_KEY[1];
    assert o[1..][1..] == [(EXPIRATION_KEY, ShowInt(e.expiration)), (VERSION_KEY, VERSION)];
    assert Lookup(o, EXPIRATION_KEY) == Lookup(o[1..], EXPIRATION_KEY) == Lookup(o[1..][1..], EXPIRATION_KEY);
  }

  /**
   * A file written by `saveCache` decodes to the unit that wrote it (key,
   * expiration, metadata, file name), and its payload sector is the payload.
   */
  lemma WrittenFileDecodes(files: FileMap, e: Entry, data: seq<byte>)
    requires UnitContainer(e, data).Some?
    ensures DecodeEntry(SaveFile(files, e, data), e.fileName) == Some(e)
    ensures Payload(SaveFile(files, e, data), e.fileName) == data
  {
    var header := EncodeObject(HeaderObject(e));
    var meta := MetaDataBytes(e.metaData);
    var f := SaveFile(files, e, data);
    assert ReadFile(f, e.fileName) == UnitContainer(e, data);
    Container.DecodeEncode(header, meta, data);
    ObjectRoundTrip(HeaderObject(e));
    HeaderLookups(e);
    IntRoundTrip(e.expiration);
    assert DecodeHeader(f, e.fileName) == Some((e.cacheKey, e.expiration));
    if e.metaData.Some? {
      ObjectRoundTrip(e.metaData.value);
    }
    assert DecodeMetaData(f, e.fileName) == e.metaData;
  }

  /** Removing twice is removing once. */
  lemma RemoveIdempotent(s: Store, k: CacheKey)
    ensures Remove(Remove(s, k), k) == Remove(s, k)
    ensures k !in Remove(s, k).index
  {
  }

  /** Removal touches only the key and its unit's file. */
  lemma RemoveFrame(s: Store, k: CacheKey)
    ensures forall k' :: k' != k ==> (k' in Remove(s, k).index <==> k' in s.index)
    ensures forall k' :: k' != k && k' in s.index ==> Remove(s, k).index[k'] == s.index[k']
    ensures k in s.index ==> Remove(s, k).files == s.files - {s.index[k].fileName}
    ensures k !in s.index ==> Remove(s, k) == s
  {
  }

  lemma FileNamesInsert(m: map<CacheKey, Entry>, k: CacheKey, e: Entry)
    requires k !in m
    ensures FileNames(m[k := e]) == FileNames(m) + {e.fileName}
  {
    var m' := m[k := e];
    forall n | n in FileNames(m') ensures n in FileNames(m) + {e.fileName} {
      var j :| j in m' && m'[j].fileName == n;
      if j != k {
        assert j in m && m[j].fileName == n;
      }
    }
    forall n | n in FileNames(m) + {e.fileName} ensures n in FileNames(m') {
      if n == e.fileName {
        assert m'[k].fileName == n;
      } else {
        var j :| j in m && m[j].fileName == n;
        assert m'[j] == m[j];
      }
    }
  }

  /** After a purge no key is left and no file of a purged unit remains; other files stay. */
  lemma PurgeClears(s: Store)
    ensures Purge(s).index == map[]
    ensures forall k :: k in s.index ==> s.index[k].fileName !in Purge(s).files
    ensures forall n :: n in s.files && n !in FileNames(s.index) ==> n in Purge(s).files && Purge(s).files[n] == s.files[n]
  {
  }

  /** `uuid` names no file and no unit: the guarantee a freshly drawn UUID gives. */
  predicate FreshName(s: Store, uuid: string)
  {
    uuid !in s.files && forall k :: k in s.index ==> s.index[k].fileName != uuid
  }

  /** The sources whose bytes a unit writes to a fresh file: `.data(d)`, or a `.file` that reads as `d`. */
  predicate Carries(dataType: PersistentCacheDataType, data: seq<byte>)
  {
    dataType == Data(data) || dataType == File(Some(data))
  }

  lemma CreateDataShape(s: Store, cacheKey: CacheKey, ttl: Option<int>, dataType: PersistentCacheDataType,
                        data: seq<byte>, metaData: MetaData, now: int, uuid: string, defaultExpiration: int)
    requires Carries(dataType, data)
    ensures var s1 := ExpirePrior(s, cacheKey);
      var e := Entry(cacheKey, uuid, now + ttl.GetOr(defaultExpiration), metaData);
      Create(s, Persistent(cacheKey, ttl, dataType, metaData), now, uuid, defaultExpiration)
        == Store(s1.index[cacheKey := e], SaveFile(s1.files, e, data))
  {
  }

  /**
   * Creating a unit from bytes or from a readable file: the key then maps to
   * a unit with the fresh file name, the requested (or default) lifetime and
   * the metadata; the payload reads back exactly when the container was
   * written; and the written file decodes to the same unit.  When the prior
   * unit was filed under its own key, its file is gone.
   */
  lemma CreateFromData(s: Store, cacheKey: CacheKey, ttl: Option<int>, dataType: PersistentCacheDataType,
                       data: seq<byte>, metaData: MetaData, now: int, uuid: string, defaultExpiration: int)
    requires Carries(dataType, data)
    requires FreshName(s, uuid)
    ensures var r := Create(s, Persistent(cacheKey, ttl, dataType, metaData), now, uuid, defaultExpiration);
      var e := Entry(cacheKey, uuid, now + ttl.GetOr(defaultExpiration), metaData);
      && cacheKey in r.index && r.index[cacheKey] == e
      && (cacheKey in s.index && s.index[cacheKey].cacheKey == cacheKey ==> s.index[cacheKey].fileName !in r.files)
      && Payload(r.files, uuid) == (if UnitContainer(e, data).Some? then data else [])
      && (UnitContainer(e, data).Some? ==> DecodeEntry(r.files, uuid) == Some(e))
  {
    var e := Entry(cacheKey, uuid, now + ttl.GetOr(defaultExpiration), metaData);
    var s1 := ExpirePrior(s, cacheKey);
    assert uuid !in s1.files;
    CreateDataShape(s, cacheKey, ttl, dataType, data, metaData, now, uuid, defaultExpiration);
    if UnitContainer(e, data).Some? {
      WrittenFileDecodes(s1.files, e, data);
    } else {
      assert SaveFile(s1.files, e, data) == s1.files;
      assert ReadFile(s1.files, uuid) == None;
    }
    if cacheKey in s.index && s.index[cacheKey].cacheKey == cacheKey {
      assert s.index[cacheKey].fileName != uuid;
    }
  }

  /**
   * Creating from an already stored file: no file is written; the unit
   * rehydrated from the file (after the prior unit has expired) is installed
   * under the request's key, and the request's lifetime and metadata are not
   * used.  If the file does not decode, nothing is installed.
   */
  lemma CreateFromStoredFile(s: Store, cacheKey: CacheKey, ttl: Option<int>, fileName: string, metaData: MetaData,
                             now: int, uuid: string, defaultExpiration: int)
    ensures var s1 := ExpirePrior(s, cacheKey);
      var decoded := DecodeEntry(s1.files, fileName);
      var r := Create(s, Persistent(cacheKey, ttl, AlreadyStoredFile(fileName), metaData), now, uuid, defaultExpiration);
      && r.files == s1.files
      && (decoded.Some? ==> cacheKey in r.index && r.index[cacheKey] == decoded.value
                            && r.index[cacheKey].fileName == fileName)
      && (decoded.None? ==> r.index == s1.index)
  {
  }

  /**
   * When construction gives no unit, the key is left without one, provided
   * every unit was filed under its own key (so that expiring the prior unit
   * removed this key).
   */
  lemma CreateFailureLeavesKeyEmpty(s: Store, config: CacheUnitConfig, now: int, uuid: string, defaultExpiration: int)
    requires config.Persistent? && KeysConsistent(s)
    requires Build(ExpirePrior(s, config.cacheKey).files, config, now, uuid, defaultExpiration).0.None?
    ensures config.cacheKey !in Create(s, config, now, uuid, defaultExpiration).index
  {
  }

  /**
   * The behaviour as written when the prior unit under a key carries another
   * cache key (possible after `.alreadyStoredFile`): expiring it removes that
   * other key, so the overwritten unit's entry is replaced but its file stays.
   */
  lemma MisKeyedPriorKeepsFile()
    ensures var s := Store(map["k" := Entry("other", "f", 0, None)], map["f" := []]);
      var r := Create(s, Persistent("k", None, Data([]), None), 0, "u", 1);
      && "f" in r.files
      && r.index["k"].fileName == "u"
  {
  }

  /**
   * In general: when the prior unit under the request's key carries another
   * key `h`, its file survives the create exactly when no unit filed under `h`
   * shares that file.
   */
  lemma MisKeyedPriorFile(s: Store, config: CacheUnitConfig, now: int, uuid: string, defaultExpiration: int)
    requires config.Persistent? && config.cacheKey in s.index && FreshName(s, uuid)
    requires s.index[config.cacheKey].fileName in s.files
    requires s.index[config.cacheKey].cacheKey != config.cacheKey
    ensures var f := s.index[config.cacheKey].fileName;
      var h := s.index[config.cacheKey].cacheKey;
      (f in Create(s, config, now, uuid, defaultExpiration).files <==> !(h in s.index && s.index[h].fileName == f))
  {
  }

  /**
   * When every unit is filed under its own key, creating a unit for a key
   * removes the prior unit's file first, whatever the data source, and
   * leaves every other key's unit as it was.
   */
  lemma CreateExpiresPrior(s: Store, config: CacheUnitConfig, now: int, uuid: string, defaultExpiration: int)
    requires config.Persistent? && KeysConsistent(s) && FreshName(s, uuid)
    ensures var r := Create(s, config, now, uuid, defaultExpiration);
      && (config.cacheKey in s.index ==> s.index[config.cacheKey].fileName !in r.files)
      && forall k :: k in s.index && k != config.cacheKey ==> k in r.index && r.index[k] == s.index[k]
  {
    var k := config.cacheKey;
    var s1 := ExpirePrior(s, k);
    assert s1 == Remove(s, k);
    var built := Build(s1.files, config, now, uuid, defaultExpiration);
    if k in s.index {
      var f := s.index[k].fileName;
      assert f !in s1.files;
      assert f != uuid;
      if !config.dataType.AlreadyStoredFile? {
        assert built.1 == s1.files || built.1 == s1.files[uuid := built.1[uuid]];
      }
    }
  }

  /** Creating from bytes or a file keeps every unit filed under its own key. */
  lemma CreateKeepsKeysConsistent(s: Store, config: CacheUnitConfig, now: int, uuid: string, defaultExpiration: int)
    requires KeysConsistent(s)
    requires !(config.Persistent? && config.dataType.AlreadyStoredFile?)
    ensures KeysConsistent(Create(s, config, now, uuid, defaultExpiration))
  {
  }

  /** Creating from an unreadable file installs nothing and writes nothing, after expiring any prior unit. */
  lemma CreateFromUnreadableFile(s: Store, cacheKey: CacheKey, ttl: Option<int>, metaData: MetaData,
                                 now: int, uuid: string, defaultExpiration: int)
    ensures var r := Create(s, Persistent(cacheKey, ttl, File(None), metaData), now, uuid, defaultExpiration);
      && r == ExpirePrior(s, cacheKey)
      && (KeysConsistent(s) ==> cacheKey !in r.index)
  {
  }

  /** With no explicit lifetime the manager's default applies. */
  lemma DefaultLifetime(s: Store, cacheKey: CacheKey, data: seq<byte>, now: int, uuid: string, defaultExpiration: int)
    ensures var r := Create(s, PersistentConfig(cacheKey, Data(data)), now, uuid, defaultExpiration);
      cacheKey in r.index && r.index[cacheKey].expiration == now + defaultExpiration
  {
  }

  /** A request for the other tier leaves the store as it was. */
  lemma CreateWrongTier(s: Store, config: CacheUnitConfig, now: int, uuid: string, defaultExpiration: int)
    requires config.Transient?
    ensures Create(s, config, now, uuid, defaultExpiration) == s
  {
  }

  /** Every unit reloaded from disk is keyed by its own cache key and was decoded from a listed file. */
  lemma {:induction false} DiskIndexSound(files: FileMap, listing: seq<string>, k: CacheKey)
    requires k in DiskIndex(files, listing)
    ensures DiskIndex(files, listing)[k].cacheKey == k
    ensures exists i :: 0 <= i < |listing| && DecodeEntry(files, listing[i]) == Some(DiskIndex(files, listing)[k])
    decreases |listing|
  {
    var init := listing[..|listing| - 1];
    var earlier := DiskIndex(files, init);
    var last := |listing| - 1;
    if k in earlier && DiskIndex(files, listing)[k] == earlier[k] {
      DiskIndexSound(files, init, k);
      var i :| 0 <= i < |init| && DecodeEntry(files, init[i]) == Some(earlier[k]);
      assert listing[i] == init[i];
    } else {
      assert DecodeEntry(files, listing[last]) == Some(DiskIndex(files, listing)[k]);
    }
  }

  /**
   * A decodable file whose cache key no earlier listed file carries is
   * reloaded as its own unit: first in listing order wins.
   */
  lemma {:induction false} DiskIndexFirstWins(files: FileMap, listing: seq<string>, i: nat, e: Entry)
    requires i < |listing| && DecodeEntry(files, listing[i]) == Some(e)
    requires forall j :: 0 <= j < i ==> DecodeEntry(files, listing[j]).None? || DecodeEntry(files, listing[j]).value.cacheKey != e.cacheKey
    ensures e.cacheKey in DiskIndex(files, listing) && DiskIndex(files, listing)[e.cacheKey] == e
    decreases |listing|
  {
    var init := listing[..|listing| - 1];
    if i < |listing| - 1 {
      assert init[i] == listing[i];
      forall j | 0 <= j < i ensures DecodeEntry(files, init[j]).None? || DecodeEntry(files, init[j]).value.cacheKey != e.cacheKey {
        assert init[j] == listing[j];
      }
      DiskIndexFirstWins(files, init, i, e);
    } else if e.cacheKey in DiskIndex(files, init) {
      DiskIndexSound(files, init, e.cacheKey);
      assert false;
    }
  }

  /** Reloading keeps every unit already in memory and changes no file. */
  lemma ReloadKeepsMemory(s: Store, listing: seq<string>)
    ensures Reload(s, Some(listing)).files == s.files
    ensures forall k :: k in s.index ==> k in Reload(s, Some(listing)).index && Reload(s, Some(listing)).index[k] == s.index[k]
    ensures forall k :: k in Reload(s, Some(listing)).index && k !in s.index ==> k in DiskIndex(s.files, listing)
    ensures forall k :: k !in s.index && k in DiskIndex(s.files, listing) ==>
      k in Reload(s, Some(listing)).index && Reload(s, Some(listing)).index[k] == DiskIndex(s.files, listing)[k]
  {
  }

  /**
   * Rehydration: a unit created from bytes or a readable file, after the
   * manager is discarded and a fresh one reloads any listing of the
   * directory, is found again under its key with the same lifetime and
   * metadata, and its payload is the same, provided no file listed before
   * its own decodes to a unit with the same cache key (first wins).
   */
  lemma CreateThenRehydrate(s: Store, cacheKey: CacheKey, ttl: Option<int>, dataType: PersistentCacheDataType,
                            data: seq<byte>, metaData: MetaData, now: int, uuid: string, defaultExpiration: int,
                            listing: seq<string>, i: nat)
    requires Carries(dataType, data)
    requires FreshName(s, uuid)
    requires UnitContainer(Entry(cacheKey, uuid, now + ttl.GetOr(defaultExpiration), metaData), data).Some?
    requires i < |listing| && listing[i] == uuid
    requires var files := Create(s, Persistent(cacheKey, ttl, dataType, metaData), now, uuid, defaultExpiration).files;
      forall j :: 0 <= j < i ==> DecodeEntry(files, listing[j]).None? || DecodeEntry(files, listing[j]).value.cacheKey != cacheKey
    ensures var r := Create(s, Persistent(cacheKey, ttl, dataType, metaData), now, uuid, defaultExpiration);
      var reloaded := Reload(Store(map[], r.files), Some(listing));
      && cacheKey in reloaded.index && reloaded.index[cacheKey] == r.index[cacheKey]
      && Payload(reloaded.files, reloaded.index[cacheKey].fileName) == data
  {
    CreateFromData(s, cacheKey, ttl, dataType, data, metaData, now, uuid, defaultExpiration);
    var r := Create(s, Persistent(cacheKey, ttl, dataType, metaData), now, uuid, defaultExpiration);
    var e := r.index[cacheKey];
    DiskIndexFirstWins(r.files, listing, i, e);
  }
}
