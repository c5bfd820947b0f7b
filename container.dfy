/**
 * The on-disk container of one persistent cache unit:
 *
 *   [headerLength: 8 bytes][metaLength: 8 bytes][header][metadata][payload]
 *
 * with both lengths little-endian.  Metadata is omitted, and its length is 0,
 * when the unit has none.  `Decode` slices one sector back out of a file's
 * bytes; where the Swift code would trap on an out-of-range slice or an
 * overflowing offset it gives `None` here.
 */
module Container {
  import opened Wrappers
  import opened Bytes

  /** `UInt.max` on a 64-bit host. */
  const UINT_MAX: nat := 0xFFFF_FFFF_FFFF_FFFF

  /** Size of the two length prefixes together. */
  const LENGTH_DESCRIPTION_BYTES: nat := 2 * WORD_SIZE

  datatype Sector = Header | MetaData | CachedData

  function MetaLength(metaData: Option<seq<byte>>): nat
  {
    if metaData.Some? then |metaData.value| else 0
  }

  function MetaBytes(metaData: Option<seq<byte>>): seq<byte>
  {
    if metaData.Some? then metaData.value else []
  }

  /** The total offset of the payload must stay below `UInt.max`, or nothing is written. */
  predicate Fits(header: seq<byte>, metaData: Option<seq<byte>>)
  {
    |header| + MetaLength(metaData) + LENGTH_DESCRIPTION_BYTES < UINT_MAX
  }

  /** The container the unit saves, or `None` when the size guard refuses it. */
  function Encode(header: seq<byte>, metaData: Option<seq<byte>>, payload: seq<byte>): (r: Option<seq<byte>>)
    ensures r.Some? <==> Fits(header, metaData)
    ensures r.Some? ==> |r.value| == LENGTH_DESCRIPTION_BYTES + |header| + MetaLength(metaData) + |payload|
  {
    if Fits(header, metaData) then
      Some(ToLe(|header|, WORD_SIZE) + ToLe(MetaLength(metaData), WORD_SIZE)
           + header + MetaBytes(metaData) + payload)
    else None
  }

  /**
   * One sector of a container; `file` is the result of reading it from disk
   * (`None` when the file is missing or unreadable).
   */
  function Decode(file: Option<seq<byte>>, sector: Sector): (r: Option<seq<byte>>)
    ensures file.None? || |file.value| <= 2 ==> r.None?
    ensures r.Some? ==> |file.value| >= LENGTH_DESCRIPTION_BYTES
    ensures r.Some? && sector == MetaData ==> |r.value| > 0
    ensures file.Some? && |file.value| >= LENGTH_DESCRIPTION_BYTES ==>
      var c := file.value;
      var metaStart := LENGTH_DESCRIPTION_BYTES + FromLe(c[..WORD_SIZE]);
      var metaLength := FromLe(c[WORD_SIZE..LENGTH_DESCRIPTION_BYTES]);
      var cacheStart := metaStart + metaLength;
      && (sector == Header ==>
            (r.Some? <==> cacheStart <= UINT_MAX && metaStart <= |c|)
            && (r.Some? ==> r.value == c[LENGTH_DESCRIPTION_BYTES..metaStart]))
      && (sector == MetaData ==>
            (r.Some? <==> cacheStart <= UINT_MAX && metaLength > 0 && cacheStart <= |c|)
            && (r.Some? ==> r.value == c[metaStart..cacheStart]))
      && (sector == CachedData ==>
            (r.Some? <==> cacheStart <= UINT_MAX && cacheStart <= |c|)
            && (r.Some? ==> r.value == c[cacheStart..]))
  {
    if file.None? || |file.value| <= 2 then None
    else
      var c := file.value;
      if |c| < LENGTH_DESCRIPTION_BYTES then None
      else
        var headerLength := FromLe(c[..WORD_SIZE]);
        var metaLength := FromLe(c[WORD_SIZE..LENGTH_DESCRIPTION_BYTES]);
        var metaStart := LENGTH_DESCRIPTION_BYTES + headerLength;
        var cacheStart := metaStart + metaLength;
        if cacheStart > UINT_MAX then None
        else match sector
          case CachedData =>
            if cacheStart <= |c| then Some(c[cacheStart..]) else None
          case Header =>
            if metaStart <= |c| then Some(c[LENGTH_DESCRIPTION_BYTES..metaStart]) else None
          case MetaData =>
            if metaLength == 0 then None
            else if cacheStart <= |c| then Some(c[metaStart..cacheStart]) else None
  }

  /** A length below `UInt.max` fits in one length prefix. */
  lemma FitsWord(n: nat)
    requires n < UINT_MAX
    ensures FromLe(ToLe(n, WORD_SIZE)) == n
  {
    Pow256Values();
    LeRoundTrip(n, WORD_SIZE);
  }

  /** Slicing a five-part concatenation at its seams. */
  lemma Seams<T>(a: seq<T>, b: seq<T>, h: seq<T>, m: seq<T>, p: seq<T>)
    ensures var c := a + b + h + m + p;
      var i, j, k := |a|, |a| + |b|, |a| + |b| + |h|;
      && c[..i] == a && c[i..j] == b && c[j..k] == h
      && c[k..k + |m|] == m && c[k + |m|..] == p
  {
    var c := a + b + h + m + p;
    assert c == a + (b + (h + (m + p)));
    var i, j, k := |a|, |a| + |b|, |a| + |b| + |h|;
    assert c[i..] == b + (h + (m + p));
    assert c[j..] == h + (m + p);
    assert c[k..] == m + p;
  }

  /** Where each part of an encoded container sits. */
  lemma EncodeLayout(header: seq<byte>, metaData: Option<seq<byte>>, payload: seq<byte>)
    requires Fits(header, metaData)
    ensures var c := Encode(header, metaData, payload).value;
      var metaStart := LENGTH_DESCRIPTION_BYTES + |header|;
      var cacheStart := metaStart + MetaLength(metaData);
      && FromLe(c[..WORD_SIZE]) == |header|
      && FromLe(c[WORD_SIZE..LENGTH_DESCRIPTION_BYTES]) == MetaLength(metaData)
      && c[LENGTH_DESCRIPTION_BYTES..metaStart] == header
      && c[metaStart..cacheStart] == MetaBytes(metaData)
      && c[cacheStart..] == payload
  {
    var hl, ml := |header|, MetaLength(metaData);
    Seams(ToLe(hl, WORD_SIZE), ToLe(ml, WORD_SIZE), header, MetaBytes(metaData), payload);
    FitsWord(hl);
    FitsWord(ml);
  }

  /**
   * Decoding a container that `Encode` produced gives back its parts: the
   * header, the payload, and the metadata exactly when it is non-empty.
   */
  lemma DecodeEncode(header: seq<byte>, metaData: Option<seq<byte>>, payload: seq<byte>)
    requires Fits(header, metaData)
    ensures var c := Encode(header, metaData, payload);
      && Decode(c, Header) == Some(header)
      && Decode(c, CachedData) == Some(payload)
      && Decode(c, MetaData) == (if MetaLength(metaData) > 0 then metaData else None)
  {
    EncodeLayout(header, metaData, payload);
  }
}
