/**
 * A byte serialization for the two kinds of JSON document the persistent tier
 * writes: the container header and the caller's metadata, both JSON objects.
 * The model fixes one concrete encoding in place of Foundation's
 * `JSONSerialization`, restricted to objects whose values are strings:
 *
 *   object = OPEN, then each key and value as a string, in order
 *   string = 3 little-endian bytes per Unicode scalar value, then END
 *
 * An END triple can never be the encoding of a character (its value is above
 * U+10FFFF), so a string's end is always recognised.  Every object, the empty
 * one included, is at least one byte long, just as `{}` is two bytes of JSON.
 */
module Serialization {
  import opened Wrappers
  import opened Bytes

  /** A JSON object with string values, keys in serialization order. */
  type Object = seq<(string, string)>

  const OPEN: byte := 0x7B
  const END: seq<byte> := [0xFF, 0xFF, 0xFF]

  predicate IsScalar(v: int)
  {
    0 <= v < 0xD800 || 0xE000 <= v < 0x11_0000
  }

  /** The three bytes of a character never form END. */
  lemma {:induction false} CharBytes(c: char)
    ensures |ToLe(c as int, 3)| == 3
    ensures FromLe(ToLe(c as int, 3)) == c as int
    ensures ToLe(c as int, 3) != END
  {
    var v := c as int;
    Pow256Values();
    LeRoundTrip(v, 3);
    var b := ToLe(v, 3);
    assert b[1..] == ToLe(v / 256, 2);
    assert b[2..] == ToLe((v / 256) / 256, 1);
    assert b[2] as int == ((v / 256) / 256) % 256;
    assert (v / 256) / 256 < 0x11;
  }

  function EncodeText(s: string): (r: seq<byte>)
    ensures |r| == 3 * |s|
  {
    if s == [] then [] else ToLe(s[0] as int, 3) + EncodeText(s[1..])
  }

  function EncodeString(s: string): seq<byte>
  {
    EncodeText(s) + END
  }

  /** Reads one string off the front of `b`; gives the string and what follows it. */
  function DecodeString(b: seq<byte>): (r: Option<(string, seq<byte>)>)
    ensures r.Some? ==> |r.value.1| < |b|
    decreases |b|
  {
    if |b| < 3 then None
    else if b[..3] == END then Some(([], b[3..]))
    else
      var v := FromLe(b[..3]);
      if !IsScalar(v) then None
      else match DecodeString(b[3..])
        case None => None
        case Some((s, rest)) => Some(([v as char] + s, rest))
  }

  lemma {:induction false} StringRoundTrip(s: string, tail: seq<byte>)
    ensures DecodeString(EncodeString(s) + tail) == Some((s, tail))
  {
    var b := EncodeString(s) + tail;
    if s == [] {
      assert b == END + tail;
      assert b[..3] == END;
      assert b[3..] == tail;
    } else {
      CharBytes(s[0]);
      var c := ToLe(s[0] as int, 3);
      assert b == c + (EncodeString(s[1..]) + tail);
      assert b[..3] == c;
      assert b[3..] == EncodeString(s[1..]) + tail;
      StringRoundTrip(s[1..], tail);
      assert [(FromLe(c)) as char] + s[1..] == s;
    }
  }

  function EncodePairs(o: Object): seq<byte>
  {
    if o == [] then [] else EncodeString(o[0].0) + EncodeString(o[0].1) + EncodePairs(o[1..])
  }

  function EncodeObject(o: Object): (r: seq<byte>)
    ensures |r| >= 1 && r[0] == OPEN
  {
    [OPEN] + EncodePairs(o)
  }

  function DecodePairs(b: seq<byte>): Option<Object>
    decreases |b|
  {
    if b == [] then Some([])
    else match DecodeString(b)
      case None => None
      case Some((k, afterKey)) =>
        match DecodeString(afterKey)
        case None => None
        case Some((v, afterValue)) =>
          match DecodePairs(afterValue)
          case None => None
          case Some(rest) => Some([(k, v)] + rest)
  }

  /** Parses bytes as an object; `None` when they are not one. */
  function DecodeObject(b: seq<byte>): Option<Object>
  {
    if |b| >= 1 && b[0] == OPEN then DecodePairs(b[1..]) else None
  }

  lemma {:induction false} PairsRoundTrip(o: Object)
    ensures DecodePairs(EncodePairs(o)) == Some(o)
  {
    if o != [] {
      var k, v := o[0].0, o[0].1;
      var b := EncodePairs(o);
      var afterKey := EncodeString(v) + EncodePairs(o[1..]);
      assert b == EncodeString(k) + afterKey;
      StringRoundTrip(k, afterKey);
      assert |EncodeString(k)| >= 3;
      StringRoundTrip(v, EncodePairs(o[1..]));
      PairsRoundTrip(o[1..]);
      assert [(k, v)] + o[1..] == o;
    }
  }

  /** Decoding an encoded object gives the same object back. */
  lemma ObjectRoundTrip(o: Object)
    ensures DecodeObject(EncodeObject(o)) == Some(o)
  {
    assert EncodeObject(o)[1..] == EncodePairs(o);
    PairsRoundTrip(o);
  }

  /** The value of the first member named `key`. */
  function Lookup(o: Object, key: string): (r: Option<string>)
    ensures r.Some? <==> exists i :: 0 <= i < |o| && o[i].0 == key
    ensures r.Some? ==> exists i :: 0 <= i < |o| && o[i] == (key, r.value)
  {
    if o == [] then None
    else if o[0].0 == key then Some(o[0].1)
    else Lookup(o[1..], key)
  }

  // Integers as decimal text, the form an expiration instant takes in a header.

  predicate IsDigit(c: char)
  {
    '0' <= c <= '9'
  }

  function DigitChar(d: nat): (c: char)
    requires d < 10
    ensures IsDigit(c) && c as int - '0' as int == d
  {
    ('0' as int + d) as char
  }

  function ShowNat(n: nat): (s: string)
    ensures |s| >= 1
    ensures forall i :: 0 <= i < |s| ==> IsDigit(s[i])
  {
    if n < 10 then [DigitChar(n)] else ShowNat(n / 10) + [DigitChar(n % 10)]
  }

  function ParseNat(s: string): Option<nat>
  {
    if s == [] || !IsDigit(s[|s| - 1]) then None
    else
      var d := s[|s| - 1] as int - '0' as int;
      if |s| == 1 then Some(d)
      else match ParseNat(s[..|s| - 1])
        case None => None
        case Some(p) => Some(10 * p + d)
  }

  lemma {:induction false} NatRoundTrip(n: nat)
    ensures ParseNat(ShowNat(n)) == Some(n)
  {
    if n >= 10 {
      var s := ShowNat(n);
      assert s[..|s| - 1] == ShowNat(n / 10);
      NatRoundTrip(n / 10);
    }
  }

  function ShowInt(i: int): string
  {
    if i < 0 then "-" + ShowNat(-i) else ShowNat(i)
  }

  /** Parses an optionally negative decimal integer; `None` for anything else. */
  function ParseInt(s: string): Option<int>
  {
    if |s| >= 1 && s[0] == '-' then
      match ParseNat(s[1..])
      case None => None
      case Some(n) => Some(0 - n as int)
    else
      match ParseNat(s)
      case None => None
      case Some(n) => Some(n)
  }

  lemma IntRoundTrip(i: int)
    ensures ParseInt(ShowInt(i)) == Some(i)
  {
    if i < 0 {
      assert ShowInt(i)[1..] == ShowNat(-i);
      NatRoundTrip(-i);
    } else {
      assert !IsDigit('-');
      assert ShowInt(i)[0] != '-';
      NatRoundTrip(i);
    }
  }
}
