/**
 * Cache identifiers: the cache key and version are joined with '|' and the joined
 * bytes are Base32-encoded; the identifier names the cache file and appears in URLs.
 * Decoding gives back the joined string, never the pair.
 */
module PayloadIds {
  import opened Wrappers
  import opened Bytes
  import Base32

  /** The byte '|' that separates key and version. */
  const Separator: byte := '|' as int

  /** `key + "|" + version` */
  function Join(key: GoString, version: GoString): (joined: GoString)
    ensures |joined| == |key| + 1 + |version|
    ensures joined[..|key|] == key && joined[|key|] == Separator && joined[|key| + 1..] == version
  {
    key + [Separator] + version
  }

  /** `encodePayloadId`: the identifier has eight symbols per started five bytes of the join. */
  function EncodePayloadId(key: GoString, version: GoString): (id: GoString)
    ensures |id| == 8 * ((|Join(key, version)| + 4) / 5)
    ensures forall i | 0 <= i < |id| :: Base32.IsEncodingByte(id[i])
  {
    Base32.Encode(Join(key, version))
  }

  /**
   * `decodePayloadId`: None where Go's decoder reports an error, which it does for every
   * source holding a byte other than a symbol, '=' or a line break.
   */
  function DecodePayloadId(source: GoString): (joined: Option<GoString>)
    ensures joined.Some? ==>
      forall i | 0 <= i < |source| :: Base32.IsEncodingByte(source[i]) || Base32.IsLineBreak(source[i])
    ensures joined.Some? ==> |joined.value| <= 5 * (|source| / 8)
  {
    Base32.DecodedInputAlphabet(source);
    Base32.Decode(source)
  }

  /** Decoding an identifier gives back the joined key and version. */
  lemma PayloadIdRoundTrip(key: GoString, version: GoString)
    ensures DecodePayloadId(EncodePayloadId(key, version)) == Some(Join(key, version))
  {
    Base32.RoundTrip(Join(key, version));
  }

  /** The identifier is a function of the joined string alone, and distinguishes every two joined strings. */
  lemma SameIdIffSameJoin(key1: GoString, version1: GoString, key2: GoString, version2: GoString)
    ensures EncodePayloadId(key1, version1) == EncodePayloadId(key2, version2)
        <==> Join(key1, version1) == Join(key2, version2)
  {
    Base32.EncodeInjective(Join(key1, version1), Join(key2, version2));
  }

  /** Moving a '|' between key and version keeps the identifier: ("a|b", "c") and ("a", "b|c") collide. */
  lemma SeparatorCollision(a: GoString, b: GoString, c: GoString)
    ensures (a + [Separator] + b, c) != (a, b + [Separator] + c)
    ensures EncodePayloadId(a + [Separator] + b, c) == EncodePayloadId(a, b + [Separator] + c)
  {
    assert Join(a + [Separator] + b, c) == Join(a, b + [Separator] + c);
  }

  /** With no '|' in either key, two pairs share an identifier exactly when they are equal. */
  lemma SeparatorFreeKeysAreDistinguished(key1: GoString, version1: GoString, key2: GoString, version2: GoString)
    requires Separator !in key1 && Separator !in key2
    ensures EncodePayloadId(key1, version1) == EncodePayloadId(key2, version2)
        <==> key1 == key2 && version1 == version2
  {
    SameIdIffSameJoin(key1, version1, key2, version2);
    var j1, j2 := Join(key1, version1), Join(key2, version2);
    if j1 == j2 {
      assert |key1| == |key2|;
      assert key1 == j1[..|key1|] == j2[..|key2|] == key2;
    }
  }
}
