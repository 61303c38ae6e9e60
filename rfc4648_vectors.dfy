/**
 * The test vectors of section 10 of RFC 4648 for base 32, each computed from the
 * encoder's definition: they fix the bit order across byte boundaries, the letter
 * offsets, the padding of one- to four-byte groups and the joining of quanta.
 *
 * A group is checked through numbers rather than bits: its bytes, read as base-256
 * digits and shifted past the zero bits, must equal its symbol values read as
 * base-32 digits.
 */
module Rfc4648Vectors {
  import opened Wrappers
  import opened Bytes
  import opened Base32

  /** The bits of `values`, `width` bits each, first value first. */
  function Chunks(values: seq<nat>, width: nat): (bits: seq<bool>)
    ensures |bits| == width * |values|
  {
    if values == [] then [] else Chunks(values[..|values| - 1], width) + NatToBits(values[|values| - 1], width)
  }

  /** The number whose digits in base 2^width are `values`, most significant first. */
  function Value(values: seq<nat>, width: nat): nat
  {
    if values == [] then 0 else Value(values[..|values| - 1], width) * Pow2(width) + values[|values| - 1]
  }

  /** The symbols for a run of five-bit values. */
  function Symbols(values: seq<nat>): (r: seq<byte>)
    requires forall i | 0 <= i < |values| :: values[i] < 32
    ensures |r| == |values|
    ensures forall i | 0 <= i < |r| :: SymbolValue(r[i]) == Some(values[i])
  {
    seq(|values|, i requires 0 <= i < |values| => Symbol(values[i]))
  }

  lemma Doubling(x: int, p: int)
    ensures x * (2 * p) == 2 * (x * p)
  {
  }

  lemma {:induction false} BitsToNatAppend(a: seq<bool>, b: seq<bool>)
    ensures BitsToNat(a + b) == BitsToNat(a) * Pow2(|b|) + BitsToNat(b)
  {
    if b == [] {
      assert a + b == a;
    } else {
      var init, bit := b[..|b| - 1], if b[|b| - 1] then 1 else 0;
      assert (a + b)[..|a + b| - 1] == a + init;
      assert (a + b)[|a + b| - 1] == b[|b| - 1];
      BitsToNatAppend(a, init);
      var x, p, y := BitsToNat(a), Pow2(|init|), BitsToNat(init);
      assert BitsToNat(a + b) == 2 * (x * p + y) + bit;
      assert BitsToNat(b) == 2 * y + bit;
      assert Pow2(|b|) == 2 * p;
      Doubling(x, p);
    }
  }

  lemma {:induction false} ZerosDenoteZero(n: nat)
    ensures BitsToNat(seq(n, _ => false)) == 0
  {
    if n > 0 {
      assert seq(n, _ => false)[..n - 1] == seq(n - 1, _ => false);
      ZerosDenoteZero(n - 1);
    }
  }

  /** Bit strings of one length that denote the same number are equal. */
  lemma SameValueSameBits(a: seq<bool>, b: seq<bool>)
    requires |a| == |b| && BitsToNat(a) == BitsToNat(b)
    ensures a == b
  {
    BitsToNatToBits(a);
    BitsToNatToBits(b);
  }

  lemma {:induction false} ChunksValue(values: seq<nat>, width: nat)
    requires forall i | 0 <= i < |values| :: values[i] < Pow2(width)
    ensures BitsToNat(Chunks(values, width)) == Value(values, width)
  {
    if values != [] {
      var init, last := values[..|values| - 1], values[|values| - 1];
      ChunksValue(init, width);
      BitsToNatAppend(Chunks(init, width), NatToBits(last, width));
      NatToBitsToNat(last, width);
    }
  }

  lemma {:induction false} ToBitsAppend(a: seq<byte>, b: seq<byte>)
    ensures ToBits(a + b) == ToBits(a) + ToBits(b)
  {
    if a != [] {
      assert (a + b)[0] == a[0] && (a + b)[1..] == a[1..] + b;
      ToBitsAppend(a[1..], b);
    } else {
      assert a + b == b;
    }
  }

  lemma {:induction false} ToBitsChunks(data: seq<byte>)
    ensures ToBits(data) == Chunks(data, 8)
  {
    if data != [] {
      var init, last := data[..|data| - 1], data[|data| - 1];
      assert data == init + [last];
      assert data[..|data| - 1] == init;
      ToBitsChunks(init);
      ToBitsAppend(init, [last]);
      assert [last][1..] == [];
    }
  }

  lemma {:induction false} SymbolsOfAppend(a: seq<bool>, b: seq<bool>)
    requires |a| % 5 == 0 && |b| % 5 == 0
    ensures SymbolsOf(a + b) == SymbolsOf(a) + SymbolsOf(b)
  {
    if a != [] {
      assert (a + b)[..5] == a[..5] && (a + b)[5..] == a[5..] + b;
      SymbolsOfAppend(a[5..], b);
    } else {
      assert a + b == b;
    }
  }

  lemma {:induction false} SymbolsOfChunks(values: seq<nat>)
    requires forall i | 0 <= i < |values| :: values[i] < 32
    ensures SymbolsOf(Chunks(values, 5)) == Symbols(values)
  {
    if values != [] {
      var init, last := values[..|values| - 1], values[|values| - 1];
      SymbolsOfChunks(init);
      var bits := NatToBits(last, 5);
      SymbolsOfAppend(Chunks(init, 5), bits);
      assert bits[..5] == bits && bits[5..] == [];
      assert Pow2(5) == 32;
      NatToBitsToNat(last, 5);
      assert SymbolsOf(bits) == [Symbol(last)];
    }
  }

  /**
   * The bits of a group, extended with zero bits to a whole number of symbols, are
   * the bits of `values` when the two denote the same number.
   */
  lemma GroupBitsAreChunks(group: seq<byte>, values: seq<nat>, zeros: nat)
    requires forall i | 0 <= i < |values| :: values[i] < 32
    requires 8 * |group| + zeros == 5 * |values|
    requires Value(group, 8) * Pow2(zeros) == Value(values, 5)
    ensures ToBits(group) + seq(zeros, _ => false) == Chunks(values, 5)
  {
    var bits := ToBits(group) + seq(zeros, _ => false);
    assert BitsToNat(bits) == Value(values, 5) by {
      assert Pow2(8) == 256;
      ToBitsChunks(group);
      ChunksValue(group, 8);
      BitsToNatAppend(ToBits(group), seq(zeros, _ => false));
      ZerosDenoteZero(zeros);
    }
    assert Pow2(5) == 32;
    ChunksValue(values, 5);
    SameValueSameBits(bits, Chunks(values, 5));
  }

  /**
   * A group of bytes whose value, shifted past the zero bits that complete its last
   * symbol, is the value of `values` in base 32 encodes to the symbols for `values`
   * followed by padding.
   */
  lemma EncodeGroupOfValues(group: seq<byte>, values: seq<nat>)
    requires 1 <= |group| <= 5 && |values| == SymbolCount(|group|)
    requires forall i | 0 <= i < |values| :: values[i] < 32
    requires Value(group, 8) * Pow2(5 * |values| - 8 * |group|) == Value(values, 5)
    ensures EncodeGroup(group) == Symbols(values) + seq(8 - |values|, _ => Pad)
  {
    assert GroupBits(group) == Chunks(values, 5) by {
      GroupBitsAreChunks(group, values, 5 * |values| - 8 * |group|);
    }
    SymbolsOfChunks(values);
  }

  /** "f" as a number in base 256. */
  lemma ValueOfF()
    ensures Value([102], 8) == 102
  {
    assert [102][..0] == [];
  }

  /** The symbol values of "f" as a number in base 32. */
  lemma SymbolValuesOfF()
    ensures Value([12, 24], 5) == 408
  {
    assert [12][..0] == [];
    assert Value([12], 5) == 12;
    assert [12, 24][..1] == [12];
  }

  lemma SymbolsOfF()
    ensures Symbols([12, 24]) == [77, 89]
  {
  }

  /** "f" as symbol values, then padding. */
  lemma GroupOfF(group: seq<byte>)
    requires group == [102]
    ensures EncodeGroup(group) == Symbols([12, 24]) + seq(6, _ => Pad)
  {
    ValueOfF();
    SymbolValuesOfF();
    assert Pow2(2) == 4;
    EncodeGroupOfValues(group, [12, 24]);
  }

  /** The quantum for "f". */
  lemma QuantumOfF(group: seq<byte>)
    requires group == [102]
    ensures EncodeGroup(group) == [77, 89, 61, 61, 61, 61, 61, 61]
  {
    GroupOfF(group);
    SymbolsOfF();
    assert seq(6, _ => Pad) == [61, 61, 61, 61, 61, 61];
  }

  /** "fo" as a number in base 256. */
  lemma ValueOfFo()
    ensures Value([102, 111], 8) == 26223
  {
    assert [102][..0] == [];
    assert Value([102], 8) == 102;
    assert [102, 111][..1] == [102];
  }

  /** The symbol values of "fo" as a number in base 32. */
  lemma SymbolValuesOfFo()
    ensures Value([12, 25, 23, 16], 5) == 419568
  {
    assert [12][..0] == [];
    assert Value([12], 5) == 12;
    assert [12, 25][..1] == [12];
    assert Value([12, 25], 5) == 409;
    assert [12, 25, 23][..2] == [12, 25];
    assert Value([12, 25, 23], 5) == 13111;
    assert [12, 25, 23, 16][..3] == [12, 25, 23];
  }

  lemma SymbolsOfFo()
    ensures Symbols([12, 25, 23, 16]) == [77, 90, 88, 81]
  {
  }

  /** "fo" as symbol values, then padding. */
  lemma GroupOfFo(group: seq<byte>)
    requires group == [102, 111]
    ensures EncodeGroup(group) == Symbols([12, 25, 23, 16]) + seq(4, _ => Pad)
  {
    ValueOfFo();
    SymbolValuesOfFo();
    assert Pow2(4) == 16;
    EncodeGroupOfValues(group, [12, 25, 23, 16]);
  }

  /** The quantum for "fo". */
  lemma QuantumOfFo(group: seq<byte>)
    requires group == [102, 111]
    ensures EncodeGroup(group) == [77, 90, 88, 81, 61, 61, 61, 61]
  {
    GroupOfFo(group);
    SymbolsOfFo();
    assert seq(4, _ => Pad) == [61, 61, 61, 61];
  }

  /** "foo" as a number in base 256. */
  lemma ValueOfFoo()
    ensures Value([102, 111, 111], 8) == 6713199
  {
    assert [102][..0] == [];
    assert Value([102], 8) == 102;
    assert [102, 111][..1] == [102];
    assert Value([102, 111], 8) == 26223;
    assert [102, 111, 111][..2] == [102, 111];
  }

  /** The symbol values of "foo" as a number in base 32. */
  lemma SymbolValuesOfFoo()
    ensures Value([12, 25, 23, 22, 30], 5) == 13426398
  {
    assert [12][..0] == [];
    assert Value([12], 5) == 12;
    assert [12, 25][..1] == [12];
    assert Value([12, 25], 5) == 409;
    assert [12, 25, 23][..2] == [12, 25];
    assert Value([12, 25, 23], 5) == 13111;
    assert [12, 25, 23, 22][..3] == [12, 25, 23];
    assert Value([12, 25, 23, 22], 5) == 419574;
    assert [12, 25, 23, 22, 30][..4] == [12, 25, 23, 22];
  }

  lemma SymbolsOfFoo()
    ensures Symbols([12, 25, 23, 22, 30]) == [77, 90, 88, 87, 54]
  {
  }

  /** "foo" as symbol values, then padding. */
  lemma GroupOfFoo(group: seq<byte>)
    requires group == [102, 111, 111]
    ensures EncodeGroup(group) == Symbols([12, 25, 23, 22, 30]) + seq(3, _ => Pad)
  {
    ValueOfFoo();
    SymbolValuesOfFoo();
    assert Pow2(1) == 2;
    EncodeGroupOfValues(group, [12, 25, 23, 22, 30]);
  }

  /** The quantum for "foo". */
  lemma QuantumOfFoo(group: seq<byte>)
    requires group == [102, 111, 111]
    ensures EncodeGroup(group) == [77, 90, 88, 87, 54, 61, 61, 61]
  {
    GroupOfFoo(group);
    SymbolsOfFoo();
    assert seq(3, _ => Pad) == [61, 61, 61];
  }

  /** "foob" as a number in base 256. */
  lemma ValueOfFoob()
    ensures Value([102, 111, 111, 98], 8) == 1718579042
  {
    assert [102][..0] == [];
    assert Value([102], 8) == 102;
    assert [102, 111][..1] == [102];
    assert Value([102, 111], 8) == 26223;
    assert [102, 111, 111][..2] == [102, 111];
    assert Value([102, 111, 111], 8) == 6713199;
    assert [102, 111, 111, 98][..3] == [102, 111, 111];
  }

  /** The symbol values of "foob" as a number in base 32. */
  lemma SymbolValuesOfFoob()
    ensures Value([12, 25, 23, 22, 30, 24, 16], 5) == 13748632336
  {
    assert [12][..0] == [];
    assert Value([12], 5) == 12;
    assert [12, 25][..1] == [12];
    assert Value([12, 25], 5) == 409;
    assert [12, 25, 23][..2] == [12, 25];
    assert Value([12, 25, 23], 5) == 13111;
    assert [12, 25, 23, 22][..3] == [12, 25, 23];
    assert Value([12, 25, 23, 22], 5) == 419574;
    assert [12, 25, 23, 22, 30][..4] == [12, 25, 23, 22];
    assert Value([12, 25, 23, 22, 30], 5) == 13426398;
    assert [12, 25, 23, 22, 30, 24][..5] == [12, 25, 23, 22, 30];
    assert Value([12, 25, 23, 22, 30, 24], 5) == 429644760;
    assert [12, 25, 23, 22, 30, 24, 16][..6] == [12, 25, 23, 22, 30, 24];
  }

  lemma SymbolsOfFoob()
    ensures Symbols([12, 25, 23, 22, 30, 24, 16]) == [77, 90, 88, 87, 54, 89, 81]
  {
  }

  /** "foob" as symbol values, then padding. */
  lemma GroupOfFoob(group: seq<byte>)
    requires group == [102, 111, 111, 98]
    ensures EncodeGroup(group) == Symbols([12, 25, 23, 22, 30, 24, 16]) + seq(1, _ => Pad)
  {
    ValueOfFoob();
    SymbolValuesOfFoob();
    assert Pow2(3) == 8;
    EncodeGroupOfValues(group, [12, 25, 23, 22, 30, 24, 16]);
  }

  /** The quantum for "foob". */
  lemma QuantumOfFoob(group: seq<byte>)
    requires group == [102, 111, 111, 98]
    ensures EncodeGroup(group) == [77, 90, 88, 87, 54, 89, 81, 61]
  {
    GroupOfFoob(group);
    SymbolsOfFoob();
    assert seq(1, _ => Pad) == [61];
  }

  /** "fooba" as a number in base 256. */
  lemma ValueOfFooba()
    ensures Value([102, 111, 111, 98, 97], 8) == 439956234849
  {
    assert [102][..0] == [];
    assert Value([102], 8) == 102;
    assert [102, 111][..1] == [102];
    assert Value([102, 111], 8) == 26223;
    assert [102, 111, 111][..2] == [102, 111];
    assert Value([102, 111, 111], 8) == 6713199;
    assert [102, 111, 111, 98][..3] == [102, 111, 111];
    assert Value([102, 111, 111, 98], 8) == 1718579042;
    assert [102, 111, 111, 98, 97][..4] == [102, 111, 111, 98];
  }

  /** The symbol values of "fooba" as a number in base 32. */
  lemma SymbolValuesOfFooba()
    ensures Value([12, 25, 23, 22, 30, 24, 19, 1], 5) == 439956234849
  {
    assert [12][..0] == [];
    assert Value([12], 5) == 12;
    assert [12, 25][..1] == [12];
    assert Value([12, 25], 5) == 409;
    assert [12, 25, 23][..2] == [12, 25];
    assert Value([12, 25, 23], 5) == 13111;
    assert [12, 25, 23, 22][..3] == [12, 25, 23];
    assert Value([12, 25, 23, 22], 5) == 419574;
    assert [12, 25, 23, 22, 30][..4] == [12, 25, 23, 22];
    assert Value([12, 25, 23, 22, 30], 5) == 13426398;
    assert [12, 25, 23, 22, 30, 24][..5] == [12, 25, 23, 22, 30];
    assert Value([12, 25, 23, 22, 30, 24], 5) == 429644760;
    assert [12, 25, 23, 22, 30, 24, 19][..6] == [12, 25, 23, 22, 30, 24];
    assert Value([12, 25, 23, 22, 30, 24, 19], 5) == 13748632339;
    assert [12, 25, 23, 22, 30, 24, 19, 1][..7] == [12, 25, 23, 22, 30, 24, 19];
  }

  lemma SymbolsOfFooba()
    ensures Symbols([12, 25, 23, 22, 30, 24, 19, 1]) == [77, 90, 88, 87, 54, 89, 84, 66]
  {
  }

  /** "fooba" as symbol values, then padding. */
  lemma GroupOfFooba(group: seq<byte>)
    requires group == [102, 111, 111, 98, 97]
    ensures EncodeGroup(group) == Symbols([12, 25, 23, 22, 30, 24, 19, 1]) + seq(0, _ => Pad)
  {
    ValueOfFooba();
    SymbolValuesOfFooba();
    assert Pow2(0) == 1;
    EncodeGroupOfValues(group, [12, 25, 23, 22, 30, 24, 19, 1]);
  }

  /** The quantum for "fooba". */
  lemma QuantumOfFooba(group: seq<byte>)
    requires group == [102, 111, 111, 98, 97]
    ensures EncodeGroup(group) == [77, 90, 88, 87, 54, 89, 84, 66]
  {
    GroupOfFooba(group);
    SymbolsOfFooba();
    assert seq(0, _ => Pad) == [];
  }

  /** "r" as a number in base 256. */
  lemma ValueOfR()
    ensures Value([114], 8) == 114
  {
    assert [114][..0] == [];
  }

  /** The symbol values of "r" as a number in base 32. */
  lemma SymbolValuesOfR()
    ensures Value([14, 8], 5) == 456
  {
    assert [14][..0] == [];
    assert Value([14], 5) == 14;
    assert [14, 8][..1] == [14];
  }

  lemma SymbolsOfR()
    ensures Symbols([14, 8]) == [79, 73]
  {
  }

  /** "r" as symbol values, then padding. */
  lemma GroupOfR(group: seq<byte>)
    requires group == [114]
    ensures EncodeGroup(group) == Symbols([14, 8]) + seq(6, _ => Pad)
  {
    ValueOfR();
    SymbolValuesOfR();
    assert Pow2(2) == 4;
    EncodeGroupOfValues(group, [14, 8]);
  }

  /** The quantum for "r". */
  lemma QuantumOfR(group: seq<byte>)
    requires group == [114]
    ensures EncodeGroup(group) == [79, 73, 61, 61, 61, 61, 61, 61]
  {
    GroupOfR(group);
    SymbolsOfR();
    assert seq(6, _ => Pad) == [61, 61, 61, 61, 61, 61];
  }

  /** Up to five bytes encode to one quantum. */
  lemma EncodeOneGroup(data: seq<byte>)
    requires 1 <= |data| <= 5
    ensures Encode(data) == EncodeGroup(data)
  {
  }

  /** Six bytes encode to the quantum of the first five followed by the quantum of the last. */
  lemma EncodeSixBytes(data: seq<byte>)
    requires |data| == 6
    ensures Encode(data) == EncodeGroup(data[..5]) + EncodeGroup(data[5..])
  {
    assert Encode(data[5..]) == EncodeGroup(data[5..]);
  }

  lemma EncodeFoobar(data: seq<byte>)
    requires data == [102, 111, 111, 98, 97, 114]
    ensures Encode(data) == [77, 90, 88, 87, 54, 89, 84, 66, 79, 73, 61, 61, 61, 61, 61, 61]
  {
    QuantumOfFooba(data[..5]);
    QuantumOfR(data[5..]);
    EncodeSixBytes(data);
  }

  /**
   * BASE32 of "", "f", "fo", "foo", "foob", "fooba" and "foobar", as section 10 of
   * RFC 4648 lists them, written out as the bytes of the ASCII text.
   */
  lemma Rfc4648Examples()
    ensures Encode([]) == []  // "" is ""
    ensures Encode([102]) == [77, 89, 61, 61, 61, 61, 61, 61]  // "f" is "MY======"
    ensures Encode([102, 111]) == [77, 90, 88, 81, 61, 61, 61, 61]  // "fo" is "MZXQ===="
    ensures Encode([102, 111, 111]) == [77, 90, 88, 87, 54, 61, 61, 61]  // "foo" is "MZXW6==="
    ensures Encode([102, 111, 111, 98]) == [77, 90, 88, 87, 54, 89, 81, 61]  // "foob" is "MZXW6YQ="
    ensures Encode([102, 111, 111, 98, 97]) == [77, 90, 88, 87, 54, 89, 84, 66]  // "fooba" is "MZXW6YTB"
    ensures Encode([102, 111, 111, 98, 97, 114]) == [77, 90, 88, 87, 54, 89, 84, 66, 79, 73, 61, 61, 61, 61, 61, 61]  // "foobar" is "MZXW6YTBOI======"
  {
    EncodeOneGroup([102]);
    QuantumOfF([102]);
    EncodeOneGroup([102, 111]);
    QuantumOfFo([102, 111]);
    EncodeOneGroup([102, 111, 111]);
    QuantumOfFoo([102, 111, 111]);
    EncodeOneGroup([102, 111, 111, 98]);
    QuantumOfFoob([102, 111, 111, 98]);
    EncodeOneGroup([102, 111, 111, 98, 97]);
    QuantumOfFooba([102, 111, 111, 98, 97]);
    EncodeFoobar([102, 111, 111, 98, 97, 114]);
  }
}
