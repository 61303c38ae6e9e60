/**
 * Base 32 encoding as defined in section 6 of RFC 4648 (alphabet 'A'-'Z', '2'-'7',
 * padding '='), the way Go's `base32.StdEncoding` applies it: the encoder turns every
 * group of five bytes into a quantum of eight symbols, and the decoder turns every
 * quantum of eight symbols back into at most five bytes.
 *
 * Bytes are split into bits most significant bit first; a group of n < 5 bytes is
 * extended with zero bits to the next multiple of five and the quantum is filled up
 * with '='.
 */
module Base32 {
  import opened Wrappers
  import opened Bytes

  // ---------------------------------------------------------------- bit strings

  function Pow2(n: nat): (r: nat)
    ensures r >= 1
  {
    if n == 0 then 1 else 2 * Pow2(n - 1)
  }

  /** The `width` low-order bits of `v`, most significant first. */
  function NatToBits(v: nat, width: nat): (r: seq<bool>)
    ensures |r| == width
  {
    if width == 0 then [] else NatToBits(v / 2, width - 1) + [v % 2 == 1]
  }

  /** The number a bit string denotes, most significant bit first. */
  function BitsToNat(bits: seq<bool>): (r: nat)
    ensures r < Pow2(|bits|)
  {
    if bits == [] then 0
    else 2 * BitsToNat(bits[..|bits| - 1]) + (if bits[|bits| - 1] then 1 else 0)
  }

  lemma {:induction false} BitsToNatToBits(bits: seq<bool>)
    ensures NatToBits(BitsToNat(bits), |bits|) == bits
  {
    if bits != [] {
      var init := bits[..|bits| - 1];
      BitsToNatToBits(init);
      assert bits == init + [bits[|bits| - 1]];
    }
  }

  lemma {:induction false} NatToBitsToNat(v: nat, width: nat)
    requires v < Pow2(width)
    ensures BitsToNat(NatToBits(v, width)) == v
  {
    if width > 0 {
      NatToBitsToNat(v / 2, width - 1);
      var bits := NatToBits(v, width);
      assert bits[..width - 1] == NatToBits(v / 2, width - 1);
    }
  }

  /** The bits of a byte string, eight per byte. */
  function ToBits(data: seq<byte>): (r: seq<bool>)
    ensures |r| == 8 * |data|
  {
    if data == [] then [] else NatToBits(data[0], 8) + ToBits(data[1..])
  }

  /** The bytes of a bit string, eight bits per byte. */
  function FromBits(bits: seq<bool>): (r: seq<byte>)
    requires |bits| % 8 == 0
    ensures |r| == |bits| / 8
  {
    if bits == [] then []
    else
      assert Pow2(8) == 256;
      [BitsToNat(bits[..8])] + FromBits(bits[8..])
  }

  lemma {:induction false} FromBitsToBits(data: seq<byte>)
    ensures FromBits(ToBits(data)) == data
  {
    if data != [] {
      var bits := ToBits(data);
      assert bits[..8] == NatToBits(data[0], 8);
      assert bits[8..] == ToBits(data[1..]);
      assert Pow2(8) == 256;
      NatToBitsToNat(data[0], 8);
      FromBitsToBits(data[1..]);
    }
  }

  // ---------------------------------------------------------------- the alphabet

  /** The padding symbol '='. */
  const Pad: byte := '=' as int

  /** A byte that an encoder may emit: a symbol of the alphabet or the padding. */
  predicate IsEncodingByte(b: byte) {
    ('A' as int <= b <= 'Z' as int) || ('2' as int <= b <= '7' as int) || b == Pad
  }

  /** The inverse of the alphabet (Go's `decodeMap`): None for every other byte, '=' included. */
  function SymbolValue(b: byte): (r: Option<nat>)
    ensures r.Some? <==> IsEncodingByte(b) && b != Pad
    ensures r.Some? ==> r.value < 32
  {
    if 'A' as int <= b <= 'Z' as int then Some(b - 'A' as int)
    else if '2' as int <= b <= '7' as int then Some(b - '2' as int + 26)
    else None
  }

  /** The symbol for a five-bit value (table 3 of RFC 4648): 0-25 are 'A'-'Z', 26-31 are '2'-'7'. */
  function Symbol(v: nat): (b: byte)
    requires v < 32
    ensures IsEncodingByte(b) && b != Pad
    ensures SymbolValue(b) == Some(v)
  {
    if v < 26 then 'A' as int + v else '2' as int + (v - 26)
  }

  // ---------------------------------------------------------------- encoding

  /** Data symbols in the quantum that encodes n bytes: the least count of 5-bit symbols that holds 8n bits. */
  function SymbolCount(n: nat): (c: nat)
    requires 1 <= n <= 5
    ensures 8 * n <= 5 * c < 8 * n + 5
    ensures 2 <= c <= 8
  {
    if n == 1 then 2 else if n == 2 then 4 else if n == 3 then 5 else if n == 4 then 7 else 8
  }

  /** One symbol for every five bits. */
  function SymbolsOf(bits: seq<bool>): (r: seq<byte>)
    requires |bits| % 5 == 0
    ensures |r| == |bits| / 5
    ensures forall i | 0 <= i < |r| :: IsEncodingByte(r[i]) && r[i] != Pad
  {
    if bits == [] then []
    else
      assert Pow2(5) == 32;
      [Symbol(BitsToNat(bits[..5]))] + SymbolsOf(bits[5..])
  }

  /** The bits of a group, extended with zero bits to whole symbols. */
  function GroupBits(group: seq<byte>): (bits: seq<bool>)
    requires 1 <= |group| <= 5
    ensures |bits| == 5 * SymbolCount(|group|)
  {
    ToBits(group) + seq(5 * SymbolCount(|group|) - 8 * |group|, _ => false)
  }

  /** The quantum for a group of one to five bytes: the data symbols, then '=' up to eight symbols. */
  function EncodeGroup(group: seq<byte>): (q: seq<byte>)
    requires 1 <= |group| <= 5
    ensures |q| == 8
    ensures forall i | 0 <= i < |q| :: IsEncodingByte(q[i])
  {
    SymbolsOf(GroupBits(group)) + seq(8 - SymbolCount(|group|), _ => Pad)
  }

  /** `EncodeToString`: one quantum per group of five bytes, the last group possibly shorter. */
  function Encode(data: seq<byte>): (r: seq<byte>)
    ensures |r| == 8 * ((|data| + 4) / 5)
    ensures forall i | 0 <= i < |r| :: IsEncodingByte(r[i])
    decreases |data|
  {
    if data == [] then []
    else if |data| <= 5 then EncodeGroup(data)
    else EncodeGroup(data[..5]) + Encode(data[5..])
  }

  // ---------------------------------------------------------------- decoding

  /** A carriage return or a line feed. */
  predicate IsLineBreak(b: byte) {
    b == '\n' as int || b == '\r' as int
  }

  /** `DecodeString` ignores carriage returns and line feeds. */
  function StripNewlines(s: seq<byte>): (r: seq<byte>)
    ensures |r| <= |s|
    ensures forall i | 0 <= i < |r| :: !IsLineBreak(r[i])
  {
    if s == [] then []
    else (if IsLineBreak(s[0]) then [] else [s[0]]) + StripNewlines(s[1..])
  }

  /** The bits a run of symbols carries; None when one of them is outside the alphabet. */
  function SymbolBits(symbols: seq<byte>): (r: Option<seq<bool>>)
    ensures r.Some? ==> |r.value| == 5 * |symbols|
  {
    if symbols == [] then Some([])
    else match SymbolValue(symbols[0])
      case None => None
      case Some(v) =>
        match SymbolBits(symbols[1..])
        case None => None
        case Some(rest) => Some(NatToBits(v, 5) + rest)
  }

  /** The position of the first '=' in a quantum, or its length when it has none. */
  function PadStart(q: seq<byte>): (d: nat)
    ensures d <= |q|
    ensures forall i | 0 <= i < d :: q[i] != Pad
    ensures d < |q| ==> q[d] == Pad
  {
    if q == [] || q[0] == Pad then 0 else 1 + PadStart(q[1..])
  }

  /** Data symbol counts a quantum may have: 1, 3 and 6 cannot end a whole number of bytes. */
  predicate ValidDataLength(d: nat) {
    d == 2 || d == 4 || d == 5 || d == 7 || d == 8
  }

  /** Bytes carried by d data symbols: the whole bytes within their 5d bits. */
  function DecodedLength(d: nat): (n: nat)
    requires ValidDataLength(d)
    ensures 8 * n <= 5 * d < 8 * n + 8
  {
    if d == 2 then 1 else if d == 4 then 2 else if d == 5 then 3 else if d == 7 then 4 else 5
  }

  /**
   * One quantum of eight symbols. Padding may only occur in the final quantum, must
   * start after two, four, five or seven symbols and run to the end. As in Go, the
   * bits left over after the last whole byte are ignored, whatever their value.
   */
  function DecodeQuantum(q: seq<byte>, last: bool): (r: Option<seq<byte>>)
    requires |q| == 8
    ensures r.Some? ==> 1 <= |r.value| <= 5
    ensures r.Some? && !last ==> |r.value| == 5
  {
    var d := PadStart(q);
    if d < 8 && !last then None
    else if !ValidDataLength(d) then None
    else if !(forall i | d <= i < 8 :: q[i] == Pad) then None
    else match SymbolBits(q[..d])
      case None => None
      case Some(bits) => Some(FromBits(bits[..8 * DecodedLength(d)]))
  }

  /** Every quantum but the last decodes to five bytes, the last to one to five. */
  function DecodeQuanta(s: seq<byte>): (r: Option<seq<byte>>)
    requires |s| % 8 == 0
    ensures r.Some? ==> |r.value| <= 5 * (|s| / 8)
    ensures r.Some? && s != [] ==> 5 * (|s| / 8) - 4 <= |r.value|
  {
    if s == [] then Some([])
    else match DecodeQuantum(s[..8], |s| == 8)
      case None => None
      case Some(head) =>
        match DecodeQuanta(s[8..])
        case None => None
        case Some(tail) => Some(head + tail)
  }

  /** `DecodeString`: None stands for the `CorruptInputError` Go reports. */
  function Decode(s: seq<byte>): (r: Option<seq<byte>>)
    ensures |StripNewlines(s)| % 8 != 0 ==> r.None?
    ensures r.Some? ==> |r.value| <= 5 * (|StripNewlines(s)| / 8)
  {
    var t := StripNewlines(s);
    if |t| % 8 != 0 then None else DecodeQuanta(t)
  }

  // ---------------------------------------------------------------- rejected inputs

  /** The k-th quantum of a string of whole quanta. */
  function QuantumAt(t: seq<byte>, k: nat): (q: seq<byte>)
    requires 8 * k + 8 <= |t|
    ensures |q| == 8
  {
    t[8 * k..8 * k + 8]
  }

  /**
   * The quanta Go's decoder accepts: symbols of the alphabet, then '=' from the first
   * padding symbol to the end, starting after two, four, five or seven symbols, and
   * padding in the final quantum only.
   */
  predicate WellFormedQuantum(q: seq<byte>, last: bool)
    requires |q| == 8
  {
    && (forall i | 0 <= i < 8 :: IsEncodingByte(q[i]))
    && ValidDataLength(PadStart(q))
    && (PadStart(q) < 8 ==> last)
    && (forall i | PadStart(q) <= i < 8 :: q[i] == Pad)
  }

  lemma {:induction false} SymbolBitsDefined(symbols: seq<byte>)
    ensures SymbolBits(symbols).Some? <==> forall i | 0 <= i < |symbols| :: SymbolValue(symbols[i]).Some?
  {
    if symbols != [] {
      SymbolBitsDefined(symbols[1..]);
      assert forall i | 1 <= i < |symbols| :: symbols[i] == symbols[1..][i - 1];
    }
  }

  /** A quantum decodes exactly when it is well formed. */
  lemma DecodeQuantumAccepts(q: seq<byte>, last: bool)
    requires |q| == 8
    ensures DecodeQuantum(q, last).Some? <==> WellFormedQuantum(q, last)
  {
    var d := PadStart(q);
    SymbolBitsDefined(q[..d]);
    assert forall i | 0 <= i < d :: q[..d][i] == q[i];
  }

  /** Every quantum of `t` decodes, the last one as the final quantum. */
  predicate EveryQuantumDecodes(t: seq<byte>)
    requires |t| % 8 == 0
  {
    forall k | 0 <= k < |t| / 8 :: DecodeQuantum(QuantumAt(t, k), k == |t| / 8 - 1).Some?
  }

  /** Dropping the first quantum shifts the others down by one. */
  lemma QuantumAtRest(t: seq<byte>, k: nat)
    requires 1 <= k && 8 * k + 8 <= |t|
    ensures QuantumAt(t, k) == QuantumAt(t[8..], k - 1)
  {
    forall i | 0 <= i < 8
      ensures QuantumAt(t, k)[i] == QuantumAt(t[8..], k - 1)[i]
    {
      assert t[8..][8 * (k - 1) + i] == t[8 * k + i];
    }
  }

  /** The quanta of `t` are its first eight bytes followed by the quanta of the rest. */
  lemma EveryQuantumDecodesStep(t: seq<byte>)
    requires |t| % 8 == 0 && t != []
    ensures EveryQuantumDecodes(t) <==>
      DecodeQuantum(t[..8], |t| == 8).Some? && EveryQuantumDecodes(t[8..])
  {
    var rest, n := t[8..], |t| / 8;
    assert |rest| / 8 == n - 1;
    assert QuantumAt(t, 0) == t[..8];
    forall k | 1 <= k < n
      ensures DecodeQuantum(QuantumAt(t, k), k == n - 1) == DecodeQuantum(QuantumAt(rest, k - 1), k - 1 == |rest| / 8 - 1)
    {
      QuantumAtRest(t, k);
    }
    if EveryQuantumDecodes(rest) && DecodeQuantum(t[..8], n == 1).Some? {
      forall k | 0 <= k < n
        ensures DecodeQuantum(QuantumAt(t, k), k == n - 1).Some?
      {
        if k > 0 {
          assert DecodeQuantum(QuantumAt(rest, k - 1), k - 1 == |rest| / 8 - 1).Some?;
        }
      }
    }
    if EveryQuantumDecodes(t) {
      assert DecodeQuantum(QuantumAt(t, 0), 0 == n - 1).Some?;
      forall k | 0 <= k < n - 1
        ensures DecodeQuantum(QuantumAt(rest, k), k == |rest| / 8 - 1).Some?
      {
        assert DecodeQuantum(QuantumAt(t, k + 1), k + 1 == n - 1).Some?;
      }
    }
  }

  /** The quanta decode together exactly when each of them decodes on its own. */
  lemma {:induction false} DecodeQuantaAccepts(t: seq<byte>)
    requires |t| % 8 == 0
    ensures DecodeQuanta(t).Some? <==> EveryQuantumDecodes(t)
  {
    if t != [] {
      DecodeQuantaAccepts(t[8..]);
      EveryQuantumDecodesStep(t);
    }
  }

  /**
   * `DecodeString` succeeds exactly when, once line breaks are removed, the input is
   * a whole number of quanta, each of them well formed.
   */
  lemma DecodeAccepts(s: seq<byte>)
    ensures var t := StripNewlines(s);
      Decode(s).Some? <==>
        && |t| % 8 == 0
        && forall k | 0 <= k < |t| / 8 :: WellFormedQuantum(QuantumAt(t, k), k == |t| / 8 - 1)
  {
    var t := StripNewlines(s);
    if |t| % 8 == 0 {
      DecodeQuantaAccepts(t);
      forall k | 0 <= k < |t| / 8 {
        DecodeQuantumAccepts(QuantumAt(t, k), k == |t| / 8 - 1);
      }
    }
  }

  lemma {:induction false} StripNewlinesKeepsByte(s: seq<byte>, i: nat)
    requires i < |s| && !IsLineBreak(s[i])
    ensures s[i] in StripNewlines(s)
  {
    if i > 0 {
      StripNewlinesKeepsByte(s[1..], i - 1);
    }
  }

  /** A byte outside the alphabet, other than '=' and a line break, makes decoding fail. */
  lemma DecodeRejectsForeignByte(s: seq<byte>, i: nat)
    requires i < |s| && !IsEncodingByte(s[i]) && !IsLineBreak(s[i])
    ensures Decode(s) == None
  {
    var t := StripNewlines(s);
    StripNewlinesKeepsByte(s, i);
    var j :| 0 <= j < |t| && t[j] == s[i];
    if |t| % 8 == 0 {
      var k := j / 8;
      assert QuantumAt(t, k)[j - 8 * k] == t[j];
      DecodeAccepts(s);
    }
  }

  /** Whatever decodes holds nothing but symbols, '=' and line breaks. */
  lemma DecodedInputAlphabet(s: seq<byte>)
    ensures Decode(s).Some? ==> forall i | 0 <= i < |s| :: IsEncodingByte(s[i]) || IsLineBreak(s[i])
  {
    forall i | 0 <= i < |s| && !IsEncodingByte(s[i]) && !IsLineBreak(s[i]) {
      DecodeRejectsForeignByte(s, i);
    }
  }

  /** A '=' in any quantum but the last makes decoding fail. */
  lemma DecodeRejectsEarlyPad(s: seq<byte>, i: nat)
    requires i + 8 < |StripNewlines(s)| && StripNewlines(s)[i] == Pad
    ensures Decode(s) == None
  {
    var t := StripNewlines(s);
    if |t| % 8 == 0 {
      var k := i / 8;
      assert QuantumAt(t, k)[i - 8 * k] == Pad;
      DecodeAccepts(s);
    }
  }

  // ---------------------------------------------------------------- round trip

  lemma {:induction false} SymbolBitsOfSymbols(bits: seq<bool>)
    requires |bits| % 5 == 0
    ensures SymbolBits(SymbolsOf(bits)) == Some(bits)
  {
    if bits != [] {
      var syms := SymbolsOf(bits);
      assert syms[1..] == SymbolsOf(bits[5..]);
      SymbolBitsOfSymbols(bits[5..]);
      BitsToNatToBits(bits[..5]);
      assert bits == bits[..5] + bits[5..];
    }
  }

  lemma PadStartAt(q: seq<byte>, d: nat)
    requires d <= |q|
    requires forall i | 0 <= i < d :: q[i] != Pad
    requires d < |q| ==> q[d] == Pad
    ensures PadStart(q) == d
  {
  }

  /** A quantum of d valid symbols followed by padding decodes to the whole bytes of their bits. */
  lemma DecodeQuantumOfSymbols(q: seq<byte>, last: bool, d: nat, bits: seq<bool>)
    requires |q| == 8 && ValidDataLength(d) && (d < 8 ==> last)
    requires PadStart(q) == d && SymbolBits(q[..d]) == Some(bits)
    requires forall i | d <= i < 8 :: q[i] == Pad
    ensures DecodeQuantum(q, last) == Some(FromBits(bits[..8 * DecodedLength(d)]))
  {
  }

  /** A group's quantum holds its data symbols, then padding from the first '=' on. */
  lemma EncodeGroupLayout(group: seq<byte>)
    requires 1 <= |group| <= 5
    ensures var q, c := EncodeGroup(group), SymbolCount(|group|);
      && PadStart(q) == c
      && SymbolBits(q[..c]) == Some(GroupBits(group))
      && forall i | c <= i < 8 :: q[i] == Pad
  {
    var c, bits := SymbolCount(|group|), GroupBits(group);
    var syms := SymbolsOf(bits);
    var q := EncodeGroup(group);
    assert q[..c] == syms;
    PadStartAt(q, c);
    SymbolBitsOfSymbols(bits);
  }

  /** The whole bytes within a group's symbol bits are the group. */
  lemma GroupBitsBytes(group: seq<byte>)
    requires 1 <= |group| <= 5
    ensures ValidDataLength(SymbolCount(|group|))
    ensures FromBits(GroupBits(group)[..8 * DecodedLength(SymbolCount(|group|))]) == group
  {
    var c := SymbolCount(|group|);
    assert DecodedLength(c) == |group|;
    assert GroupBits(group)[..8 * |group|] == ToBits(group);
    FromBitsToBits(group);
  }

  lemma DecodeEncodeGroup(group: seq<byte>, last: bool)
    requires 1 <= |group| <= 5
    requires |group| < 5 ==> last
    ensures DecodeQuantum(EncodeGroup(group), last) == Some(group)
  {
    EncodeGroupLayout(group);
    GroupBitsBytes(group);
    DecodeQuantumOfSymbols(EncodeGroup(group), last, SymbolCount(|group|), GroupBits(group));
  }

  lemma DecodeQuantaPrefix(head: seq<byte>, tail: seq<byte>, x: seq<byte>, y: seq<byte>)
    requires |head| == 8 && |tail| % 8 == 0
    requires DecodeQuantum(head, tail == []) == Some(x)
    requires DecodeQuanta(tail) == Some(y)
    ensures DecodeQuanta(head + tail) == Some(x + y)
  {
    var s := head + tail;
    assert s[..8] == head && s[8..] == tail;
  }

  lemma EncodedWholeQuanta(data: seq<byte>)
    ensures |Encode(data)| % 8 == 0
  {
    var k := (|data| + 4) / 5;
    assert |Encode(data)| == 8 * k;
  }

  lemma {:induction false} DecodeQuantaEncode(data: seq<byte>)
    ensures |Encode(data)| % 8 == 0
    ensures DecodeQuanta(Encode(data)) == Some(data)
    decreases |data|
  {
    EncodedWholeQuanta(data);
    if |data| > 0 {
      var n := if |data| <= 5 then |data| else 5;
      var group, rest := data[..n], data[n..];
      assert data == group + rest;
      if |data| <= 5 {
        assert group == data && rest == [];
      }
      var tail := Encode(rest);
      assert Encode(data) == EncodeGroup(group) + tail;
      DecodeEncodeGroup(group, tail == []);
      DecodeQuantaEncode(rest);
      DecodeQuantaPrefix(EncodeGroup(group), tail, group, rest);
    }
  }

  lemma {:induction false} StripNewlinesKeeps(s: seq<byte>)
    requires forall i | 0 <= i < |s| :: !IsLineBreak(s[i])
    ensures StripNewlines(s) == s
  {
    if s != [] {
      StripNewlinesKeeps(s[1..]);
      assert s == [s[0]] + s[1..];
    }
  }

  /** Decoding undoes encoding, for every byte string. */
  lemma RoundTrip(data: seq<byte>)
    ensures Decode(Encode(data)) == Some(data)
  {
    StripNewlinesKeeps(Encode(data));
    DecodeQuantaEncode(data);
  }

  /** Distinct byte strings have distinct encodings. */
  lemma EncodeInjective(a: seq<byte>, b: seq<byte>)
    ensures Encode(a) == Encode(b) <==> a == b
  {
    RoundTrip(a);
    RoundTrip(b);
  }
}
