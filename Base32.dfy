/** The base-32 encoding of RFC 4648, section 6 (alphabet `A`-`Z`, `2`-`7`, `=` padding),
    as Python 2's `base64.b32encode` and `base64.b32decode` implement it.

    Both sides are stated on bit strings: the input bytes are read as one string of bits,
    most significant bit first, cut into 5-bit groups (the last one filled with zero bits),
    and each group becomes one alphabet character; `=` characters then bring the length
    to a multiple of 8. */
module Base32 {

  import opened Strings

  type byte = x: int | 0 <= x < 256

  type Bits = seq<bool>

  function Pow2(k: nat): (p: nat)
    ensures p >= 1
  {
    if k == 0 then 1 else 2 * Pow2(k - 1)
  }

  /** The `k` low bits of `v`, most significant first. */
  function NatBits(v: nat, k: nat): (bs: Bits)
    ensures |bs| == k
  {
    if k == 0 then [] else NatBits(v / 2, k - 1) + [v % 2 == 1]
  }

  /** The number a bit string denotes, most significant bit first. */
  function BitsValue(bs: Bits): (v: nat)
    ensures v < Pow2(|bs|)
  {
    if bs == [] then 0 else 2 * BitsValue(bs[..|bs| - 1]) + (if bs[|bs| - 1] then 1 else 0)
  }

  lemma {:induction false} ValueOfBits(v: nat, k: nat)
    requires v < Pow2(k)
    ensures BitsValue(NatBits(v, k)) == v
    decreases k
  {
    if k > 0 {
      ValueOfBits(v / 2, k - 1);
      var bs := NatBits(v, k);
      assert bs[..k - 1] == NatBits(v / 2, k - 1);
    }
  }

  lemma {:induction false} BitsOfValue(bs: Bits)
    ensures NatBits(BitsValue(bs), |bs|) == bs
    decreases |bs|
  {
    if bs != [] {
      var front := bs[..|bs| - 1];
      BitsOfValue(front);
      assert bs == front + [bs[|bs| - 1]];
    }
  }

  /** The bits of a byte string, eight per byte. */
  function ByteBits(s: seq<byte>): (bs: Bits)
    ensures |bs| == 8 * |s|
  {
    if s == [] then [] else NatBits(s[0], 8) + ByteBits(s[1..])
  }

  /** Cuts a bit string into bytes. */
  function PackBytes(bs: Bits): (s: seq<byte>)
    requires |bs| % 8 == 0
    ensures |s| == |bs| / 8
    decreases |bs|
  {
    if bs == [] then [] else [BitsValue(bs[..8]) as byte] + PackBytes(bs[8..])
  }

  lemma {:induction false} PackByteBits(s: seq<byte>)
    ensures PackBytes(ByteBits(s)) == s
    decreases |s|
  {
    if s != [] {
      var bs := ByteBits(s);
      assert bs[..8] == NatBits(s[0], 8);
      assert bs[8..] == ByteBits(s[1..]);
      ValueOfBits(s[0], 8);
      PackByteBits(s[1..]);
    }
  }

  /** The bits of a string of 5-bit digits. */
  function DigitBits(ds: seq<nat>): (bs: Bits)
    requires forall i | 0 <= i < |ds| :: ds[i] < 32
    ensures |bs| == 5 * |ds|
  {
    if ds == [] then [] else NatBits(ds[0], 5) + DigitBits(ds[1..])
  }

  /** Cuts a bit string into 5-bit digits. */
  function PackDigits(bs: Bits): (ds: seq<nat>)
    requires |bs| % 5 == 0
    ensures |ds| == |bs| / 5
    ensures forall i | 0 <= i < |ds| :: ds[i] < 32
    decreases |bs|
  {
    if bs == [] then [] else [BitsValue(bs[..5])] + PackDigits(bs[5..])
  }

  lemma {:induction false} DigitBitsPack(bs: Bits)
    requires |bs| % 5 == 0
    ensures DigitBits(PackDigits(bs)) == bs
    decreases |bs|
  {
    if bs != [] {
      DigitBitsPack(bs[5..]);
      BitsOfValue(bs[..5]);
      assert bs == bs[..5] + bs[5..];
    }
  }

  /** The alphabet of RFC 4648, table 3. */
  function Digit(v: nat): (c: char)
    requires v < 32
    ensures 'A' <= c <= 'Z' || '2' <= c <= '7'
  {
    if v < 26 then ('A' as int + v) as char else ('2' as int + v - 26) as char
  }

  predicate IsDigitChar(c: char)
  {
    'A' <= c <= 'Z' || '2' <= c <= '7'
  }

  /** The value of an alphabet character. */
  function DigitValue(c: char): (v: nat)
    requires IsDigitChar(c)
    ensures v < 32 && Digit(v) == c
  {
    if 'A' <= c <= 'Z' then c as int - 'A' as int else c as int - '2' as int + 26
  }

  lemma DigitValueDigit(v: nat)
    requires v < 32
    ensures DigitValue(Digit(v)) == v
  {
  }

  function DigitChars(ds: seq<nat>): (s: string)
    requires forall i | 0 <= i < |ds| :: ds[i] < 32
    ensures |s| == |ds| && forall i | 0 <= i < |s| :: IsDigitChar(s[i])
  {
    seq(|ds|, i requires 0 <= i < |ds| => Digit(ds[i]))
  }

  function CharDigits(s: string): (ds: seq<nat>)
    requires forall i | 0 <= i < |s| :: IsDigitChar(s[i])
    ensures |ds| == |s| && forall i | 0 <= i < |ds| :: ds[i] < 32
  {
    seq(|s|, i requires 0 <= i < |s| => DigitValue(s[i]))
  }

  lemma CharDigitsChars(ds: seq<nat>)
    requires forall i | 0 <= i < |ds| :: ds[i] < 32
    ensures CharDigits(DigitChars(ds)) == ds
  {
    var s := DigitChars(ds);
    forall i | 0 <= i < |ds| ensures CharDigits(s)[i] == ds[i] {
      DigitValueDigit(ds[i]);
    }
  }

  /** The zero bits that fill the last 5-bit group of an `n`-bit string. */
  function Fill(n: nat): (z: Bits)
    ensures |z| < 5 && (n + |z|) % 5 == 0
    ensures forall i | 0 <= i < |z| :: !z[i]
  {
    seq((5 - n % 5) % 5, _ => false)
  }

  /** The alphabet characters of the encoding, before the `=` padding. */
  function EncodeDigits(s: seq<byte>): (r: string)
    ensures |r| == (8 * |s| + |Fill(8 * |s|)|) / 5
    ensures forall i | 0 <= i < |r| :: IsDigitChar(r[i])
  {
    var bits := ByteBits(s);
    DigitChars(PackDigits(bits + Fill(|bits|)))
  }

  /** The number of `=` characters that complete a quantum of 8 characters. */
  function PadCount(n: nat): (k: nat)
    ensures k < 8 && (n + k) % 8 == 0
  {
    (8 - n % 8) % 8
  }

  /** `base64.b32encode`. */
  function Encode(s: seq<byte>): (r: string)
    ensures |r| % 8 == 0
  {
    var body := EncodeDigits(s);
    body + Repeat('=', PadCount(|body|))
  }

  /** The number of bits of `n` that make up whole bytes. */
  function WholeBytes(n: nat): (m: nat)
    ensures m <= n && m % 8 == 0 && n - m < 8
  {
    n - n % 8
  }

  lemma WholeBytesOf(k: nat, f: nat)
    requires f < 8
    ensures WholeBytes(8 * k + f) == 8 * k
  {
    assert (8 * k + f) % 8 == f;
  }

  /** The outcome of `base64.b32decode`: the bytes, or the `TypeError` it raises. */
  datatype Decoded = Bytes(value: seq<byte>) | IncorrectPadding | NonBase32Digit

  /** `base64.b32decode` without case folding or `01` mapping: the length must be a multiple
      of 8; the trailing `=` characters are dropped; every remaining character must be in the
      alphabet; the number of `=` characters must be 0, 1, 3, 4 or 6, and the bytes are the
      complete bytes the remaining characters' bits hold (the leftover bits are ignored). */
  function Decode(s: string): (r: Decoded)
    ensures r.Bytes? ==> |s| % 8 == 0
  {
    if |s| % 8 != 0 then IncorrectPadding
    else
      var body := StripRight(s, '=');
      var padding := |s| - |body|;
      if !(forall i | 0 <= i < |body| :: IsDigitChar(body[i])) then NonBase32Digit
      else if !(padding == 0 || padding == 1 || padding == 3 || padding == 4 || padding == 6) then IncorrectPadding
      else
        var bits := DigitBits(CharDigits(body));
        Bytes(PackBytes(bits[..WholeBytes(|bits|)]))
  }

  /** The alphabet digits of the encoding have no `=` among them, and the padding brings
      the length up to the quantum: 0, 2, 4, 5 or 7 characters of the last quantum are
      digits as the length of the input is 0, 1, 2, 3 or 4 modulo 5. */
  lemma {:induction false} EncodeDigitsLength(s: seq<byte>)
    ensures var n := |EncodeDigits(s)|;
      n == 8 * (|s| / 5) + (if |s| % 5 == 0 then 0 else if |s| % 5 == 1 then 2
                            else if |s| % 5 == 2 then 4 else if |s| % 5 == 3 then 5 else 7)
  {
    var q, r := |s| / 5, |s| % 5;
    assert |s| == 5 * q + r;
    assert 8 * |s| == 40 * q + 8 * r;
    assert (8 * |s|) % 5 == (3 * r) % 5;
  }

  /** The alphabet part fills whole quanta exactly when the input fills whole 5-byte groups. */
  lemma EncodeDigitsWhole(s: seq<byte>)
    ensures |EncodeDigits(s)| % 8 == 0 <==> |s| % 5 == 0
  {
    EncodeDigitsLength(s);
    var n := |EncodeDigits(s)|;
    var q := |s| / 5;
    assert n % 8 == (n - 8 * q) % 8;
  }

  /** The number of `=` characters the encoding ends with is 6, 4, 3 or 1 for an input whose
      length is 1, 2, 3 or 4 modulo 5, and none for a multiple of 5. */
  lemma EncodePadding(s: seq<byte>)
    ensures PadCount(|EncodeDigits(s)|) == (if |s| % 5 == 0 then 0 else if |s| % 5 == 1 then 6
                                           else if |s| % 5 == 2 then 4 else if |s| % 5 == 3 then 3 else 1)
  {
    EncodeDigitsLength(s);
  }

  /** Decoding undoes encoding. */
  lemma {:induction false} DecodeEncode(s: seq<byte>)
    ensures Decode(Encode(s)) == Bytes(s)
  {
    var body := EncodeDigits(s);
    var k := PadCount(|body|);
    var e := Encode(s);
    assert body == [] || body[|body| - 1] != '=';
    StripRightPadding(body, '=', k);
    assert StripRight(e, '=') == body;
    EncodePadding(s);
    assert |e| - |body| == k;
    assert k == 0 || k == 1 || k == 3 || k == 4 || k == 6;
    DecodeDigits(e, body);
    DecodeBits(s);
  }

  /** Text of whole quanta whose alphabet part is `body`, followed by an allowed number of
      `=`, decodes to the whole bytes of the bits of `body`. */
  lemma DecodeDigits(e: string, body: string)
    requires |e| % 8 == 0 && StripRight(e, '=') == body
    requires forall i | 0 <= i < |body| :: IsDigitChar(body[i])
    requires var k := |e| - |body|; k == 0 || k == 1 || k == 3 || k == 4 || k == 6
    ensures var bits := DigitBits(CharDigits(body));
      Decode(e) == Bytes(PackBytes(bits[..WholeBytes(|bits|)]))
  {
  }

  /** The bits the digits of the encoding carry are the input's bits, then the zero fill. */
  lemma {:induction false} DecodeBits(s: seq<byte>)
    ensures var bits := DigitBits(CharDigits(EncodeDigits(s)));
      PackBytes(bits[..WholeBytes(|bits|)]) == s
  {
    var bits := ByteBits(s);
    var padded := bits + Fill(|bits|);
    var ds := PackDigits(padded);
    CharDigitsChars(ds);
    assert CharDigits(EncodeDigits(s)) == ds;
    DigitBitsPack(padded);
    WholeBytesOf(|s|, |Fill(|bits|)|);
    assert padded[..|bits|] == bits;
    PackByteBits(s);
  }

  /** The alphabet part of the encoding already determines the input. */
  lemma EncodeDigitsInjective(s: seq<byte>, t: seq<byte>)
    requires EncodeDigits(s) == EncodeDigits(t)
    ensures s == t
  {
    DecodeBits(s);
    DecodeBits(t);
  }

  /** Encoding is one-to-one. */
  lemma EncodeInjective(s: seq<byte>, t: seq<byte>)
    requires Encode(s) == Encode(t)
    ensures s == t
  {
    DecodeEncode(s);
    DecodeEncode(t);
  }

  lemma PackDigitsCons(v: nat, rest: Bits)
    requires v < 32 && |rest| % 5 == 0
    ensures PackDigits(NatBits(v, 5) + rest) == [v] + PackDigits(rest)
  {
    var bs := NatBits(v, 5) + rest;
    assert bs[..5] == NatBits(v, 5) && bs[5..] == rest;
    ValueOfBits(v, 5);
  }

  lemma {:induction false} PackDigitBits(ds: seq<nat>)
    requires forall i | 0 <= i < |ds| :: ds[i] < 32
    ensures PackDigits(DigitBits(ds)) == ds
    decreases |ds|
  {
    if ds != [] {
      PackDigitBits(ds[1..]);
      PackDigitsCons(ds[0], DigitBits(ds[1..]));
    }
  }

  /** The encoding's digits are `ds` when the input's bits, filled, are the bits of `ds`. */
  lemma EncodeDigitsOf(s: seq<byte>, ds: seq<nat>)
    requires forall i | 0 <= i < |ds| :: ds[i] < 32
    requires ByteBits(s) + Fill(8 * |s|) == DigitBits(ds)
    ensures EncodeDigits(s) == DigitChars(ds)
  {
    PackDigitBits(ds);
  }

  lemma Pow2Values()
    ensures Pow2(1) == 2 && Pow2(5) == 32 && Pow2(8) == 256
  {
    assert Pow2(1) == 2;
    assert Pow2(2) == 4;
    assert Pow2(3) == 8;
    assert Pow2(4) == 16;
    assert Pow2(5) == 32;
    assert Pow2(6) == 64;
    assert Pow2(7) == 128;
  }

  /** The value of two bit strings one after the other. */
  lemma {:induction false} ValueAppend(a: Bits, b: Bits)
    ensures BitsValue(a + b) == BitsValue(a) * Pow2(|b|) + BitsValue(b)
    decreases |b|
  {
    if b == [] {
      assert a + b == a;
    } else {
      var front := b[..|b| - 1];
      var l := if b[|b| - 1] then 1 else 0;
      assert (a + b)[..|a + b| - 1] == a + front;
      assert (a + b)[|a + b| - 1] == b[|b| - 1];
      assert BitsValue(a + b) == 2 * BitsValue(a + front) + l;
      assert BitsValue(b) == 2 * BitsValue(front) + l;
      assert Pow2(|b|) == 2 * Pow2(|front|);
      ValueAppend(a, front);
      ShiftStep(BitsValue(a), Pow2(|front|), BitsValue(front), l);
    }
  }

  lemma ShiftStep(x: int, p: int, f: int, l: int)
    ensures 2 * (x * p + f) + l == x * (2 * p) + (2 * f + l)
  {
  }

  /** Bit strings of the same length and value are equal. */
  lemma SameValue(a: Bits, b: Bits)
    requires |a| == |b| && BitsValue(a) == BitsValue(b)
    ensures a == b
  {
    BitsOfValue(a);
    BitsOfValue(b);
  }

  /** `ValueAppend` with the values already known. */
  lemma AppendValue(a: Bits, b: Bits, va: nat, vb: nat, k: nat)
    requires BitsValue(a) == va && BitsValue(b) == vb && Pow2(|b|) == k
    ensures BitsValue(a + b) == va * k + vb
  {
    ValueAppend(a, b);
  }

  /** The value of three bytes followed by the one zero bit that fills them to five digits. */
  lemma BytesValue(x: byte, y: byte, z: byte)
    ensures BitsValue(ByteBits([x, y, z]) + Fill(24)) == ((x * 256 + y) * 256 + z) * 2
  {
    Pow2Values();
    var s: seq<byte> := [x, y, z];
    var bx, bw, bz := NatBits(x, 8), NatBits(y, 8), NatBits(z, 8);
    assert [z][1..] == [];
    assert ByteBits([z]) == bz;
    assert [y, z][1..] == [z];
    assert ByteBits([y, z]) == bw + bz;
    assert s[1..] == [y, z];
    assert ByteBits(s) == bx + (bw + bz);
    assert Fill(24) == [false];
    assert ByteBits(s) + Fill(24) == bx + bw + bz + [false];
    ValueOfBits(x, 8);
    ValueOfBits(y, 8);
    ValueOfBits(z, 8);
    AppendValue(bx, bw, x, y, 256);
    AppendValue(bx + bw, bz, x * 256 + y, z, 256);
    assert BitsValue([false]) == 0;
    AppendValue(bx + bw + bz, [false], (x * 256 + y) * 256 + z, 0, 2);
  }

  /** The value of the bits of five digits. */
  lemma FiveDigitsValue(a: nat, b: nat, c: nat, d: nat, e: nat)
    requires a < 32 && b < 32 && c < 32 && d < 32 && e < 32
    ensures BitsValue(DigitBits([a, b, c, d, e])) == (((a * 32 + b) * 32 + c) * 32 + d) * 32 + e
  {
    var d0, d1, d2, d3, d4 := NatBits(a, 5), NatBits(b, 5), NatBits(c, 5), NatBits(d, 5), NatBits(e, 5);
    assert [e][1..] == [];
    assert DigitBits([e]) == d4;
    assert [d, e][1..] == [e];
    assert DigitBits([d, e]) == d3 + d4;
    assert [c, d, e][1..] == [d, e];
    assert DigitBits([c, d, e]) == d2 + (d3 + d4);
    assert [b, c, d, e][1..] == [c, d, e];
    assert DigitBits([b, c, d, e]) == d1 + (d2 + (d3 + d4));
    assert [a, b, c, d, e][1..] == [b, c, d, e];
    assert DigitBits([a, b, c, d, e]) == d0 + (d1 + (d2 + (d3 + d4)));
    assert d0 + (d1 + (d2 + (d3 + d4))) == d0 + d1 + d2 + d3 + d4;
    ValueOfBits(a, 5);
    ValueOfBits(b, 5);
    ValueOfBits(c, 5);
    ValueOfBits(d, 5);
    ValueOfBits(e, 5);
    FiveValues(d0, d1, d2, d3, d4, a, b, c, d, e);
  }

  lemma FiveValues(d0: Bits, d1: Bits, d2: Bits, d3: Bits, d4: Bits, e0: nat, e1: nat, e2: nat, e3: nat, e4: nat)
    requires |d1| == 5 && |d2| == 5 && |d3| == 5 && |d4| == 5
    requires BitsValue(d0) == e0 && BitsValue(d1) == e1 && BitsValue(d2) == e2
    requires BitsValue(d3) == e3 && BitsValue(d4) == e4
    ensures BitsValue(d0 + d1 + d2 + d3 + d4) == (((e0 * 32 + e1) * 32 + e2) * 32 + e3) * 32 + e4
  {
    Pow2Values();
    var v1 := e0 * 32 + e1;
    AppendValue(d0, d1, e0, e1, 32);
    var v2 := v1 * 32 + e2;
    AppendValue(d0 + d1, d2, v1, e2, 32);
    var v3 := v2 * 32 + e3;
    AppendValue(d0 + d1 + d2, d3, v2, e3, 32);
    AppendValue(d0 + d1 + d2 + d3, d4, v3, e4, 32);
  }

  /** Three bytes, filled with one zero bit, carry the bits of five digits when they denote
      the same number. */
  lemma ThreeBytes(x: byte, y: byte, z: byte, ds: seq<nat>)
    requires |ds| == 5 && forall i | 0 <= i < 5 :: ds[i] < 32
    requires ((x * 256 + y) * 256 + z) * 2 == (((ds[0] * 32 + ds[1]) * 32 + ds[2]) * 32 + ds[3]) * 32 + ds[4]
    ensures ByteBits([x, y, z]) + Fill(24) == DigitBits(ds)
  {
    BytesValue(x, y, z);
    assert ds == [ds[0], ds[1], ds[2], ds[3], ds[4]];
    FiveDigitsValue(ds[0], ds[1], ds[2], ds[3], ds[4]);
    SameValue(ByteBits([x, y, z]) + Fill(24), DigitBits(ds));
  }

  /** The vectors `b32encode("abc") == "MFRGG==="` and `b32encode("def") == "MRSWM==="`. */
  lemma EncodeVectors()
    ensures Encode([97, 98, 99]) == "MFRGG==="
    ensures Encode([100, 101, 102]) == "MRSWM==="
  {
    EncodeAbc();
    EncodeDef();
  }

  lemma EncodeAbc()
    ensures Encode([97, 98, 99]) == "MFRGG==="
  {
    ThreeBytes(97, 98, 99, [12, 5, 17, 6, 6]);
    assert DigitChars([12, 5, 17, 6, 6]) == "MFRGG";
    EncodeThree([97, 98, 99], [12, 5, 17, 6, 6], "MFRGG");
  }

  lemma EncodeDef()
    ensures Encode([100, 101, 102]) == "MRSWM==="
  {
    ThreeBytes(100, 101, 102, [12, 17, 18, 22, 12]);
    assert DigitChars([12, 17, 18, 22, 12]) == "MRSWM";
    EncodeThree([100, 101, 102], [12, 17, 18, 22, 12], "MRSWM");
  }

  /** Three bytes whose bits are those of five digits encode as those digits and three `=`. */
  lemma EncodeThree(s: seq<byte>, ds: seq<nat>, text: string)
    requires |s| == 3 && |ds| == 5 && forall i | 0 <= i < 5 :: ds[i] < 32
    requires ByteBits(s) + Fill(24) == DigitBits(ds) && DigitChars(ds) == text
    ensures Encode(s) == text + "==="
  {
    EncodeDigitsOf(s, ds);
    assert PadCount(5) == 3;
    assert Repeat('=', 3) == "===";
  }
}
