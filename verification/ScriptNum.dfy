/**
 Bitcoin script numbers: little-endian bytes whose top bit is a sign, with the
 minimal-encoding rule (`scriptNum` and `minimallyEncoded` in wasm/htlc.go).
 */
module ScriptNum {
  import opened Prelude

  /** The unsigned value of little-endian bytes. */
  function LittleEndian(data: Bytes): (n: nat)
    ensures n < Pow256(|data|)
  {
    if data == [] then 0 else data[0] + 256 * LittleEndian(data[1..])
  }

  /** The base-256 digits of `n`, low digit first, without a leading zero digit. */
  function Magnitude(n: nat): (bs: Bytes)
    ensures n > 0 ==> bs != [] && bs[|bs| - 1] != 0
    ensures n == 0 ==> bs == []
  {
    if n == 0 then [] else [n % 256] + Magnitude(n / 256)
  }

  /** Adds the sign: in the top bit of the last digit when it is free, in a byte of its own otherwise. */
  function Signed(m: Bytes, negative: bool): Bytes {
    if m == [] then []
    else if m[|m| - 1] >= 128 then m + [if negative then 128 else 0]
    else if negative then m[..|m| - 1] + [m[|m| - 1] + 128]
    else m
  }

  /** The one minimal encoding of a number. */
  function Encode(n: int): Bytes {
    if n < 0 then Signed(Magnitude(-n), true) else Signed(Magnitude(n), false)
  }

  /** The number that bytes stand for, whether or not they are minimal. */
  function Decode(data: Bytes): int {
    if data == [] then 0
    else if data[|data| - 1] >= 128 then -(LittleEndian(data) - 128 * Pow256(|data| - 1))
    else LittleEndian(data)
  }

  /** The most significant byte carries a digit, or a sign the byte below leaves no room for. */
  predicate MinimallyEncoded(data: Bytes) {
    data == []
    || data[|data| - 1] % 128 != 0
    || (|data| > 1 && data[|data| - 2] >= 128)
  }

  lemma {:induction false} LittleEndianAppend(data: Bytes, b: byte)
    ensures LittleEndian(data + [b]) == LittleEndian(data) + b * Pow256(|data|)
  {
    if data == [] {
      assert data + [b] == [b];
      assert LittleEndian([b]) == b + 256 * LittleEndian([]);
    } else {
      assert (data + [b])[1..] == data[1..] + [b];
      LittleEndianAppend(data[1..], b);
      Distribute(b, Pow256(|data| - 1));
    }
  }

  lemma Distribute(b: int, p: int)
    ensures b * (256 * p) == 256 * (b * p)
  {
  }

  lemma {:induction false} MagnitudeValue(n: nat)
    ensures LittleEndian(Magnitude(n)) == n
  {
    if n > 0 {
      MagnitudeValue(n / 256);
      assert Magnitude(n)[1..] == Magnitude(n / 256);
    }
  }

  lemma {:induction false} MagnitudeUnique(data: Bytes)
    requires data != [] ==> data[|data| - 1] != 0
    ensures Magnitude(LittleEndian(data)) == data
  {
    if data != [] {
      var rest := data[1..];
      if rest != [] {
        assert rest[|rest| - 1] == data[|data| - 1];
      }
      MagnitudeUnique(rest);
      var n := LittleEndian(data);
      assert n % 256 == data[0] && n / 256 == LittleEndian(rest);
      if rest != [] {
        PositiveValue(rest);
      }
      assert data == [data[0]] + rest;
    }
  }

  /** Splits off the most significant byte. */
  lemma TopByte(data: Bytes)
    requires data != []
    ensures LittleEndian(data) == LittleEndian(data[..|data| - 1]) + data[|data| - 1] * Pow256(|data| - 1)
  {
    hide *;
    assert data == data[..|data| - 1] + [data[|data| - 1]];
    LittleEndianAppend(data[..|data| - 1], data[|data| - 1]);
  }

  /** What a sign does to a magnitude is undone by decoding it. */
  lemma DecodeSigned(m: Bytes, negative: bool)
    requires m != [] ==> m[|m| - 1] != 0
    ensures Decode(Signed(m, negative)) == (if negative then 0 - LittleEndian(m) else LittleEndian(m))
    ensures MinimallyEncoded(Signed(m, negative))
  {
    hide Decode, Signed, MinimallyEncoded, LittleEndian;
    if m == [] {
      DecodeUnsigned(m, negative);
    } else if m[|m| - 1] >= 128 {
      DecodeSignByte(m, negative);
    } else if negative {
      DecodeSignBit(m);
    } else {
      DecodeUnsigned(m, negative);
    }
  }

  /** Nothing to sign, or room for no sign. */
  lemma DecodeUnsigned(m: Bytes, negative: bool)
    requires m == [] || (!negative && 0 < m[|m| - 1] < 128)
    ensures Decode(Signed(m, negative)) == LittleEndian(m) && (m == [] ==> LittleEndian(m) == 0)
    ensures MinimallyEncoded(Signed(m, negative))
  {
    hide Pow256;
    if m != [] {
      hide LittleEndian;
      assert Signed(m, negative) == m;
    }
  }

  lemma DecodeSignByte(m: Bytes, negative: bool)
    requires m != [] && m[|m| - 1] >= 128
    ensures Decode(Signed(m, negative)) == (if negative then 0 - LittleEndian(m) else LittleEndian(m))
    ensures MinimallyEncoded(Signed(m, negative))
  {
    hide LittleEndian, Pow256;
    LittleEndianAppend(m, if negative then 128 else 0);
    var s := Signed(m, negative);
    assert s[|s| - 2] == m[|m| - 1];
  }

  lemma DecodeSignBit(m: Bytes)
    requires m != [] && 0 < m[|m| - 1] < 128
    ensures Decode(Signed(m, true)) == 0 - LittleEndian(m)
    ensures MinimallyEncoded(Signed(m, true))
  {
    hide LittleEndian, Pow256;
    var init, top := m[..|m| - 1], m[|m| - 1];
    TopByte(m);
    LittleEndianAppend(init, top + 128);
    SignBitWeight(top, Pow256(|init|));
  }

  lemma SignBitWeight(top: int, p: int)
    ensures (top + 128) * p == top * p + 128 * p
  {
  }

  /** Decoding inverts encoding, and what is encoded is minimal. */
  lemma DecodeEncode(n: int)
    ensures Decode(Encode(n)) == n
    ensures MinimallyEncoded(Encode(n))
  {
    if n < 0 {
      MagnitudeValue(-n);
      DecodeSigned(Magnitude(-n), true);
    } else {
      MagnitudeValue(n);
      DecodeSigned(Magnitude(n), false);
    }
  }

  /** A minimal encoding is the only one its number has. */
  lemma EncodeDecode(data: Bytes)
    requires MinimallyEncoded(data)
    ensures Encode(Decode(data)) == data
  {
    if data == [] { return; }
    var init, top := data[..|data| - 1], data[|data| - 1];
    var negative := top >= 128;
    var digit := top % 128;
    var m: Bytes := if digit == 0 then init else init + [digit];
    assert data == init + [top];
    if digit == 0 {
      assert init[|init| - 1] == data[|data| - 2];
    }
    assert Signed(m, negative) == data;
    DecodeSigned(m, negative);
    MagnitudeUnique(m);
    PositiveValue(m);
  }

  lemma {:induction false} PositiveValue(m: Bytes)
    requires m != [] && m[|m| - 1] != 0
    ensures LittleEndian(m) > 0
  {
    hide *;
    TopByte(m);
    PositiveProduct(m[|m| - 1], Pow256(|m| - 1));
  }

  lemma PositiveProduct(a: int, b: int)
    requires a > 0 && b > 0
    ensures a * b > 0
  {
  }

  lemma EncodeInjective(a: int, b: int)
    ensures Encode(a) == Encode(b) ==> a == b
  {
    DecodeEncode(a);
    DecodeEncode(b);
  }

  /** Timestamps up to 2038 take four bytes; the rest of the uint32 range takes five. */
  lemma LockTimeWidth(n: nat)
    requires 500_000_000 <= n <= 0xFFFF_FFFF
    ensures |Encode(n)| == if n < 0x8000_0000 then 4 else 5
  {
    var d := n / 256 / 256 / 256;
    assert d > 0 && d < 256;
    assert d / 256 == 0;
    assert Magnitude(d) == [d % 256] + Magnitude(d / 256);
    assert Magnitude(d) == [d];
    var c := n / 256 / 256;
    assert Magnitude(c) == [c % 256] + Magnitude(d);
    var b := n / 256;
    assert Magnitude(b) == [b % 256] + Magnitude(c);
    assert Magnitude(n) == [n % 256] + Magnitude(b);
    assert Magnitude(n)[3] == d;
    assert |Magnitude(n)| == 4;
  }

  /** Numbers from 17 to 127 are a single byte: the contract's secret size is one of them. */
  lemma SmallNumber(n: nat)
    requires 0 < n < 128
    ensures Encode(n) == [n]
  {
    assert n / 256 == 0;
    assert Magnitude(n) == [n % 256] + Magnitude(0);
    assert Magnitude(n) == [n];
  }
}
