/**
 Base 128 varints (Protocol Buffers Encoding, section "Base 128 Varints"): seven bits to a byte, least significant first,
 the high bit set on every byte but the last; at most ten bytes, for values below 2^64.
 */
module Varint {
  import opened Basics
  import opened Bytes

  const MAX_VARINT: nat := 10
  const UINT64: nat := 0x1_0000_0000_0000_0000

  function Pow128(n: nat): (p: nat)
    ensures p > 0
  {
    if n == 0 then 1 else 128 * Pow128(n - 1)
  }

  // The number a group of bytes stands for, the high bits aside.
  function Base128(s: seq<byte>): nat {
    if s == [] then 0 else s[0] % 128 + 128 * Base128(s[1..])
  }

  // How many bytes in front have the high bit set.
  function Leading(s: seq<byte>): (k: nat)
    ensures k <= |s|
  {
    if s == [] || s[0] < 128 then 0 else 1 + Leading(s[1..])
  }

  lemma {:induction false} LeadingShape(s: seq<byte>)
    ensures forall i :: 0 <= i < Leading(s) ==> s[i] >= 128
    ensures Leading(s) < |s| ==> s[Leading(s)] < 128
  {
    if s != [] && s[0] >= 128 {
      LeadingShape(s[1..]);
    }
  }

  lemma {:induction false} LeadingIs(s: seq<byte>, k: nat)
    requires k <= |s| && (forall i :: 0 <= i < k ==> s[i] >= 128) && (k < |s| ==> s[k] < 128)
    ensures Leading(s) == k
  {
    if k > 0 {
      LeadingIs(s[1..], k - 1);
    }
  }

  datatype Parsed = Parsed(value: nat, size: nat)

  // The varint in front of s: ended within ten bytes, the tenth at most 1.
  function Uvarint(s: seq<byte>): Option<Parsed> {
    var k := Leading(s);
    if k < |s| && k < MAX_VARINT && (k == MAX_VARINT - 1 ==> s[k] <= 1) then Some(Parsed(Base128(s[..k + 1]), k + 1))
    else None
  }

  /** The decoder's loop. A size of 0 says the bytes ran out, -1 that the varint is too long or too large. A group is added
      where the program sets its bits: they lie above those already set. Only a tenth byte could pass 64 bits, and then no
      value is returned. */
  method BinaryUvarint(s: seq<byte>) returns (value: nat, size: int)
    ensures size > 0 ==> Uvarint(s) == Some(Parsed(value, size))
    ensures size <= 0 ==> Uvarint(s) == None && value == 0
    ensures size == 0 <==> Leading(s) == |s| <= MAX_VARINT
    ensures size >= -1
  {
    var x: nat, scale: nat, i: nat := 0, 1, 0;
    while i < |s|
      invariant 0 <= i <= |s| && i <= MAX_VARINT
      invariant forall k :: 0 <= k < i ==> s[k] >= 128
      invariant scale == Pow128(i) && x == Base128(s[..i])
    {
      if i == MAX_VARINT {
        TooLong(s);
        return 0, -1;
      }
      GroupGrows(s, i);
      if s[i] < 128 {
        LeadingIs(s, i);
        if i == MAX_VARINT - 1 && s[i] > 1 {
          return 0, -1;
        }
        return x + s[i] * scale, i + 1;
      }
      x := x + s[i] % 128 * scale;
      scale := scale * 128;
      i := i + 1;
    }
    LeadingIs(s, |s|);
    return 0, 0;
  }

  lemma TooLong(s: seq<byte>)
    requires |s| > MAX_VARINT && forall k :: 0 <= k < MAX_VARINT ==> s[k] >= 128
    ensures Uvarint(s) == None && Leading(s) >= MAX_VARINT
  {
    LeadingAtLeast(s, MAX_VARINT);
  }

  lemma GroupGrows(s: seq<byte>, i: nat)
    requires i < |s|
    ensures Base128(s[..i + 1]) == Base128(s[..i]) + s[i] % 128 * Pow128(i)
    ensures Pow128(i + 1) == Pow128(i) * 128
  {
    assert s[..i + 1][..i] == s[..i];
    Base128Last(s[..i + 1]);
  }

  lemma {:induction false} LeadingAtLeast(s: seq<byte>, k: nat)
    requires k <= |s| && forall i :: 0 <= i < k ==> s[i] >= 128
    ensures Leading(s) >= k
  {
    if k > 0 {
      LeadingAtLeast(s[1..], k - 1);
    }
  }

  // The last byte weighs most.
  lemma {:induction false} Base128Last(s: seq<byte>)
    requires s != []
    ensures Base128(s) == Base128(s[..|s| - 1]) + s[|s| - 1] % 128 * Pow128(|s| - 1)
  {
    if |s| == 1 {
      assert s[1..] == [] && s[..0] == [];
    } else {
      var t, front := s[1..], s[..|s| - 1];
      Base128Last(t);
      assert t[..|t| - 1] == front[1..];
      assert Base128(front) == s[0] % 128 + 128 * Base128(front[1..]);
      assert 128 * (t[|t| - 1] % 128 * Pow128(|t| - 1)) == s[|s| - 1] % 128 * Pow128(|s| - 1);
    }
  }

  lemma {:induction false} Base128Bound(s: seq<byte>)
    ensures Base128(s) < Pow128(|s|)
  {
    if s != [] {
      Base128Bound(s[1..]);
    }
  }

  lemma Pow128Values()
    ensures Pow128(9) == 0x8000_0000_0000_0000 && Pow128(10) == 128 * Pow128(9)
  {
    assert Pow128(3) == 0x20_0000;
    assert Pow128(6) == 0x20_0000 * 0x20_0000 by { assert Pow128(4) == 128 * Pow128(3) && Pow128(5) == 128 * Pow128(4); }
    assert Pow128(7) == 128 * Pow128(6) && Pow128(8) == 128 * Pow128(7) && Pow128(9) == 128 * Pow128(8);
  }

  /** A decoded value fits 64 bits and took between one and ten bytes. */
  lemma UvarintBounds(s: seq<byte>)
    requires Uvarint(s).Some?
    ensures Uvarint(s).value.value < UINT64 && 1 <= Uvarint(s).value.size <= MAX_VARINT && Uvarint(s).value.size <= |s|
  {
    var k := Leading(s);
    LeadingShape(s);
    GroupBound(s[..k + 1], k);
  }

  lemma GroupBound(group: seq<byte>, k: nat)
    requires |group| == k + 1 <= MAX_VARINT && (k == MAX_VARINT - 1 ==> group[k] <= 1)
    ensures Base128(group) < UINT64
  {
    Pow128Values();
    if k == MAX_VARINT - 1 {
      Base128Last(group);
      Base128Bound(group[..k]);
    } else {
      Base128Bound(group);
      PowGrows(k + 1, 9);
    }
  }

  lemma {:induction false} PowGrows(m: nat, n: nat)
    ensures m <= n ==> Pow128(m) <= Pow128(n)
    ensures m < n ==> 128 * Pow128(m) <= Pow128(n)
  {
    if m < n {
      PowGrows(m, n - 1);
    }
  }

  /** What follows the varint is not looked at. */
  lemma UvarintTail(s: seq<byte>, tail: seq<byte>)
    requires Uvarint(s).Some?
    ensures Uvarint(s + tail) == Uvarint(s)
  {
    var k := Leading(s);
    LeadingShape(s);
    LeadingIs(s + tail, k);
    assert (s + tail)[..k + 1] == s[..k + 1];
  }

  // ---------------------------------------------------------------------------------------------
  // The encoder the decoder inverts
  // ---------------------------------------------------------------------------------------------

  function EncodeUvarint(v: nat): (s: seq<byte>)
    ensures |s| >= 1
  {
    if v < 128 then [v] else [v % 128 + 128] + EncodeUvarint(v / 128)
  }

  lemma {:induction false} EncodedValue(v: nat)
    ensures var s := EncodeUvarint(v); Leading(s) == |s| - 1 && Base128(s) == v
  {
    var s := EncodeUvarint(v);
    if v < 128 {
      assert s[1..] == [];
    } else {
      EncodedValue(v / 128);
      assert s[1..] == EncodeUvarint(v / 128);
    }
  }

  lemma {:induction false} EncodedLength(v: nat, n: nat)
    ensures v < Pow128(n + 1) ==> |EncodeUvarint(v)| <= n + 1
    ensures v >= Pow128(n) ==> |EncodeUvarint(v)| >= n + 1
    decreases n
  {
    if n > 0 {
      EncodedLength(v / 128, n - 1);
      PowGrows(1, n);
      assert Pow128(1) == 128;
    }
  }

  // The tenth byte of an encoding is what exceeds nine groups.
  lemma TenthByte(s: seq<byte>)
    requires |s| == 10 && s[9] < 128 && Base128(s) < UINT64
    ensures s[9] <= 1
  {
    Base128Last(s);
    Pow128Values();
  }

  /** Every 64-bit value is decoded from its encoding, whatever follows it; the encoding has at most ten bytes. */
  lemma DecodeOfEncoded(v: nat, tail: seq<byte>)
    requires v < UINT64
    ensures Uvarint(EncodeUvarint(v) + tail) == Some(Parsed(v, |EncodeUvarint(v)|)) && |EncodeUvarint(v)| <= MAX_VARINT
  {
    var s := EncodeUvarint(v);
    EncodedValue(v);
    assert |s| <= 10 by {
      Pow128Values();
      EncodedLength(v, 9);
    }
    LeadingShape(s);
    if |s| == 10 {
      TenthByte(s);
    }
    assert s[..|s|] == s;
    UvarintTail(s, tail);
  }

  /** An accepted varint is the encoding of its value exactly when it does not end in a superfluous zero byte. */
  lemma {:induction false} EncodeOfDecoded(s: seq<byte>)
    requires s != [] && Leading(s) == |s| - 1
    ensures EncodeUvarint(Base128(s)) == s <==> |s| == 1 || s[|s| - 1] != 0
    ensures |EncodeUvarint(Base128(s))| <= |s|
    ensures |s| > 1 && s[|s| - 1] != 0 ==> Base128(s) >= 128
    ensures s[|s| - 1] != 0 ==> Base128(s) > 0
  {
    var v := Base128(s);
    if |s| == 1 {
      assert s[1..] == [];
    } else {
      var t := s[1..];
      assert Leading(t) == |t| - 1;
      EncodeOfDecoded(t);
      assert v == s[0] % 128 + 128 * Base128(t);
      assert v / 128 == Base128(t) && v % 128 == s[0] % 128;
      assert s == [s[0]] + t;
    }
  }

  // ---------------------------------------------------------------------------------------------
  // 32-bit codes
  // ---------------------------------------------------------------------------------------------

  // The conversion of a 64-bit value to int32: the low 32 bits, read as two's complement.
  function ToInt32(v: nat): (c: int)
    ensures -0x8000_0000 <= c < 0x8000_0000
  {
    var low := v % 0x1_0000_0000;
    if low < 0x8000_0000 then low else low - 0x1_0000_0000
  }

  // The value a code is sent as: negative codes are sign-extended to 64 bits.
  function SignExtended(c: int): (v: nat)
    requires -0x8000_0000 <= c < 0x8000_0000
    ensures v < UINT64
  {
    if c < 0 then UINT64 + c else c
  }

  /** Every int32 code survives being sent; a negative one takes ten bytes. */
  lemma CodeRoundTrip(c: int, tail: seq<byte>)
    requires -0x8000_0000 <= c < 0x8000_0000
    ensures var s := EncodeUvarint(SignExtended(c));
            && Uvarint(s + tail).Some? && Uvarint(s + tail).value.size == |s|
            && ToInt32(Uvarint(s + tail).value.value) == c
            && (c < 0 ==> |s| == MAX_VARINT)
  {
    var v := SignExtended(c);
    DecodeOfEncoded(v, tail);
    if c < 0 {
      assert |EncodeUvarint(v)| >= 10 by {
        Pow128Values();
        EncodedLength(v, 9);
      }
    }
  }
}
