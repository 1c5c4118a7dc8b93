/** Bytes and big-endian numbers, as read and written by `encoding/binary`. */
module Bytes {

  type byte = x: int | 0 <= x < 256

  function Pow256(n: nat): nat
  {
    if n == 0 then 1 else 256 * Pow256(n - 1)
  }

  // The n low-order bytes of v, most significant first.
  function Put(n: nat, v: nat): (s: seq<byte>)
    ensures |s| == n
  {
    if n == 0 then [] else Put(n - 1, v / 256) + [v % 256]
  }

  function Get(s: seq<byte>): nat
  {
    if s == [] then 0 else Get(s[..|s| - 1]) * 256 + s[|s| - 1]
  }

  lemma Widths()
    ensures Pow256(1) == 0x100 && Pow256(2) == 0x1_0000 && Pow256(4) == 0x1_0000_0000
    ensures Pow256(8) == 0x1_0000_0000_0000_0000
  {
    assert Pow256(3) == 0x100_0000;
    assert Pow256(4) == 0x1_0000_0000;
    assert Pow256(5) == 0x100_0000_0000;
    assert Pow256(6) == 0x1_0000_0000_0000;
    assert Pow256(7) == 0x100_0000_0000_0000;
  }

  /** A number that fits its width survives being written and read. */
  lemma {:induction false} GetPut(n: nat, v: nat)
    requires v < Pow256(n)
    ensures Get(Put(n, v)) == v
  {
    if n > 0 {
      GetPut(n - 1, v / 256);
      var s := Put(n, v);
      assert s[..|s| - 1] == Put(n - 1, v / 256);
    }
  }

  /** Bytes survive being read and written. */
  lemma {:induction false} PutGet(s: seq<byte>)
    ensures Get(s) < Pow256(|s|) && Put(|s|, Get(s)) == s
  {
    if s != [] {
      var front, last := s[..|s| - 1], s[|s| - 1];
      PutGet(front);
      assert (Get(front) * 256 + last) / 256 == Get(front);
      assert front + [last] == s;
    }
  }

  // The bytes of `a` with those from `off` on overwritten by `s`.
  function Spliced(a: seq<byte>, off: nat, s: seq<byte>): (r: seq<byte>)
    requires off + |s| <= |a|
    ensures |r| == |a|
  {
    a[..off] + s + a[off + |s|..]
  }

  method Copy(out: array<byte>, off: nat, s: seq<byte>)
    requires off + |s| <= out.Length
    modifies out
    ensures out[..] == Spliced(old(out[..]), off, s)
  {
    var i := 0;
    while i < |s|
      invariant 0 <= i <= |s|
      invariant forall k :: 0 <= k < i ==> out[off + k] == s[k]
      invariant forall k :: 0 <= k < out.Length && !(off <= k < off + i) ==> out[k] == old(out[k])
    {
      out[off + i] := s[i];
      i := i + 1;
    }
    assert forall k :: 0 <= k < out.Length ==> out[..][k] == Spliced(old(out[..]), off, s)[k];
  }

  lemma PutStep(n: nat, v: nat, tail: seq<byte>)
    ensures Put(n + 1, v) + tail == Put(n, v / 256) + ([v % 256] + tail)
  {
  }

  method PutBigEndian(out: array<byte>, off: nat, n: nat, v: nat)
    requires off + n <= out.Length
    modifies out
    ensures out[..] == Spliced(old(out[..]), off, Put(n, v))
  {
    ghost var before := out[..];
    var rest, i := v, n;
    while i > 0
      invariant 0 <= i <= n
      invariant Put(n, v) == Put(i, rest) + out[off + i..off + n]
      invariant out[..off] == before[..off] && out[off + n..] == before[off + n..]
    {
      ghost var tail := out[off + i..off + n];
      i := i - 1;
      out[off + i] := rest % 256;
      assert out[off + i + 1..off + n] == tail;
      assert out[off + i..off + n] == [rest % 256] + tail;
      PutStep(i, rest, tail);
      rest := rest / 256;
    }
    assert out[..] == out[..off] + out[off..off + n] + out[off + n..];
  }
}
