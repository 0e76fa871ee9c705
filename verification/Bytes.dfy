/** Bytes, 32-byte keys, little-endian integers, and writing a field into an account buffer. */
module Bytes {
  type byte = x: int | 0 <= x < 256

  /** An address, a nonce, a hash: 32 bytes. */
  type Key = s: seq<byte> | |s| == 32 witness seq(32, _ => 0)

  const U64: int := 0x1_0000_0000_0000_0000
  const I64_SIGN: int := 0x8000_0000_0000_0000

  function Zeros(n: nat): (s: seq<byte>)
    ensures |s| == n
  {
    seq(n, _ => 0)
  }

  /** The all-zero key; on chain it is also the address of the system program. */
  const ZERO: Key := Zeros(32)

  function Pow256(k: nat): (p: nat)
    ensures p > 0
  {
    if k == 0 then 1 else 256 * Pow256(k - 1)
  }

  function LE(s: seq<byte>): (n: nat)
    ensures n < Pow256(|s|)
  {
    if s == [] then 0 else s[0] + 256 * LE(s[1..])
  }

  function ToLE(n: nat, k: nat): (s: seq<byte>)
    ensures |s| == k
  {
    if k == 0 then [] else [n % 256] + ToLE(n / 256, k - 1)
  }

  lemma {:induction false} ReadBack(n: nat, k: nat)
    requires n < Pow256(k)
    ensures LE(ToLE(n, k)) == n
  {
    if k > 0 {
      ReadBack(n / 256, k - 1);
      assert ToLE(n, k)[1..] == ToLE(n / 256, k - 1);
    }
  }

  lemma {:induction false} WriteBack(s: seq<byte>)
    ensures ToLE(LE(s), |s|) == s
  {
    if s != [] {
      WriteBack(s[1..]);
      assert LE(s) % 256 == s[0] && LE(s) / 256 == LE(s[1..]);
      assert s == [s[0]] + s[1..];
    }
  }

  lemma Widths()
    ensures Pow256(1) == 256 && Pow256(2) == 0x1_0000 && Pow256(4) == 0x1_0000_0000 && Pow256(8) == U64
  {
    assert Pow256(1) == 256 * Pow256(0);
    assert Pow256(2) == 256 * Pow256(1);
    assert Pow256(3) == 256 * Pow256(2);
    assert Pow256(4) == 256 * Pow256(3);
    assert Pow256(5) == 256 * Pow256(4);
    assert Pow256(6) == 256 * Pow256(5);
    assert Pow256(7) == 256 * Pow256(6);
    assert Pow256(8) == 256 * Pow256(7);
  }

  /** An unsigned 64-bit field. */
  function U64Of(s: seq<byte>): (n: nat)
    requires |s| == 8
    ensures n < U64
  {
    Widths();
    LE(s)
  }

  function U64Bytes(n: nat): (s: seq<byte>)
    requires n < U64
    ensures |s| == 8 && U64Of(s) == n
  {
    Widths();
    ReadBack(n, 8);
    ToLE(n, 8)
  }

  /** A signed 64-bit field in two's complement. */
  function I64Of(s: seq<byte>): (i: int)
    requires |s| == 8
    ensures -I64_SIGN <= i < I64_SIGN
  {
    var n := U64Of(s);
    if n < I64_SIGN then n else n - U64
  }

  function I64Bytes(i: int): (s: seq<byte>)
    requires -I64_SIGN <= i < I64_SIGN
    ensures |s| == 8 && I64Of(s) == i
  {
    U64Bytes(if i < 0 then i + U64 else i)
  }

  /** Eight bytes are the number they read as, written again. */
  lemma NumbersWriteBack(s: seq<byte>)
    requires |s| == 8
    ensures U64Bytes(U64Of(s)) == s && I64Bytes(I64Of(s)) == s
  {
    Widths();
    WriteBack(s);
  }

  /** `buffer[off..off + |x|].copy_from_slice(x)`. */
  function Put(buffer: seq<byte>, off: nat, x: seq<byte>): (b: seq<byte>)
    requires off + |x| <= |buffer|
    ensures |b| == |buffer|
    ensures b[off..off + |x|] == x
    ensures forall lo, hi {:trigger b[lo..hi]} ::
        0 <= lo <= hi <= |b| && (hi <= off || off + |x| <= lo) ==> b[lo..hi] == buffer[lo..hi]
    ensures forall i {:trigger b[i]} :: 0 <= i < |b| && (i < off || off + |x| <= i) ==> b[i] == buffer[i]
  {
    buffer[..off] + x + buffer[off + |x|..]
  }
}
