/** Big-endian numbers in byte sequences, and checksums. */
module Bytes {
  import opened Basics

  /** CRC-32, left uninterpreted: only that it fits in four bytes. */
  type Checksum = c: seq<byte> -> nat | forall b :: c(b) < 0x1_0000_0000 witness (b: seq<byte>) => 0

  function Pow256(width: nat): (r: nat)
    ensures 0 < r
  {
    if width == 0 then 1 else 256 * Pow256(width - 1)
  }

  /** The `width` low-order bytes of `n`, most significant first. */
  function Be(n: nat, width: nat): (r: seq<byte>)
    ensures |r| == width
  {
    if width == 0 then [] else Be(n / 256, width - 1) + [(n % 256) as byte]
  }

  function FromBe(s: seq<byte>): nat {
    if s == [] then 0 else 256 * FromBe(s[..|s| - 1]) + s[|s| - 1] as nat
  }

  /** A number that fits the width is read back. */
  lemma {:induction false} BeRoundTrip(n: nat, width: nat)
    requires n < Pow256(width)
    ensures FromBe(Be(n, width)) == n
  {
    if width > 0 {
      BeRoundTrip(n / 256, width - 1);
      var b := Be(n, width);
      assert b[..|b| - 1] == Be(n / 256, width - 1);
    }
  }

  lemma {:induction false} BeBack(s: seq<byte>)
    ensures FromBe(s) < Pow256(|s|) && Be(FromBe(s), |s|) == s
  {
    if s != [] {
      var front := s[..|s| - 1];
      BeBack(front);
      assert s == front + [s[|s| - 1]];
    }
  }

  lemma Widths()
    ensures Pow256(1) == 0x100 && Pow256(2) == 0x1_0000 && Pow256(4) == 0x1_0000_0000 &&
            Pow256(8) == 0x1_0000_0000_0000_0000
  {
    assert Pow256(2) == 256 * Pow256(1);
    assert Pow256(3) == 256 * Pow256(2);
    assert Pow256(4) == 256 * Pow256(3);
    assert Pow256(5) == 256 * Pow256(4);
    assert Pow256(6) == 256 * Pow256(5);
    assert Pow256(7) == 256 * Pow256(6);
  }

  // ---------- signed numbers, two's complement ----------

  predicate FitsSigned(n: int, width: nat) {
    -(Pow256(width) as int) <= 2 * n < Pow256(width)
  }

  function SignedBe(n: int, width: nat): (r: seq<byte>)
    requires FitsSigned(n, width)
    ensures |r| == width
  {
    Be(if n < 0 then n + Pow256(width) else n, width)
  }

  function FromSignedBe(s: seq<byte>): int {
    if 2 * FromBe(s) < Pow256(|s|) then FromBe(s) else FromBe(s) - Pow256(|s|)
  }

  lemma SignedRoundTrip(n: int, width: nat)
    requires FitsSigned(n, width)
    ensures FromSignedBe(SignedBe(n, width)) == n
  {
    BeRoundTrip(if n < 0 then n + Pow256(width) else n, width);
  }

  lemma SignedBack(s: seq<byte>)
    requires s != []
    ensures FitsSigned(FromSignedBe(s), |s|) && SignedBe(FromSignedBe(s), |s|) == s
  {
    BeBack(s);
  }
}
