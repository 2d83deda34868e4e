/** Unsigned numbers as little-endian bytes. */
module LittleEndian {
  import opened Basics

  function Bytes(v: nat, n: nat): (s: seq<u8>)
    ensures |s| == n
  {
    if n == 0 then [] else [v % 256] + Bytes(v / 256, n - 1)
  }

  function Value(s: seq<u8>): nat
  {
    if s == [] then 0 else s[0] + 256 * Value(s[1..])
  }

  /** The number fits into n bytes. */
  predicate Fits(v: nat, n: nat)
  {
    if n == 0 then v == 0 else Fits(v / 256, n - 1)
  }

  lemma {:induction false} ValueOfBytes(v: nat, n: nat)
    requires Fits(v, n)
    ensures Value(Bytes(v, n)) == v
  {
    if n > 0 {
      ValueOfBytes(v / 256, n - 1);
      assert Bytes(v, n)[1..] == Bytes(v / 256, n - 1);
    }
  }

  function Limit(n: nat): nat { if n == 0 then 1 else 256 * Limit(n - 1) }

  lemma {:induction false} FitsBelowLimit(v: nat, n: nat)
    requires v < Limit(n)
    ensures Fits(v, n)
  {
    if n > 0 {
      FitsBelowLimit(v / 256, n - 1);
    }
  }

  lemma {:induction false} ValueBelowLimit(s: seq<u8>)
    ensures Value(s) < Limit(|s|)
  {
    if s != [] {
      ValueBelowLimit(s[1..]);
    }
  }

  lemma Limits()
    ensures Limit(1) == 256 && Limit(2) == 0x1_0000 && Limit(4) == 0x1_0000_0000 && Limit(8) == 0x1_0000_0000_0000_0000
  {
    assert Limit(0) == 1 && Limit(3) == 0x100_0000 && Limit(5) == 0x100_0000_0000
           && Limit(6) == 0x1_0000_0000_0000 && Limit(7) == 0x100_0000_0000_0000;
  }

  lemma {:induction false} LimitPositive(n: nat)
    ensures Limit(n) > 0
  {
    if n > 0 { LimitPositive(n - 1); }
  }

  /** A part of a part. */
  lemma Slice(data: seq<u8>, pos: nat, part: seq<u8>, i: nat, j: nat)
    requires pos + |part| <= |data| && data[pos..pos + |part|] == part && i <= j <= |part|
    ensures data[pos + i..pos + j] == part[i..j]
  {
    forall k | 0 <= k < j - i
      ensures data[pos + i..pos + j][k] == part[i..j][k]
    {
      assert data[pos..pos + |part|][i + k] == part[i + k];
    }
  }
}
