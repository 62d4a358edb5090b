/**
 * Bytes and the byte-wise comparison `memcmp` that Transport.cxx applies to the
 * in-memory image of an IPv4 address (four bytes in network order).
 */
module Octets {

  /** An unsigned byte, as `memcmp` reads it. */
  newtype byte = x: int | 0 <= x < 256

  /**
   * The sign of `memcmp(a, b, |a|)`: -1, 0 or 1. The C function may return any
   * negative or positive value; Transport.cxx only tests its sign.
   */
  function Memcmp(a: seq<byte>, b: seq<byte>): (c: int)
    requires |a| == |b|
    ensures -1 <= c <= 1
    ensures c == 0 <==> a == b
    decreases |a|
  {
    if |a| == 0 then 0
    else if a[0] < b[0] then -1
    else if a[0] > b[0] then 1
    else
      var c := Memcmp(a[1..], b[1..]);
      assert a == [a[0]] + a[1..] && b == [b[0]] + b[1..];
      c
  }

  /**
   * Reference definition of lexicographic order on byte strings of one length:
   * `a` is below `b` when they agree on a prefix and `a` is smaller at the
   * first position where they differ.
   */
  ghost predicate LexLess(a: seq<byte>, b: seq<byte>)
    requires |a| == |b|
  {
    exists k :: 0 <= k < |a| && a[..k] == b[..k] && a[k] < b[k]
  }

  /** A negative `memcmp` is exactly the lexicographic order. */
  lemma {:induction false} MemcmpIsLexicographic(a: seq<byte>, b: seq<byte>)
    requires |a| == |b|
    ensures Memcmp(a, b) < 0 <==> LexLess(a, b)
    decreases |a|
  {
    if |a| == 0 {
    } else if a[0] < b[0] {
      assert a[..0] == b[..0];
    } else if a[0] > b[0] {
      if LexLess(a, b) {
        var k :| 0 <= k < |a| && a[..k] == b[..k] && a[k] < b[k];
        assert false;
      }
    } else {
      MemcmpIsLexicographic(a[1..], b[1..]);
      if Memcmp(a, b) < 0 {
        var k :| 0 <= k < |a| - 1 && a[1..][..k] == b[1..][..k] && a[1..][k] < b[1..][k];
        assert a[..k + 1] == [a[0]] + a[1..][..k];
        assert b[..k + 1] == [b[0]] + b[1..][..k];
        assert a[k + 1] < b[k + 1];
      }
      if LexLess(a, b) {
        var k :| 0 <= k < |a| && a[..k] == b[..k] && a[k] < b[k];
        assert k > 0;
        assert a[1..][..k - 1] == a[..k][1..];
        assert b[1..][..k - 1] == b[..k][1..];
        assert a[1..][k - 1] < b[1..][k - 1];
      }
    }
  }

  /** Swapping the operands of `memcmp` flips the sign. */
  lemma {:induction false} MemcmpAntisymmetric(a: seq<byte>, b: seq<byte>)
    requires |a| == |b|
    ensures Memcmp(b, a) == -Memcmp(a, b)
    decreases |a|
  {
    if |a| > 0 && a[0] == b[0] {
      MemcmpAntisymmetric(a[1..], b[1..]);
    }
  }

  /** A negative `memcmp` is transitive. */
  lemma {:induction false} MemcmpTransitive(a: seq<byte>, b: seq<byte>, c: seq<byte>)
    requires |a| == |b| == |c|
    requires Memcmp(a, b) < 0 && Memcmp(b, c) < 0
    ensures Memcmp(a, c) < 0
    decreases |a|
  {
    if a[0] == b[0] && b[0] == c[0] {
      MemcmpTransitive(a[1..], b[1..], c[1..]);
    }
  }

  /** No byte string compares below the all-zero string of its length. */
  lemma {:induction false} MemcmpZerosLeast(a: seq<byte>, z: seq<byte>)
    requires |a| == |z|
    requires forall i :: 0 <= i < |z| ==> z[i] == 0
    ensures Memcmp(a, z) >= 0
    decreases |a|
  {
    if |a| > 0 && a[0] == 0 {
      MemcmpZerosLeast(a[1..], z[1..]);
    }
  }
}
