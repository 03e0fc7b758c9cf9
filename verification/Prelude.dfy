/** Machine integers, byte strings and the two carrier types for missing values and rejections. */
module Prelude {

  datatype Option<+T> = None | Some(value: T) {
    predicate IsFailure() {
      None?
    }

    function PropagateFailure<U>(): Option<U>
      requires None?
    {
      None
    }

    function Extract(): T
      requires Some?
    {
      value
    }
  }

  /** A value, or the fixed code of the rejection that replaced it. */
  datatype Result<+T, +E> = Ok(value: T) | Err(error: E) {
    predicate IsFailure() {
      Err?
    }

    function PropagateFailure<U>(): Result<U, E>
      requires Err?
    {
      Err(error)
    }

    function Extract(): T
      requires Ok?
    {
      value
    }
  }

  const U32_LIMIT := 0x1_0000_0000
  const U64_LIMIT := 0x1_0000_0000_0000_0000
  const U64_MAX := 0xFFFF_FFFF_FFFF_FFFF

  type byte = b: int | 0 <= b < 0x100
  type u32 = n: int | 0 <= n < U32_LIMIT
  type u64 = n: int | 0 <= n < U64_LIMIT

  /** A std::string or a byte vector: both are sequences of octets. */
  type Bytes = seq<byte>

  /** The octets of a literal. */
  function Ascii(s: string): (b: Bytes)
    ensures |b| == |s|
  {
    seq(|s|, i requires 0 <= i < |s| => if s[i] < 0x100 as char then s[i] as int else 0)
  }

  /** Little-endian octets of the low `n` bytes of `v`. */
  function LE(v: nat, n: nat): (b: Bytes)
    ensures |b| == n
  {
    if n == 0 then [] else [v % 0x100] + LE(v / 0x100, n - 1)
  }

  /** The number written little-endian in `b`. */
  function FromLE(b: Bytes): nat {
    if b == [] then 0 else b[0] + 0x100 * FromLE(b[1..])
  }

  function Pow256(n: nat): (p: nat)
    ensures p > 0
  {
    if n == 0 then 1 else 0x100 * Pow256(n - 1)
  }

  lemma Widths()
    ensures Pow256(2) == 0x1_0000 && Pow256(4) == U32_LIMIT && Pow256(8) == U64_LIMIT
  {
    assert Pow256(1) == 0x100;
    assert Pow256(2) == 0x1_0000;
    assert Pow256(3) == 0x100_0000;
    assert Pow256(4) == U32_LIMIT;
    assert Pow256(5) == 0x100 * U32_LIMIT;
    assert Pow256(6) == 0x1_0000 * U32_LIMIT;
    assert Pow256(7) == 0x100_0000 * U32_LIMIT;
  }

  lemma {:induction false} ReadBackLE(v: nat, n: nat)
    requires v < Pow256(n)
    ensures FromLE(LE(v, n)) == v
  {
    if n > 0 {
      ReadBackLE(v / 0x100, n - 1);
      assert LE(v, n)[1..] == LE(v / 0x100, n - 1);
    }
  }

  lemma {:induction false} WriteBackLE(b: Bytes)
    ensures FromLE(b) < Pow256(|b|)
    ensures LE(FromLE(b), |b|) == b
  {
    if b != [] {
      WriteBackLE(b[1..]);
      assert FromLE(b) / 0x100 == FromLE(b[1..]);
      assert b == [b[0]] + b[1..];
    }
  }

  /** Two equal concatenations whose first parts have one length agree part by part. */
  lemma CancelFixed(a: Bytes, b: Bytes, x: Bytes, y: Bytes)
    requires |a| == |b| && a + x == b + y
    ensures a == b && x == y
  {
    assert a == (a + x)[..|a|] && x == (a + x)[|a|..];
    assert b == (b + y)[..|a|] && y == (b + y)[|a|..];
  }

  // Appending in a row is appending to the right.

  lemma Flat2(a: Bytes, b: Bytes, x: Bytes)
    ensures a + b + x == a + (b + x)
  {
  }

  lemma Flat3(a: Bytes, b: Bytes, c: Bytes, x: Bytes)
    ensures a + b + c + x == a + (b + (c + x))
  {
    Flat2(a + b, c, x);
    Flat2(a, b, c + x);
  }

  lemma Flat4(a: Bytes, b: Bytes, c: Bytes, d: Bytes, x: Bytes)
    ensures a + b + c + d + x == a + (b + (c + (d + x)))
  {
    Flat2(a + b + c, d, x);
    Flat3(a, b, c, d + x);
  }

  lemma Flat5(a: Bytes, b: Bytes, c: Bytes, d: Bytes, e: Bytes, x: Bytes)
    ensures a + b + c + d + e + x == a + (b + (c + (d + (e + x))))
  {
    Flat2(a + b + c + d, e, x);
    Flat4(a, b, c, d, e + x);
  }

  lemma Flat6(a: Bytes, b: Bytes, c: Bytes, d: Bytes, e: Bytes, f: Bytes, x: Bytes)
    ensures a + b + c + d + e + f + x == a + (b + (c + (d + (e + (f + x)))))
  {
    Flat2(a + b + c + d + e, f, x);
    Flat5(a, b, c, d, e, f + x);
  }

  lemma {:induction false} CancelLE(v: nat, w: nat, n: nat, x: Bytes, y: Bytes)
    requires v < Pow256(n) && w < Pow256(n)
    requires LE(v, n) + x == LE(w, n) + y
    ensures v == w && x == y
  {
    CancelFixed(LE(v, n), LE(w, n), x, y);
    ReadBackLE(v, n);
    ReadBackLE(w, n);
  }

  /** A u32 length, truncated as the source casts it, followed by the octets. */
  function Text32(t: Bytes): Bytes {
    LE(|t|, 4) + t
  }

  lemma CancelText32(a: Bytes, b: Bytes, x: Bytes, y: Bytes)
    requires |a| < U32_LIMIT && |b| < U32_LIMIT
    requires Text32(a) + x == Text32(b) + y
    ensures a == b && x == y
  {
    Widths();
    assert Text32(a) + x == LE(|a|, 4) + (a + x);
    assert Text32(b) + y == LE(|b|, 4) + (b + y);
    CancelLE(|a|, |b|, 4, a + x, b + y);
    CancelFixed(a, b, x, y);
  }

  /** A sequence of distinct indices below `n` has at most `n` entries. */
  lemma {:induction false} DistinctBound(q: seq<nat>, n: nat)
    requires forall i :: 0 <= i < |q| ==> q[i] < n
    requires forall i, j :: 0 <= i < j < |q| ==> q[i] != q[j]
    ensures |q| <= n
    ensures |q| == n ==> forall x: nat :: x < n ==> x in q
  {
    assert q != [] ==> q[0] < n;
    if k: nat :| k < |q| && q[k] == n - 1 {
      var p := q[..k] + q[k + 1..];
      DistinctBound(p, n - 1);
      assert forall x: nat :: x in p ==> x in q;
    } else if n > 0 {
      DistinctBound(q, n - 1);
    }
  }
}
