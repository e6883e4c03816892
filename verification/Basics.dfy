/** Shared vocabulary: optional values, results, 64-bit integers and sums. */
module Basics {
  datatype Option<+T> = None | Some(value: T)

  datatype Result<+T, +E> = Ok(value: T) | Err(error: E)

  const MIN_INT64: int := -0x8000_0000_0000_0000
  const MAX_INT64: int := 0x7fff_ffff_ffff_ffff

  /** Go's int64. Every assignment to a variable of this type is proved not to overflow. */
  type Int64 = x: int | MIN_INT64 <= x <= MAX_INT64

  const SPAN: int := 0x1_0000_0000_0000_0000

  /** Two's-complement wrap-around of an exact integer into an int64. */
  function Wrap64(x: int): (w: Int64)
    ensures MIN_INT64 <= x <= MAX_INT64 ==> w == x
  {
    (x - MIN_INT64) % SPAN + MIN_INT64
  }

  lemma WrapShift(x: int) returns (k: int)
    ensures Wrap64(x) == x + SPAN * k
  {
    k := -((x - MIN_INT64) / SPAN);
  }

  lemma WrapPeriodic(x: int, k: int)
    ensures Wrap64(x + SPAN * k) == Wrap64(x)
  {
    var a, b := x - MIN_INT64, x + SPAN * k - MIN_INT64;
    var p, q := a / SPAN, b / SPAN;
    assert a == SPAN * p + a % SPAN && b == SPAN * q + b % SPAN;
    assert SPAN * (q - p - k) == a % SPAN - b % SPAN;
    assert q == p + k;
  }

  /** Wrapping operands first changes nothing. */
  lemma WrapSum(x: int, y: int)
    ensures Wrap64(Wrap64(x) + Wrap64(y)) == Wrap64(x + y)
    ensures Wrap64(Wrap64(x) + y) == Wrap64(x + y)
  {
    var j := WrapShift(x);
    var k := WrapShift(y);
    WrapPeriodic(x + y, j + k);
    WrapPeriodic(x + y, j);
  }

  lemma WrapDifference(x: int, y: int)
    ensures Wrap64(Wrap64(x) - Wrap64(y)) == Wrap64(x - y)
  {
    var j := WrapShift(x);
    var k := WrapShift(y);
    WrapPeriodic(x - y, j - k);
  }

  function Sum(s: seq<int>): int {
    if s == [] then 0 else s[0] + Sum(s[1..])
  }

  lemma {:induction false} SumUpdate(s: seq<int>, i: nat, v: int)
    requires i < |s|
    ensures Sum(s[i := v]) == Sum(s) - s[i] + v
  {
    if i == 0 {
      assert s[0 := v][1..] == s[1..];
    } else {
      SumUpdate(s[1..], i - 1, v);
      assert s[i := v][1..] == s[1..][i - 1 := v];
    }
  }

  lemma {:induction false} SumAppend(s: seq<int>, t: seq<int>)
    ensures Sum(s + t) == Sum(s) + Sum(t)
  {
    if s == [] {
      assert s + t == t;
    } else {
      SumAppend(s[1..], t);
      assert (s + t)[1..] == s[1..] + t;
    }
  }

  /** A sum of a measure over the elements of a sequence. */
  function SumBy<T>(f: T -> int, s: seq<T>): int {
    if s == [] then 0 else f(s[0]) + SumBy(f, s[1..])
  }

  lemma {:induction false} SumByRemove<T>(f: T -> int, s: seq<T>, k: nat)
    requires k < |s|
    ensures SumBy(f, s) == f(s[k]) + SumBy(f, s[..k] + s[k + 1..])
  {
    if k == 0 {
      assert s[..0] + s[1..] == s[1..];
    } else {
      SumByRemove(f, s[1..], k - 1);
      var rest := s[..k] + s[k + 1..];
      assert rest[1..] == s[1..][..k - 1] + s[1..][k..];
    }
  }

  lemma MultisetRemove<T>(s: seq<T>, k: nat)
    requires k < |s|
    ensures multiset(s[..k] + s[k + 1..]) == multiset(s) - multiset{s[k]}
  {
    assert s == s[..k] + [s[k]] + s[k + 1..];
  }

  lemma MultisetTail<T>(s: seq<T>)
    requires s != []
    ensures multiset(s[1..]) == multiset(s) - multiset{s[0]}
  {
    assert s == [s[0]] + s[1..];
  }

  /** Sums do not depend on the order of the elements. */
  lemma {:induction false} SumByPermutation<T>(f: T -> int, s: seq<T>, t: seq<T>)
    requires multiset(s) == multiset(t)
    ensures SumBy(f, s) == SumBy(f, t)
    decreases |s|
  {
    if s == [] {
      assert |multiset(t)| == 0;
    } else {
      assert s[0] in multiset(s) && s[0] in t;
      var k :| 0 <= k < |t| && t[k] == s[0];
      MultisetRemove(t, k);
      MultisetTail(s);
      SumByPermutation(f, s[1..], t[..k] + t[k + 1..]);
      SumByRemove(f, t, k);
    }
  }

  /** The sum of the values of a map, over its keys in any order. */
  ghost function MapSum<K>(m: map<K, int>): int
    decreases |m|
  {
    if m == map[] then 0 else
      var k :| k in m;
      m[k] + MapSum(m - {k})
  }

  lemma {:induction false} MapSumRemove<K>(m: map<K, int>, k: K)
    requires k in m
    ensures MapSum(m) == m[k] + MapSum(m - {k})
    decreases |m|
  {
    var c :| c in m && MapSum(m) == m[c] + MapSum(m - {c});
    if c != k {
      MapSumRemove(m - {c}, k);
      MapSumRemove(m - {k}, c);
      assert (m - {c}) - {k} == (m - {k}) - {c};
    }
  }

  lemma MapSumUpdate<K>(m: map<K, int>, k: K, v: int)
    ensures MapSum(m[k := v]) == MapSum(m) - (if k in m then m[k] else 0) + v
  {
    MapSumRemove(m[k := v], k);
    if k in m {
      MapSumRemove(m, k);
      assert m[k := v] - {k} == m - {k};
    } else {
      assert m[k := v] - {k} == m;
    }
  }
}
