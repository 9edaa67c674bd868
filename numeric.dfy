/**
 * The few array primitives of the numerical library that the signal generator
 * uses, stated over unbounded integers and exact reals, together with the
 * elementary functions it calls (pi, sine, cosine), which are kept abstract.
 */
module Numeric {

  /** `arange(lo, hi)` for integer arguments: lo, lo + 1, ..., hi - 1 (empty when hi <= lo). */
  function Arange(lo: int, hi: int): (r: seq<int>)
    ensures |r| == if lo <= hi then hi - lo else 0
    ensures forall i :: 0 <= i < |r| ==> r[i] == lo + i
    decreases hi - lo
  {
    if hi <= lo then [] else [lo] + Arange(lo + 1, hi)
  }

  /** Consecutive entries of an arange differ by exactly one, so it is strictly increasing. */
  lemma ArangeContiguous(lo: int, hi: int)
    ensures forall i :: 0 < i < |Arange(lo, hi)| ==> Arange(lo, hi)[i] == Arange(lo, hi)[i - 1] + 1
    ensures forall i, j :: 0 <= i < j < |Arange(lo, hi)| ==> Arange(lo, hi)[i] < Arange(lo, hi)[j]
  {
  }

  /**
   * `where(p(s), x, y)`: the element-wise choice between two scalars,
   * x where the condition holds of the entry of s and y elsewhere.
   */
  function Where(s: seq<int>, p: int -> bool, x: int, y: int): (r: seq<int>)
    ensures |r| == |s|
    ensures forall i :: 0 <= i < |s| ==> r[i] == if p(s[i]) then x else y
  {
    if s == [] then [] else [if p(s[0]) then x else y] + Where(s[1..], p, x, y)
  }

  /** The distance between neighbouring points of `linspace(start, stop, num)`. */
  function Spacing(start: real, stop: real, num: nat): real
  {
    if num > 1 then (stop - start) / ((num - 1) as real) else 0.0
  }

  /**
   * `linspace(start, stop, num)` with the endpoint included: num points
   * start + i * step, the last of which is set to stop exactly.
   */
  function Linspace(start: real, stop: real, num: nat): (r: seq<real>)
    ensures |r| == num
    ensures num >= 1 ==> r[0] == start
    ensures num >= 2 ==> r[num - 1] == stop
    ensures forall i :: 0 <= i < num ==> r[i] == start + (i as real) * Spacing(start, stop, num)
  {
    var step := Spacing(start, stop, num);
    seq(num, i requires 0 <= i < num =>
      if num > 1 && i == num - 1 then stop else start + (i as real) * step)
  }

  /** Neighbouring points of a linspace are one Spacing apart. */
  lemma LinspaceEvenlySpaced(start: real, stop: real, num: nat)
    ensures forall i :: 0 < i < num ==>
      Linspace(start, stop, num)[i] - Linspace(start, stop, num)[i - 1] == Spacing(start, stop, num)
  {
    var r := Linspace(start, stop, num);
    var step := Spacing(start, stop, num);
    forall i | 0 < i < num ensures r[i] - r[i - 1] == step {
      Distribute(i as real, (i - 1) as real, step);
    }
  }

  /** For start < stop the points of a linspace increase strictly. */
  lemma LinspaceIncreasing(start: real, stop: real, num: nat)
    requires start < stop
    ensures forall i, j :: 0 <= i < j < num ==>
      Linspace(start, stop, num)[i] < Linspace(start, stop, num)[j]
  {
    var r := Linspace(start, stop, num);
    if num > 1 {
      LinspaceEvenlySpaced(start, stop, num);
      assert Spacing(start, stop, num) > 0.0;
      forall i, j | 0 <= i < j < num ensures r[i] < r[j] {
        StepsIncrease(r, i, j);
      }
    }
  }

  /** A sequence whose neighbours increase is increasing between any two positions. */
  lemma {:induction false} StepsIncrease(r: seq<real>, i: nat, j: nat)
    requires forall k :: 0 < k < |r| ==> r[k - 1] < r[k]
    requires i < j < |r|
    ensures r[i] < r[j]
    decreases j - i
  {
    if i + 1 < j {
      StepsIncrease(r, i, j - 1);
    }
  }

  lemma Distribute(a: real, b: real, s: real)
    ensures a * s - b * s == (a - b) * s
  {
  }

  /** The number of entries of s equal to v. */
  function Count(s: seq<int>, v: int): (c: nat)
    ensures c <= |s|
  {
    if s == [] then 0 else (if s[0] == v then 1 else 0) + Count(s[1..], v)
  }

  lemma {:induction false} CountAppend(a: seq<int>, b: seq<int>, v: int)
    ensures Count(a + b, v) == Count(a, v) + Count(b, v)
  {
    if a == [] {
      assert a + b == b;
    } else {
      assert (a + b)[1..] == a[1..] + b;
      CountAppend(a[1..], b, v);
    }
  }

  /** A sequence all of whose entries are v holds |s| of them. */
  lemma {:induction false} CountAll(s: seq<int>, v: int)
    requires forall i :: 0 <= i < |s| ==> s[i] == v
    ensures Count(s, v) == |s|
  {
    if s != [] {
      assert forall i :: 0 <= i < |s| - 1 ==> s[1..][i] == s[i + 1];
      CountAll(s[1..], v);
    }
  }

  /** A sequence none of whose entries is v holds none of them. */
  lemma {:induction false} CountNone(s: seq<int>, v: int)
    requires forall i :: 0 <= i < |s| ==> s[i] != v
    ensures Count(s, v) == 0
  {
    if s != [] {
      assert forall i :: 0 <= i < |s| - 1 ==> s[1..][i] == s[i + 1];
      CountNone(s[1..], v);
    }
  }

  /** The sum of the entries of s. */
  function Sum(s: seq<int>): int
  {
    if s == [] then 0 else s[0] + Sum(s[1..])
  }

  lemma {:induction false} SumAppend(a: seq<int>, b: seq<int>)
    ensures Sum(a + b) == Sum(a) + Sum(b)
  {
    if a == [] {
      assert a + b == b;
    } else {
      assert (a + b)[1..] == a[1..] + b;
      SumAppend(a[1..], b);
    }
  }

  lemma {:induction false} SumZeros(s: seq<int>)
    requires forall i :: 0 <= i < |s| ==> s[i] == 0
    ensures Sum(s) == 0
  {
    if s != [] {
      assert forall i :: 0 <= i < |s| - 1 ==> s[1..][i] == s[i + 1];
      SumZeros(s[1..]);
    }
  }

  /** s is a 0/1 sequence that is one exactly on positions lo..hi-1. */
  ghost predicate IsBlock(s: seq<int>, lo: nat, hi: nat)
  {
    lo <= hi <= |s| && forall i :: 0 <= i < |s| ==> s[i] == (if lo <= i < hi then 1 else 0)
  }

  /** A block holds hi - lo ones. */
  lemma BlockOnes(s: seq<int>, lo: nat, hi: nat)
    requires IsBlock(s, lo, hi)
    ensures Count(s, 1) == hi - lo
  {
    var left, mid, right := s[..lo], s[lo..hi], s[hi..];
    assert s == (left + mid) + right;
    CountAppend(left + mid, right, 1);
    CountAppend(left, mid, 1);
    CountNone(left, 1);
    CountAll(mid, 1);
    CountNone(right, 1);
  }

  /** A block holds |s| - (hi - lo) zeros. */
  lemma BlockZeros(s: seq<int>, lo: nat, hi: nat)
    requires IsBlock(s, lo, hi)
    ensures Count(s, 0) == |s| - (hi - lo)
  {
    BlockOnes(s, lo, hi);
    CountBinary(s);
  }

  /** In a sequence of zeros and ones, the zeros and the ones together are all the entries. */
  lemma {:induction false} CountBinary(s: seq<int>)
    requires forall i :: 0 <= i < |s| ==> s[i] == 0 || s[i] == 1
    ensures Count(s, 0) + Count(s, 1) == |s|
  {
    if s != [] {
      assert forall i :: 0 <= i < |s| - 1 ==> s[1..][i] == s[i + 1];
      CountBinary(s[1..]);
    }
  }

  /** A block sums to hi - lo. */
  lemma BlockSum(s: seq<int>, lo: nat, hi: nat)
    requires IsBlock(s, lo, hi)
    ensures Sum(s) == hi - lo
  {
    var left, mid, right := s[..lo], s[lo..hi], s[hi..];
    assert s == (left + mid) + right;
    SumAppend(left + mid, right);
    SumAppend(left, mid);
    SumZeros(left);
    SumOnes(mid);
    SumZeros(right);
  }

  lemma {:induction false} SumOnes(s: seq<int>)
    requires forall i :: 0 <= i < |s| ==> s[i] == 1
    ensures Sum(s) == |s|
  {
    if s != [] {
      assert forall i :: 0 <= i < |s| - 1 ==> s[1..][i] == s[i + 1];
      SumOnes(s[1..]);
    }
  }

  /**
   * The elementary functions the generator calls: the constant pi and the
   * sine and cosine ufuncs. Their floating-point values are not modelled;
   * lemmas that need a property of them say so in a requires clause.
   */
  datatype Trig = Trig(pi: real, sin: real -> real, cos: real -> real)

  ghost predicate SinOfZero(m: Trig)
  {
    m.sin(0.0) == 0.0
  }

  /** sin(x + 2 pi) == sin(x) */
  ghost predicate SinPeriodic(m: Trig)
  {
    forall x, y :: y == x + 2.0 * m.pi ==> m.sin(y) == m.sin(x)
  }

  /** sin(-x) == -sin(x) */
  ghost predicate SinOdd(m: Trig)
  {
    forall x, y :: y == -x ==> m.sin(y) == -m.sin(x)
  }

  /** cos(-x) == cos(x) */
  ghost predicate CosEven(m: Trig)
  {
    forall x, y :: y == -x ==> m.cos(y) == m.cos(x)
  }
}
