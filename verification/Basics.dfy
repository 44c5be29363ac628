/** Shared vocabulary: optional values, the tail of a log, and sums over the values of a map. */
module Basics {

  datatype Option<+T> = None | Some(value: T)

  /** A computation that either returns or raises. */
  datatype Result<+T, +E> = Ok(value: T) | Err(error: E)

  function MinR(x: real, y: real): real {
    if x <= y then x else y
  }

  function MaxR(x: real, y: real): real {
    if x >= y then x else y
  }

  /** The last `n` elements of `s`, or all of it when it is shorter: Python's `s[-n:]` for n >= 1. */
  function LastN<T>(s: seq<T>, n: nat): (r: seq<T>)
    ensures |r| == if |s| <= n then |s| else n
  {
    if |s| <= n then s else s[|s| - n..]
  }

  /** It is the end that is kept. */
  lemma LastNIsTheEnd<T>(s: seq<T>, n: nat, i: nat)
    requires i < |s| && i < n
    ensures LastN(s, n)[|LastN(s, n)| - 1 - i] == s[|s| - 1 - i]
  {
  }

  /** Cutting an already cut log: only the smaller of the two limits matters. */
  lemma LastNOfLastN<T>(s: seq<T>, m: nat, n: nat)
    requires n <= m
    ensures LastN(LastN(s, m), n) == LastN(s, n)
  {
  }

  /** Cutting before or after appending makes no difference to what is kept. */
  lemma LastNOfAppend<T>(s: seq<T>, t: seq<T>, n: nat)
    ensures LastN(LastN(s, n) + t, n) == LastN(s + t, n)
  {
  }

  /** The state a run of steps leads to, or none if one of them is not allowed. */
  function Fold<S, C>(start: S, steps: seq<C>, next: (S, C) -> Option<S>): Option<S> {
    if steps == [] then Some(start)
    else
      var earlier := Fold(start, steps[..|steps| - 1], next);
      if earlier.Some? then next(earlier.value, steps[|steps| - 1]) else None
  }

  lemma FoldOne<S, C>(start: S, steps: seq<C>, next: (S, C) -> Option<S>, s: S, c: C, all: seq<C>)
    requires Fold(start, steps, next) == Some(s) && all == steps + [c]
    ensures Fold(start, all, next) == next(s, c)
  {
    assert all[..|all| - 1] == steps;
  }

  lemma MapGrows<K, V>(m: map<K, V>, k: K, v: V)
    ensures |m[k := v]| == if k in m then |m| else |m| + 1
  {
    assert m[k := v].Keys == m.Keys + {k};
  }

  lemma MapShrinks<K, V>(m: map<K, V>, k: K)
    requires k in m
    ensures |m - {k}| == |m| - 1
  {
    assert (m - {k}).Keys == m.Keys - {k};
  }

  /** The integer sum of `f` over the values of a map. */
  ghost function SumInt<K, V>(m: map<K, V>, f: V -> int): int
    decreases |m|
  {
    if m == map[] then 0
    else
      var k :| k in m;
      f(m[k]) + SumInt(m - {k}, f)
  }

  /** Which key is split off first does not matter. */
  lemma {:induction false} SumIntSplit<K, V>(m: map<K, V>, f: V -> int, k: K)
    requires k in m
    ensures SumInt(m, f) == f(m[k]) + SumInt(m - {k}, f)
    decreases |m|
  {
    var c :| c in m && SumInt(m, f) == f(m[c]) + SumInt(m - {c}, f);
    if c != k {
      SumIntSplit(m - {c}, f, k);
      SumIntSplit(m - {k}, f, c);
      assert m - {c} - {k} == m - {k} - {c};
    }
  }

  lemma SumIntInsert<K, V>(m: map<K, V>, f: V -> int, k: K, v: V)
    requires k !in m
    ensures SumInt(m[k := v], f) == SumInt(m, f) + f(v)
  {
    SumIntSplit(m[k := v], f, k);
    assert m[k := v] - {k} == m;
  }

  lemma SumIntReplace<K, V>(m: map<K, V>, f: V -> int, k: K, v: V)
    requires k in m
    ensures SumInt(m[k := v], f) == SumInt(m, f) - f(m[k]) + f(v)
  {
    SumIntSplit(m, f, k);
    SumIntSplit(m[k := v], f, k);
    assert m[k := v] - {k} == m - {k};
  }

  lemma {:induction false} SumIntNonNegative<K, V>(m: map<K, V>, f: V -> int)
    requires forall k :: k in m ==> f(m[k]) >= 0
    ensures SumInt(m, f) >= 0
    decreases |m|
  {
    if m != map[] {
      var k :| k in m && SumInt(m, f) == f(m[k]) + SumInt(m - {k}, f);
      SumIntNonNegative(m - {k}, f);
    }
  }

  /** The real sum of `f` over the values of a map. */
  ghost function SumBy<K, V>(m: map<K, V>, f: V -> real): real
    decreases |m|
  {
    if m == map[] then 0.0
    else
      var k :| k in m;
      f(m[k]) + SumBy(m - {k}, f)
  }

  lemma {:induction false} SumBySplit<K, V>(m: map<K, V>, f: V -> real, k: K)
    requires k in m
    ensures SumBy(m, f) == f(m[k]) + SumBy(m - {k}, f)
    decreases |m|
  {
    var c :| c in m && SumBy(m, f) == f(m[c]) + SumBy(m - {c}, f);
    if c != k {
      SumBySplit(m - {c}, f, k);
      SumBySplit(m - {k}, f, c);
      assert m - {c} - {k} == m - {k} - {c};
    }
  }

  lemma SumByInsert<K, V>(m: map<K, V>, f: V -> real, k: K, v: V)
    requires k !in m
    ensures SumBy(m[k := v], f) == SumBy(m, f) + f(v)
  {
    SumBySplit(m[k := v], f, k);
    assert m[k := v] - {k} == m;
  }

  /** Replacing the value of a key moves the sum by the difference. */
  lemma SumByReplace<K, V>(m: map<K, V>, f: V -> real, k: K, v: V)
    requires k in m
    ensures SumBy(m[k := v], f) == SumBy(m, f) - f(m[k]) + f(v)
  {
    SumBySplit(m, f, k);
    SumBySplit(m[k := v], f, k);
    assert m[k := v] - {k} == m - {k};
  }

  lemma OneMore(n: nat, x: real)
    requires n > 0
    ensures (n - 1) as real * x + x == n as real * x
  {
  }

  /** `n` times `x`. */
  function Multiple(n: nat, x: real): real {
    if n == 0 then 0.0 else Multiple(n - 1, x) + x
  }

  lemma {:induction false} MultipleIsProduct(n: nat, x: real)
    ensures Multiple(n, x) == n as real * x
  {
    if n > 0 {
      MultipleIsProduct(n - 1, x);
      OneMore(n, x);
    }
  }

  lemma {:induction false} MultipleAdds(n: nat, x: real, y: real)
    ensures Multiple(n, x + y) == Multiple(n, x) + Multiple(n, y)
  {
    if n > 0 {
      MultipleAdds(n - 1, x, y);
    }
  }

  /** m times n times x is n times m times x. */
  lemma {:induction false} MultiplesCommute(m: nat, n: nat, x: real)
    ensures Multiple(m, Multiple(n, x)) == Multiple(n, Multiple(m, x))
  {
    if m == 0 {
      MultipleOfZero(n);
    } else {
      MultiplesCommute(m - 1, n, x);
      MultipleAdds(n, Multiple(m - 1, x), x);
    }
  }

  lemma {:induction false} MultipleOfZero(n: nat)
    ensures Multiple(n, 0.0) == 0.0
  {
    if n > 0 {
      MultipleOfZero(n - 1);
    }
  }

  lemma {:induction false} MultipleMonotone(n: nat, m: nat, x: real)
    requires n <= m && x >= 0.0
    ensures 0.0 <= Multiple(n, x) <= Multiple(m, x)
  {
    if n < m {
      MultipleMonotone(n, m - 1, x);
    } else if n > 0 {
      MultipleMonotone(n - 1, m - 1, x);
    }
  }

  /** `n` times `x`, in integers. */
  function Repeated(n: nat, x: int): int {
    if n == 0 then 0 else Repeated(n - 1, x) + x
  }

  lemma {:induction false} RepeatedIsProduct(n: nat, x: int)
    ensures Repeated(n, x) == n * x
  {
    if n > 0 {
      RepeatedIsProduct(n - 1, x);
      assert (n - 1) * x + x == n * x;
    }
  }

  /** A map whose values are all at most `cap` sums to at most its size times `cap`. */
  lemma {:induction false} SumByAtMost<K, V>(m: map<K, V>, f: V -> real, cap: real)
    requires forall k :: k in m ==> f(m[k]) <= cap
    ensures SumBy(m, f) <= Multiple(|m|, cap)
    decreases |m|
  {
    if m != map[] {
      var k :| k in m && SumBy(m, f) == f(m[k]) + SumBy(m - {k}, f);
      SumByAtMost(m - {k}, f, cap);
      assert |m - {k}| == |m| - 1;
    }
  }

  lemma {:induction false} SumByNonNegative<K, V>(m: map<K, V>, f: V -> real)
    requires forall k :: k in m ==> f(m[k]) >= 0.0
    ensures SumBy(m, f) >= 0.0
    decreases |m|
  {
    if m != map[] {
      var k :| k in m && SumBy(m, f) == f(m[k]) + SumBy(m - {k}, f);
      SumByNonNegative(m - {k}, f);
    }
  }
}
