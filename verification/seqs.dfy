/** Sequence vocabulary shared by the whole model: JavaScript's
    order-preserving `Array.prototype.filter`, `map`, and the predicates
    used to state what they preserve. */
module Seqs {

  /** `a` is obtained from `b` by deleting elements, keeping the order of
      the rest. */
  ghost predicate IsSubseq<T>(a: seq<T>, b: seq<T>)
    decreases |b|
  {
    |a| == 0 || (|b| > 0 && ((a[0] == b[0] && IsSubseq(a[1..], b[1..])) || IsSubseq(a, b[1..])))
  }

  /** No value occurs twice. */
  ghost predicate NoDup<T>(s: seq<T>) {
    forall i, j :: 0 <= i < j < |s| ==> s[i] != s[j]
  }

  /** `s.filter(p)`: keeps exactly the elements satisfying `p` (in order
      and with their multiplicity, as `FilterIsSubseq` and `FilterCounts`
      state). */
  function Filter<T>(s: seq<T>, p: T -> bool): (r: seq<T>)
    ensures |r| <= |s|
    ensures forall x :: x in r ==> x in s && p(x)
    ensures forall x :: x in s && p(x) ==> x in r
  {
    if |s| == 0 then []
    else
      var rest := Filter(s[1..], p);
      if p(s[0]) then [s[0]] + rest else rest
  }

  /** Filtering keeps the order of what it keeps. */
  lemma {:induction false} FilterIsSubseq<T>(s: seq<T>, p: T -> bool)
    ensures IsSubseq(Filter(s, p), s)
    decreases |s|
  {
    if |s| > 0 {
      var rest := Filter(s[1..], p);
      FilterIsSubseq(s[1..], p);
      if p(s[0]) {
        assert Filter(s, p) == [s[0]] + rest;
        assert ([s[0]] + rest)[1..] == rest;
      }
    }
  }

  /** Filtering keeps each accepted element as often as it occurs. */
  lemma {:induction false} FilterCounts<T>(s: seq<T>, p: T -> bool, x: T)
    ensures multiset(Filter(s, p))[x] == if p(x) then multiset(s)[x] else 0
    decreases |s|
  {
    if |s| > 0 {
      var rest := Filter(s[1..], p);
      FilterCounts(s[1..], p, x);
      assert s == [s[0]] + s[1..];
      if p(s[0]) {
        assert Filter(s, p) == [s[0]] + rest;
      }
    }
  }

  /** `s.map(f)`. */
  function MapSeq<T, U>(s: seq<T>, f: T -> U): (r: seq<U>)
    ensures |r| == |s|
    ensures forall i :: 0 <= i < |s| ==> r[i] == f(s[i])
  {
    seq(|s|, i requires 0 <= i < |s| => f(s[i]))
  }

  /** A filter that rejects nothing returns its input. */
  lemma {:induction false} FilterKeepsAll<T>(s: seq<T>, p: T -> bool)
    requires forall x :: x in s ==> p(x)
    ensures Filter(s, p) == s
    decreases |s|
  {
    if |s| > 0 {
      FilterKeepsAll(s[1..], p);
    }
  }

  /** Filtering with a stronger predicate keeps a subsequence of what the
      weaker one keeps. */
  lemma {:induction false} FilterMonotone<T>(s: seq<T>, p: T -> bool, q: T -> bool)
    requires forall x :: x in s && p(x) ==> q(x)
    ensures IsSubseq(Filter(s, p), Filter(s, q))
    decreases |s|
  {
    if |s| > 0 {
      FilterMonotone(s[1..], p, q);
      var fp, fq := Filter(s[1..], p), Filter(s[1..], q);
      if p(s[0]) {
        assert Filter(s, p) == [s[0]] + fp && Filter(s, q) == [s[0]] + fq;
        assert ([s[0]] + fp)[1..] == fp && ([s[0]] + fq)[1..] == fq;
      } else if q(s[0]) {
        assert Filter(s, p) == fp && Filter(s, q) == [s[0]] + fq;
        assert ([s[0]] + fq)[1..] == fq;
      }
    }
  }

  lemma NoDupConcat<T>(a: seq<T>, b: seq<T>)
    requires NoDup(a) && NoDup(b)
    requires forall x :: x in a ==> x !in b
    ensures NoDup(a + b)
  {
    var c := a + b;
    forall i, j | 0 <= i < j < |c|
      ensures c[i] != c[j]
    {
      if j < |a| {
        assert c[i] == a[i] && c[j] == a[j];
      } else if i >= |a| {
        assert c[i] == b[i - |a|] && c[j] == b[j - |a|];
      } else {
        assert c[i] == a[i] && c[j] == b[j - |a|];
        assert a[i] in a && b[j - |a|] in b;
      }
    }
  }

  lemma NoDupTail<T>(s: seq<T>)
    requires NoDup(s) && |s| > 0
    ensures NoDup(s[1..]) && s[0] !in s[1..]
  {
    forall i, j | 0 <= i < j < |s| - 1
      ensures s[1..][i] != s[1..][j]
    {
      assert s[1..][i] == s[i + 1] && s[1..][j] == s[j + 1];
    }
    forall k | 0 <= k < |s| - 1
      ensures s[1..][k] != s[0]
    {
      assert s[1..][k] == s[k + 1];
    }
  }

  /** Filtering never introduces a duplicate. */
  lemma {:induction false} FilterNoDup<T>(s: seq<T>, p: T -> bool)
    requires NoDup(s)
    ensures NoDup(Filter(s, p))
    decreases |s|
  {
    if |s| > 0 {
      NoDupTail(s);
      FilterNoDup(s[1..], p);
      if p(s[0]) {
        NoDupConcat([s[0]], Filter(s[1..], p));
      }
    }
  }

  /** Positions one further along. */
  ghost function Shift(t: seq<nat>): (r: seq<nat>)
    ensures |r| == |t|
    ensures forall k :: 0 <= k < |t| ==> r[k] == t[k] + 1
  {
    seq(|t|, k requires 0 <= k < |t| => t[k] + 1)
  }

  ghost predicate Increasing(t: seq<nat>) {
    forall k, l :: 0 <= k < l < |t| ==> t[k] < t[l]
  }

  lemma ShiftIncreasing(t: seq<nat>)
    requires Increasing(t)
    ensures Increasing(Shift(t)) && Increasing([0] + Shift(t))
  {
    var u := [0] + Shift(t);
    forall k, l | 0 <= k < l < |u|
      ensures u[k] < u[l]
    {
      assert u[l] == t[l - 1] + 1;
      if k > 0 {
        assert u[k] == t[k - 1] + 1;
      }
    }
  }

  /** `idx` lists, at strictly increasing positions, where the elements of
      `r` sit in `s`. */
  ghost predicate PositionsOf<T>(idx: seq<nat>, r: seq<T>, s: seq<T>) {
    && |idx| == |r|
    && (forall k :: 0 <= k < |idx| ==> idx[k] < |s| && s[idx[k]] == r[k])
    && Increasing(idx)
  }

  /** Where each kept element sits in the input. */
  lemma {:induction false} FilterPositions<T>(s: seq<T>, p: T -> bool) returns (idx: seq<nat>)
    ensures PositionsOf(idx, Filter(s, p), s)
    decreases |s|
  {
    if |s| == 0 {
      idx := [];
    } else {
      var rest := Filter(s[1..], p);
      var tail := FilterPositions(s[1..], p);
      ShiftPositions(s, rest, tail);
      if p(s[0]) {
        assert Filter(s, p) == [s[0]] + rest;
        ConsPositions(s, rest, tail);
        idx := [0] + Shift(tail);
      } else {
        assert Filter(s, p) == rest;
        idx := Shift(tail);
      }
    }
  }

  /** Positions in the tail of `s` are positions in `s`, one further on. */
  lemma ShiftPositions<T>(s: seq<T>, r: seq<T>, tail: seq<nat>)
    requires |s| > 0 && PositionsOf(tail, r, s[1..])
    ensures PositionsOf(Shift(tail), r, s)
  {
    var shifted := Shift(tail);
    ShiftIncreasing(tail);
    forall k | 0 <= k < |tail|
      ensures shifted[k] < |s| && s[shifted[k]] == r[k]
    {
      assert s[shifted[k]] == s[1..][tail[k]];
    }
  }

  lemma ConsPositions<T>(s: seq<T>, r: seq<T>, tail: seq<nat>)
    requires |s| > 0 && PositionsOf(Shift(tail), r, s) && Increasing(tail)
    ensures PositionsOf([0] + Shift(tail), [s[0]] + r, s)
  {
    ShiftIncreasing(tail);
    var idx, shifted := [0] + Shift(tail), Shift(tail);
    forall k | 0 < k < |idx|
      ensures idx[k] == shifted[k - 1] && ([s[0]] + r)[k] == r[k - 1]
    {
    }
  }

  /** Filtering keeps the images under `f` distinct when they were. */
  lemma FilterMapNoDup<T, U>(s: seq<T>, p: T -> bool, f: T -> U)
    requires NoDup(MapSeq(s, f))
    ensures NoDup(MapSeq(Filter(s, p), f))
  {
    var idx := FilterPositions(s, p);
    var m, r := MapSeq(s, f), Filter(s, p);
    forall k, l | 0 <= k < l < |r|
      ensures MapSeq(r, f)[k] != MapSeq(r, f)[l]
    {
      assert idx[k] < idx[l];
      assert MapSeq(r, f)[k] == m[idx[k]] && MapSeq(r, f)[l] == m[idx[l]];
    }
  }

  /** The keys of the elements strictly increase along the sequence. */
  ghost predicate StrictlyIncreasing<T>(s: seq<T>, key: T -> int) {
    forall i, j :: 0 <= i < j < |s| ==> key(s[i]) < key(s[j])
  }

  /** Filtering keeps an increasing order. */
  lemma FilterKeepsIncreasing<T>(s: seq<T>, p: T -> bool, key: T -> int)
    requires StrictlyIncreasing(s, key)
    ensures StrictlyIncreasing(Filter(s, p), key)
  {
    var idx := FilterPositions(s, p);
    var r := Filter(s, p);
    forall k, l | 0 <= k < l < |r|
      ensures key(r[k]) < key(r[l])
    {
      assert idx[k] < idx[l];
      assert r[k] == s[idx[k]] && r[l] == s[idx[l]];
    }
  }

  /** Filtering a sequence extended at the back. */
  lemma {:induction false} FilterSnoc<T>(s: seq<T>, x: T, p: T -> bool)
    ensures Filter(s + [x], p) == Filter(s, p) + (if p(x) then [x] else [])
    decreases |s|
  {
    if |s| == 0 {
      assert s + [x] == [x];
      assert Filter([x], p) == (if p(x) then [x] else []) + Filter([], p);
    } else {
      assert (s + [x])[0] == s[0] && (s + [x])[1..] == s[1..] + [x];
      FilterSnoc(s[1..], x, p);
    }
  }

  /** Mapping a sequence extended at the back. */
  lemma MapSeqSnoc<T, U>(s: seq<T>, x: T, f: T -> U)
    ensures MapSeq(s + [x], f) == MapSeq(s, f) + [f(x)]
  {
  }

  /** Membership in a mapped filter, by witness. */
  lemma InMapFilter<T, U>(s: seq<T>, p: T -> bool, f: T -> U, y: U)
    ensures y in MapSeq(Filter(s, p), f) <==> exists k :: 0 <= k < |s| && p(s[k]) && f(s[k]) == y
  {
    var r := Filter(s, p);
    if y in MapSeq(r, f) {
      var j :| 0 <= j < |r| && MapSeq(r, f)[j] == y;
      assert r[j] in s;
      var k :| 0 <= k < |s| && s[k] == r[j];
      assert p(s[k]) && f(s[k]) == y;
    }
    if exists k :: 0 <= k < |s| && p(s[k]) && f(s[k]) == y {
      var k :| 0 <= k < |s| && p(s[k]) && f(s[k]) == y;
      assert s[k] in r;
      var j :| 0 <= j < |r| && r[j] == s[k];
      assert MapSeq(r, f)[j] == y;
    }
  }
}
