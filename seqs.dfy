/** Sequence helpers shared by the stores and pages: the `filter`, `reduce`
    (sum), `find` and `some`/`every` idioms of the source, stated once. */
module Seqs {

  datatype Option<+T> = None | Some(value: T)

  /** A call that returns a value or throws an error with a message. */
  datatype Result<+T> = Ok(value: T) | Err(error: string)

  /** `s.filter(p)`: the elements satisfying `p`, in input order. */
  function Filter<T(==)>(s: seq<T>, p: T -> bool): (r: seq<T>)
    ensures |r| <= |s|
    ensures forall i :: 0 <= i < |r| ==> r[i] in s && p(r[i])
    ensures forall i :: 0 <= i < |s| && p(s[i]) ==> s[i] in r
    ensures multiset(r) <= multiset(s)
  {
    if s == [] then []
    else
      assert s == [s[0]] + s[1..];
      if p(s[0]) then [s[0]] + Filter(s[1..], p)
      else Filter(s[1..], p)
  }

  /** `s.map(f)`. */
  function Map<T, U>(s: seq<T>, f: T -> U): seq<U>
  {
    seq(|s|, k requires 0 <= k < |s| => f(s[k]))
  }

  /** `idx` picks out `r` from `s`: strictly increasing positions of `s`
      holding the elements of `r` in turn. */
  ghost predicate OrderedEmbedding<T>(idx: seq<nat>, r: seq<T>, s: seq<T>)
  {
    |idx| == |r| &&
    (forall k :: 0 <= k < |idx| ==> idx[k] < |s| && s[idx[k]] == r[k]) &&
    (forall i, j :: 0 <= i < j < |idx| ==> idx[i] < idx[j])
  }

  /** `s.reduce((sum, x) => sum + f(x), 0)`. */
  function SumBy<T>(s: seq<T>, f: T -> int): int
  {
    if s == [] then 0 else f(s[0]) + SumBy(s[1..], f)
  }

  /** Index of the first element satisfying `p`, as `Array.prototype.findIndex`
      (and hence `find`) visits them. */
  function FindFirst<T>(s: seq<T>, p: T -> bool): (r: Option<nat>)
    ensures r.Some? ==> r.value < |s| && p(s[r.value])
    ensures r.Some? ==> forall j :: 0 <= j < r.value ==> !p(s[j])
    ensures r.None? <==> forall j :: 0 <= j < |s| ==> !p(s[j])
  {
    if s == [] then None
    else if p(s[0]) then Some(0)
    else match FindFirst(s[1..], p)
      case None => None
      case Some(k) => Some(k + 1)
  }

  /** `s.every(p)`. */
  predicate Every<T>(s: seq<T>, p: T -> bool)
  {
    forall i :: 0 <= i < |s| ==> p(s[i])
  }

  /** `s.some(p)`. */
  predicate Any<T>(s: seq<T>, p: T -> bool)
  {
    exists i :: 0 <= i < |s| && p(s[i])
  }

  /** No element occurs twice. */
  predicate Distinct<T(==)>(s: seq<T>)
  {
    forall i, j :: 0 <= i < j < |s| ==> s[i] != s[j]
  }

  lemma {:induction false} FilterAppend<T>(a: seq<T>, b: seq<T>, p: T -> bool)
    ensures Filter(a + b, p) == Filter(a, p) + Filter(b, p)
  {
    if a == [] {
      assert a + b == b;
    } else {
      assert (a + b)[0] == a[0];
      assert (a + b)[1..] == a[1..] + b;
      FilterAppend(a[1..], b, p);
    }
  }

  lemma {:induction false} SumByAppend<T>(a: seq<T>, b: seq<T>, f: T -> int)
    ensures SumBy(a + b, f) == SumBy(a, f) + SumBy(b, f)
  {
    if a == [] {
      assert a + b == b;
    } else {
      assert (a + b)[0] == a[0];
      assert (a + b)[1..] == a[1..] + b;
      SumByAppend(a[1..], b, f);
    }
  }

  /** Summing the elements that satisfy `p` and those that do not gives the
      whole sum. */
  lemma {:induction false} SumByFilterSplit<T>(s: seq<T>, f: T -> int, p: T -> bool)
    ensures SumBy(Filter(s, p), f) + SumBy(Filter(s, x => !p(x)), f) == SumBy(s, f)
  {
    if s != [] {
      SumByFilterSplit(s[1..], f, p);
    }
  }

  /** A sum of non-negative terms grows when the filter keeps more. */
  lemma {:induction false} SumByFilterMonotone<T>(s: seq<T>, f: T -> int, p: T -> bool, q: T -> bool)
    requires forall x :: x in s ==> f(x) >= 0
    requires forall x :: x in s && q(x) ==> p(x)
    ensures SumBy(Filter(s, q), f) <= SumBy(Filter(s, p), f)
  {
    if s != [] {
      SumByFilterMonotone(s[1..], f, p, q);
    }
  }

  lemma {:induction false} SumByNonNegative<T>(s: seq<T>, f: T -> int)
    requires forall x :: x in s ==> f(x) >= 0
    ensures SumBy(s, f) >= 0
  {
    if s != [] {
      SumByNonNegative(s[1..], f);
    }
  }

  /** A filter every element passes keeps the whole sequence. */
  lemma {:induction false} FilterAll<T>(s: seq<T>, p: T -> bool)
    requires forall i :: 0 <= i < |s| ==> p(s[i])
    ensures Filter(s, p) == s
  {
    if s != [] {
      assert s == [s[0]] + s[1..];
      FilterAll(s[1..], p);
    }
  }

  /** Taking out the element at `k` takes one copy of it out of the
      multiset. */
  lemma RemoveAtMultiset<T>(b: seq<T>, k: nat)
    requires k < |b|
    ensures multiset(b[..k] + b[k + 1..]) == multiset(b) - multiset{b[k]}
  {
    var pre, post := b[..k], b[k + 1..];
    assert b == pre + [b[k]] + post;
    assert multiset(b) == multiset(pre) + multiset{b[k]} + multiset(post);
  }

  /** Taking out the element at `k` takes its term out of the sum. */
  lemma RemoveAtSum<T>(b: seq<T>, k: nat, f: T -> int)
    requires k < |b|
    ensures SumBy(b, f) == f(b[k]) + SumBy(b[..k] + b[k + 1..], f)
  {
    var pre, post := b[..k], b[k + 1..];
    var mid := [b[k]] + post;
    assert b == pre + mid;
    assert mid[0] == b[k] && mid[1..] == post;
    SumByAppend(pre, mid, f);
    SumByAppend(pre, post, f);
  }

  /** Reordering does not change a sum. */
  lemma {:induction false} SumByPermutation<T>(a: seq<T>, b: seq<T>, f: T -> int)
    requires multiset(a) == multiset(b)
    ensures SumBy(a, f) == SumBy(b, f)
    decreases |a|
  {
    if a == [] {
      assert |b| == |multiset(b)| == 0;
    } else {
      var x := a[0];
      assert a == [x] + a[1..];
      assert x in multiset(b);
      var k :| 0 <= k < |b| && b[k] == x;
      RemoveAtMultiset(b, k);
      RemoveAtSum(b, k, f);
      assert multiset(a[1..]) == multiset(a) - multiset{x};
      SumByPermutation(a[1..], b[..k] + b[k + 1..], f);
    }
  }

  /** The positions of `s` a filter keeps, in increasing order. */
  lemma {:induction false} FilterIndices<T>(s: seq<T>, p: T -> bool) returns (idx: seq<nat>)
    ensures OrderedEmbedding(idx, Filter(s, p), s)
    ensures forall i :: 0 <= i < |s| ==> (p(s[i]) <==> i in idx)
  {
    if s == [] {
      idx := [];
    } else {
      var tail := s[1..];
      var t := FilterIndices(tail, p);
      var shifted := ShiftEmbedding(t, Filter(tail, p), s);
      if p(s[0]) {
        idx := ConsEmbedding(shifted, s[0], Filter(tail, p), s);
        assert Filter(s, p) == [s[0]] + Filter(tail, p);
      } else {
        idx := shifted;
        assert Filter(s, p) == Filter(tail, p);
      }
      KeptPositions(s, p, t, shifted, idx);
    }
  }

  /** The positions kept in `s`, from those kept in its tail. */
  lemma KeptPositions<T>(s: seq<T>, p: T -> bool, t: seq<nat>, shifted: seq<nat>, idx: seq<nat>)
    requires |s| > 0
    requires forall i :: 0 <= i < |s| - 1 ==> (p(s[1..][i]) <==> i in t)
    requires forall i :: 0 < i < |s| ==> ((i - 1 in t) <==> (i in shifted))
    requires forall k :: 0 <= k < |shifted| ==> shifted[k] > 0
    requires idx == if p(s[0]) then [0] + shifted else shifted
    ensures forall i :: 0 <= i < |s| ==> (p(s[i]) <==> i in idx)
  {
    forall i | 0 < i < |s|
      ensures p(s[i]) <==> i in idx
    {
      assert s[i] == s[1..][i - 1];
    }
  }

  /** An embedding into the tail of `s`, moved one position up, embeds into
      `s` and avoids position 0. */
  lemma ShiftEmbedding<T>(t: seq<nat>, r: seq<T>, s: seq<T>) returns (shifted: seq<nat>)
    requires |s| > 0 && OrderedEmbedding(t, r, s[1..])
    ensures OrderedEmbedding(shifted, r, s)
    ensures forall k :: 0 <= k < |shifted| ==> shifted[k] > 0
    ensures forall i :: 0 < i < |s| ==> ((i - 1 in t) <==> (i in shifted))
  {
    shifted := seq(|t|, k requires 0 <= k < |t| => t[k] + 1);
    forall k | 0 <= k < |shifted|
      ensures s[shifted[k]] == r[k]
    {
      assert s[t[k] + 1] == s[1..][t[k]];
    }
    forall i | 0 < i < |s|
      ensures (i - 1 in t) <==> (i in shifted)
    {
      if i - 1 in t {
        var k :| 0 <= k < |t| && t[k] == i - 1;
        assert shifted[k] == i;
      }
      if i in shifted {
        var k :| 0 <= k < |shifted| && shifted[k] == i;
        assert t[k] == i - 1;
      }
    }
  }

  /** Position 0 in front of an embedding that avoids it. */
  lemma ConsEmbedding<T>(shifted: seq<nat>, x: T, r: seq<T>, s: seq<T>) returns (idx: seq<nat>)
    requires |s| > 0 && s[0] == x && OrderedEmbedding(shifted, r, s)
    requires forall k :: 0 <= k < |shifted| ==> shifted[k] > 0
    ensures idx == [0] + shifted
    ensures OrderedEmbedding(idx, [x] + r, s)
  {
    idx := [0] + shifted;
  }

  /** A filter keeps exactly the positions whose element satisfies `p`, in
      their original order. */
  lemma FilterEmbeds<T>(s: seq<T>, p: T -> bool)
    ensures exists idx :: OrderedEmbedding(idx, Filter(s, p), s) &&
                          forall i :: 0 <= i < |s| ==> (p(s[i]) <==> i in idx)
  {
    var idx := FilterIndices(s, p);
  }

  /** In a sequence without repeats every value occurs at most once. */
  lemma {:induction false} DistinctOccursOnce<T>(s: seq<T>, x: T)
    requires Distinct(s)
    ensures multiset(s)[x] <= 1
  {
    if s != [] {
      assert s == [s[0]] + s[1..];
      DistinctOccursOnce(s[1..], x);
      if s[0] == x {
        assert x !in s[1..];
      }
    }
  }

  /** A value found at two indices occurs at least twice. */
  lemma OccursTwice<T>(s: seq<T>, i: nat, j: nat)
    requires i < j < |s| && s[i] == s[j]
    ensures multiset(s)[s[i]] >= 2
  {
    assert s == s[..j] + s[j..];
    assert s[..j][i] == s[i];
    assert s[j..][0] == s[j];
    assert s[i] in multiset(s[..j]) && s[i] in multiset(s[j..]);
  }
}
