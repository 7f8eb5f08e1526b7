/** Grouping a sequence by a string key into a `Map` whose entries keep the
    order in which each key first appears (`Map` iterates in insertion
    order), each group holding its elements in input order. The menu groups
    rows by category, the admin page groups orders by table. */
module Grouping {
  import opened Seqs

  /** One step of the grouping loop: append `f(x)` to the group of `k`, or
      open a group for `k` at the end. */
  function Place<U>(groups: seq<(string, seq<U>)>, k: string, v: U): seq<(string, seq<U>)>
  {
    match FindFirst(groups, (g: (string, seq<U>)) => g.0 == k)
    case Some(i) => groups[i := (k, groups[i].1 + [v])]
    case None => groups + [(k, [v])]
  }

  /** The groups of `s` by `key`, each element stored as `f` of it. */
  function GroupBy<T, U>(s: seq<T>, key: T -> string, f: T -> U): seq<(string, seq<U>)>
  {
    if s == [] then []
    else Place(GroupBy(s[..|s| - 1], key, f), key(s[|s| - 1]), f(s[|s| - 1]))
  }

  /** `f` of the elements of `s` whose key is `k`, in input order. */
  function Bucket<T, U>(s: seq<T>, key: T -> string, f: T -> U, k: string): seq<U>
  {
    if s == [] then []
    else Bucket(s[..|s| - 1], key, f, k) + (if key(s[|s| - 1]) == k then [f(s[|s| - 1])] else [])
  }

  /** `w` summed over the elements of all groups. */
  function GroupTotal<U>(groups: seq<(string, seq<U>)>, w: U -> int): int
  {
    if groups == [] then 0 else SumBy(groups[0].1, w) + GroupTotal(groups[1..], w)
  }

  /** The number of elements of all groups. */
  function GroupSizes<U>(groups: seq<(string, seq<U>)>): int
  {
    if groups == [] then 0 else |groups[0].1| + GroupSizes(groups[1..])
  }

  /** `w` of `f` of each element, summed. */
  function SumMapped<T, U>(s: seq<T>, f: T -> U, w: U -> int): int
  {
    if s == [] then 0 else SumMapped(s[..|s| - 1], f, w) + w(f(s[|s| - 1]))
  }

  /** The identity, for groups that hold the elements themselves. */
  function Same<T>(x: T): T
  {
    x
  }

  lemma {:induction false} SumMappedSame<T>(s: seq<T>, w: T -> int)
    ensures SumMapped(s, Same, w) == SumBy(s, w)
  {
    if s != [] {
      var p := s[..|s| - 1];
      SumMappedSame(p, w);
      assert s == p + [s[|s| - 1]];
      SumByAppend(p, [s[|s| - 1]], w);
    }
  }

  /** When no group is empty there are at most as many groups as elements. */
  lemma {:induction false} GroupsAtMostSizes<U>(groups: seq<(string, seq<U>)>)
    requires forall j :: 0 <= j < |groups| ==> groups[j].1 != []
    ensures |groups| <= GroupSizes(groups)
  {
    if groups != [] {
      GroupsAtMostSizes(groups[1..]);
    }
  }

  ghost predicate DistinctKeys<U>(groups: seq<(string, seq<U>)>)
  {
    forall i, j :: 0 <= i < j < |groups| ==> groups[i].0 != groups[j].0
  }

  /** Every element's key has a group. */
  ghost predicate CoversKeys<T, U>(groups: seq<(string, seq<U>)>, s: seq<T>, key: T -> string)
  {
    forall i :: 0 <= i < |s| ==> exists j :: 0 <= j < |groups| && groups[j].0 == key(s[i])
  }

  /** Every group is the non-empty bucket of its key. */
  ghost predicate BucketsMatch<T, U>(groups: seq<(string, seq<U>)>, s: seq<T>, key: T -> string, f: T -> U)
  {
    forall j :: 0 <= j < |groups| ==> groups[j].1 == Bucket(s, key, f, groups[j].0) && groups[j].1 != []
  }

  /** Place keeps the keys it has, in order, and adds `k` at the end only
      when it is not among them. */
  lemma PlaceKeys<U>(groups: seq<(string, seq<U>)>, k: string, v: U)
    ensures var g := Place(groups, k, v);
      |groups| <= |g| <= |groups| + 1 &&
      (forall j :: 0 <= j < |groups| ==> g[j].0 == groups[j].0) &&
      (|g| == |groups| + 1 ==> g[|groups|] == (k, [v]) &&
                               forall j :: 0 <= j < |groups| ==> groups[j].0 != k) &&
      (exists j :: 0 <= j < |g| && g[j].0 == k)
  {
    match FindFirst(groups, (g: (string, seq<U>)) => g.0 == k)
    case Some(i) =>
      assert Place(groups, k, v)[i].0 == k;
    case None =>
      assert Place(groups, k, v)[|groups|].0 == k;
  }

  /** The keys of the groups. */
  ghost function GroupKeys<U>(groups: seq<(string, seq<U>)>): set<string>
  {
    set j | 0 <= j < |groups| :: groups[j].0
  }

  /** The distinct keys of the elements of `s`. */
  ghost function KeysOf<T>(s: seq<T>, key: T -> string): set<string>
  {
    set i | 0 <= i < |s| :: key(s[i])
  }

  lemma KeysOfSnoc<T>(s: seq<T>, key: T -> string)
    requires s != []
    ensures KeysOf(s, key) == KeysOf(s[..|s| - 1], key) + {key(s[|s| - 1])}
  {
    var p := s[..|s| - 1];
    forall c | c in KeysOf(s, key)
      ensures c in KeysOf(p, key) + {key(s[|s| - 1])}
    {
      var i :| 0 <= i < |s| && key(s[i]) == c;
      if i < |p| {
        assert s[i] == p[i];
      }
    }
    forall c | c in KeysOf(p, key)
      ensures c in KeysOf(s, key)
    {
      var i :| 0 <= i < |p| && key(p[i]) == c;
      assert s[i] == p[i];
    }
  }

  /** The groups' keys are exactly the elements' keys. */
  lemma {:induction false} GroupKeysAreKeys<T, U>(s: seq<T>, key: T -> string, f: T -> U)
    ensures GroupKeys(GroupBy(s, key, f)) == KeysOf(s, key)
  {
    if s != [] {
      var p := s[..|s| - 1];
      var x := s[|s| - 1];
      GroupKeysAreKeys(p, key, f);
      KeysOfSnoc(s, key);
      var g0 := GroupBy(p, key, f);
      var g := GroupBy(s, key, f);
      PlaceKeys(g0, key(x), f(x));
      forall c | c in GroupKeys(g)
        ensures c in GroupKeys(g0) + {key(x)}
      {
        var j :| 0 <= j < |g| && g[j].0 == c;
        if j < |g0| {
          assert g0[j].0 == c;
        }
      }
      forall c | c in GroupKeys(g0) + {key(x)}
        ensures c in GroupKeys(g)
      {
        if c in GroupKeys(g0) {
          var j :| 0 <= j < |g0| && g0[j].0 == c;
          assert g[j].0 == c;
        } else {
          var j :| 0 <= j < |g| && g[j].0 == key(x);
        }
      }
    }
  }

  /** There are exactly as many groups as distinct keys. */
  lemma {:induction false} GroupCountIsKeyCount<T, U>(s: seq<T>, key: T -> string, f: T -> U)
    ensures |GroupBy(s, key, f)| == |KeysOf(s, key)|
  {
    if s != [] {
      var p := s[..|s| - 1];
      var x := s[|s| - 1];
      GroupCountIsKeyCount(p, key, f);
      GroupKeysAreKeys(p, key, f);
      KeysOfSnoc(s, key);
      var g0 := GroupBy(p, key, f);
      var g := GroupBy(s, key, f);
      PlaceKeys(g0, key(x), f(x));
      if |g| == |g0| + 1 {
        assert key(x) !in GroupKeys(g0);
      } else {
        var j :| 0 <= j < |g| && g[j].0 == key(x);
        assert g0[j].0 == key(x);
        assert key(x) in GroupKeys(g0);
        assert KeysOf(s, key) == KeysOf(p, key);
      }
    }
  }

  lemma {:induction false} BucketAbsent<T, U>(s: seq<T>, key: T -> string, f: T -> U, k: string)
    requires forall i :: 0 <= i < |s| ==> key(s[i]) != k
    ensures Bucket(s, key, f, k) == []
  {
    if s != [] {
      BucketAbsent(s[..|s| - 1], key, f, k);
    }
  }

  /** Keys are distinct and every element's key has a group. */
  lemma {:induction false} GroupByKeys<T, U>(s: seq<T>, key: T -> string, f: T -> U)
    ensures DistinctKeys(GroupBy(s, key, f))
    ensures CoversKeys(GroupBy(s, key, f), s, key)
  {
    if s != [] {
      var p := s[..|s| - 1];
      var x := s[|s| - 1];
      GroupByKeys(p, key, f);
      var g0 := GroupBy(p, key, f);
      var g := GroupBy(s, key, f);
      PlaceKeys(g0, key(x), f(x));
      forall i | 0 <= i < |s|
        ensures exists j :: 0 <= j < |g| && g[j].0 == key(s[i])
      {
        if i < |p| {
          assert s[i] == p[i];
          var j :| 0 <= j < |g0| && g0[j].0 == key(p[i]);
          assert g[j].0 == g0[j].0;
        }
      }
    }
  }

  /** Each group holds exactly `f` of the elements with its key, in input
      order, and no group is empty. */
  lemma {:induction false} GroupByBuckets<T, U>(s: seq<T>, key: T -> string, f: T -> U)
    ensures BucketsMatch(GroupBy(s, key, f), s, key, f)
  {
    if s != [] {
      var p := s[..|s| - 1];
      var x := s[|s| - 1];
      var k := key(x);
      GroupByBuckets(p, key, f);
      GroupByKeys(p, key, f);
      var g0 := GroupBy(p, key, f);
      var g := GroupBy(s, key, f);
      assert s[..|s| - 1] == p;
      match FindFirst(g0, (gr: (string, seq<U>)) => gr.0 == k)
      case Some(i) =>
        assert g == g0[i := (k, g0[i].1 + [f(x)])];
        forall j | 0 <= j < |g|
          ensures g[j].1 == Bucket(s, key, f, g[j].0) && g[j].1 != []
        {
          var c := g[j].0;
          assert Bucket(s, key, f, c) == Bucket(p, key, f, c) + (if k == c then [f(x)] else []);
          if j != i {
            assert g[j] == g0[j];
            assert g0[j].0 != g0[i].0;
            assert g0[j].1 == Bucket(p, key, f, g0[j].0);
          } else {
            assert g0[i].1 == Bucket(p, key, f, g0[i].0);
          }
        }
      case None =>
        forall i | 0 <= i < |p|
          ensures key(p[i]) != k
        {
          var j :| 0 <= j < |g0| && g0[j].0 == key(p[i]);
        }
        BucketAbsent(p, key, f, k);
        assert g == g0 + [(k, [f(x)])];
        forall j | 0 <= j < |g|
          ensures g[j].1 == Bucket(s, key, f, g[j].0) && g[j].1 != []
        {
          var c := g[j].0;
          assert Bucket(s, key, f, c) == Bucket(p, key, f, c) + (if k == c then [f(x)] else []);
          if j < |g0| {
            assert g[j] == g0[j];
            assert g0[j].0 != k;
            assert g0[j].1 == Bucket(p, key, f, g0[j].0);
          } else {
            assert Bucket(p, key, f, c) == [];
          }
        }
    }
  }

  lemma {:induction false} GroupTotalUpdate<U>(groups: seq<(string, seq<U>)>, i: nat, ng: (string, seq<U>), w: U -> int)
    requires i < |groups|
    ensures GroupTotal(groups[i := ng], w) == GroupTotal(groups, w) - SumBy(groups[i].1, w) + SumBy(ng.1, w)
  {
    if i > 0 {
      assert groups[i := ng][1..] == groups[1..][i - 1 := ng];
      GroupTotalUpdate(groups[1..], i - 1, ng, w);
    }
  }

  lemma {:induction false} GroupTotalAppend<U>(groups: seq<(string, seq<U>)>, ng: (string, seq<U>), w: U -> int)
    ensures GroupTotal(groups + [ng], w) == GroupTotal(groups, w) + SumBy(ng.1, w)
  {
    if groups != [] {
      assert (groups + [ng])[1..] == groups[1..] + [ng];
      GroupTotalAppend(groups[1..], ng, w);
    }
  }

  /** Summing over the groups sums over every element once. */
  lemma {:induction false} GroupByTotal<T, U>(s: seq<T>, key: T -> string, f: T -> U, w: U -> int)
    ensures GroupTotal(GroupBy(s, key, f), w) == SumMapped(s, f, w)
  {
    if s != [] {
      var p := s[..|s| - 1];
      var x := s[|s| - 1];
      GroupByTotal(p, key, f, w);
      var g0 := GroupBy(p, key, f);
      match FindFirst(g0, (gr: (string, seq<U>)) => gr.0 == key(x))
      case Some(i) =>
        GroupTotalUpdate(g0, i, (key(x), g0[i].1 + [f(x)]), w);
        SumByAppend(g0[i].1, [f(x)], w);
      case None =>
        GroupTotalAppend(g0, (key(x), [f(x)]), w);
    }
  }

  lemma {:induction false} GroupSizesUpdate<U>(groups: seq<(string, seq<U>)>, i: nat, ng: (string, seq<U>))
    requires i < |groups|
    ensures GroupSizes(groups[i := ng]) == GroupSizes(groups) - |groups[i].1| + |ng.1|
  {
    if i > 0 {
      assert groups[i := ng][1..] == groups[1..][i - 1 := ng];
      GroupSizesUpdate(groups[1..], i - 1, ng);
    }
  }

  lemma {:induction false} GroupSizesAppend<U>(groups: seq<(string, seq<U>)>, ng: (string, seq<U>))
    ensures GroupSizes(groups + [ng]) == GroupSizes(groups) + |ng.1|
  {
    if groups != [] {
      assert (groups + [ng])[1..] == groups[1..] + [ng];
      GroupSizesAppend(groups[1..], ng);
    }
  }

  /** No element is lost or duplicated. */
  lemma {:induction false} GroupByCount<T, U>(s: seq<T>, key: T -> string, f: T -> U)
    ensures GroupSizes(GroupBy(s, key, f)) == |s|
  {
    if s != [] {
      var p := s[..|s| - 1];
      var x := s[|s| - 1];
      GroupByCount(p, key, f);
      var g0 := GroupBy(p, key, f);
      match FindFirst(g0, (gr: (string, seq<U>)) => gr.0 == key(x))
      case Some(i) =>
        GroupSizesUpdate(g0, i, (key(x), g0[i].1 + [f(x)]));
      case None =>
        GroupSizesAppend(g0, (key(x), [f(x)]));
    }
  }
}
