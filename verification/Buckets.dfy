/** The MLFQS run queue: an array of FIFO buckets, bucket p for priority p. */
module Buckets {
  import opened OrderedList

  /** All buckets from 0 upward, joined. */
  function Flat<T>(b: seq<seq<T>>): seq<T> {
    if b == [] then [] else Flat(b[..|b| - 1]) + b[|b| - 1]
  }

  function Push<T>(b: seq<seq<T>>, p: nat, x: T): seq<seq<T>>
    requires p < |b|
  {
    b[p := b[p] + [x]]
  }

  function PopFront<T>(b: seq<seq<T>>, p: nat): seq<seq<T>>
    requires p < |b| && b[p] != []
  {
    b[p := b[p][1..]]
  }

  /** The highest non-empty bucket, or -1. */
  function Top<T>(b: seq<seq<T>>): (p: int)
    ensures -1 <= p < |b|
    ensures p >= 0 ==> b[p] != []
    ensures forall q :: p < q < |b| ==> b[q] == []
  {
    if b == [] then -1
    else if b[|b| - 1] != [] then |b| - 1
    else
      var p := Top(b[..|b| - 1]);
      assert forall q :: p < q < |b| - 1 ==> b[..|b| - 1][q] == b[q];
      p
  }

  /** Every element sits in the bucket of its key. */
  ghost predicate InPlace<T>(b: seq<seq<T>>, key: map<T, int>) {
    forall p, i :: 0 <= p < |b| && 0 <= i < |b[p]| ==> Key(key, b[p][i]) == p
  }

  /** The n buckets that receive s one element at a time. */
  function Distribute<T>(s: seq<T>, n: nat, key: map<T, int>): (b: seq<seq<T>>)
    ensures |b| == n
  {
    seq(n, p => Class(s, key, p))
  }

  /** The simple specification of mlfqs_reorganize_queues: bucket p becomes the stable
      filter "key is p" of all the old buckets joined from 0 upward. */
  function Rebucket<T>(b: seq<seq<T>>, key: map<T, int>): (r: seq<seq<T>>)
    ensures |r| == |b|
  {
    Distribute(Flat(b), |b|, key)
  }

  // ----- joining -----

  lemma {:induction false} FlatAround<T>(b: seq<seq<T>>, p: nat)
    requires p < |b|
    ensures Flat(b) == Flat(b[..p]) + b[p] + Flat(b[p + 1..])
  {
    var n := |b| - 1;
    if p == n {
      assert b[p + 1..] == [];
    } else {
      var c := b[..n];
      FlatAround(c, p);
      assert c[..p] == b[..p] && c[p] == b[p];
      var tail := b[p + 1..];
      assert tail[..|tail| - 1] == c[p + 1..] && tail[|tail| - 1] == b[n];
    }
  }

  lemma FlatUpdate<T>(b: seq<seq<T>>, p: nat, s: seq<T>)
    requires p < |b|
    ensures multiset(Flat(b[p := s])) + multiset(b[p]) == multiset(Flat(b)) + multiset(s)
  {
    FlatAround(b, p);
    FlatAround(b[p := s], p);
    assert b[p := s][..p] == b[..p] && b[p := s][p + 1..] == b[p + 1..];
  }

  lemma CancelSum<T>(a: multiset<T>, b: multiset<T>, c: multiset<T>)
    requires a + c == b + c
    ensures a == b
  {
    assert a == (a + c) - c;
    assert b == (b + c) - c;
  }

  lemma PushCounts<T>(b: seq<seq<T>>, p: nat, x: T)
    requires p < |b|
    ensures multiset(Flat(Push(b, p, x))) == multiset(Flat(b)) + multiset{x}
  {
    FlatUpdate(b, p, b[p] + [x]);
    assert multiset(b[p] + [x]) == multiset(b[p]) + multiset{x};
    CancelSum(multiset(Flat(Push(b, p, x))), multiset(Flat(b)) + multiset{x}, multiset(b[p]));
  }

  lemma PopCounts<T>(b: seq<seq<T>>, p: nat)
    requires p < |b| && b[p] != []
    ensures multiset(Flat(b)) == multiset(Flat(PopFront(b, p))) + multiset{b[p][0]}
  {
    var rest := b[p][1..];
    FlatUpdate(b, p, rest);
    assert b[p] == [b[p][0]] + rest;
    assert multiset(b[p]) == multiset{b[p][0]} + multiset(rest);
    CancelSum(multiset(Flat(b)), multiset(Flat(PopFront(b, p))) + multiset{b[p][0]}, multiset(rest));
  }

  lemma {:induction false} MemberOfFlat<T>(b: seq<seq<T>>, x: T)
    ensures x in Flat(b) <==> exists p :: 0 <= p < |b| && x in b[p]
  {
    if b != [] {
      var n := |b| - 1;
      MemberOfFlat(b[..n], x);
      if x in Flat(b[..n]) {
        var p :| 0 <= p < n && x in b[..n][p];
        assert x in b[p];
      }
      if p :| 0 <= p < |b| && x in b[p] {
        assert p < n ==> x in b[..n][p];
      }
    }
  }

  lemma InPlaceAgrees<T>(b: seq<seq<T>>, key: map<T, int>, other: map<T, int>)
    requires InPlace(b, key) && Agree(Flat(b), key, other)
    ensures InPlace(b, other)
  {
    forall p, i | 0 <= p < |b| && 0 <= i < |b[p]|
      ensures Key(other, b[p][i]) == p
    {
      MemberOfFlat(b, b[p][i]);
    }
  }

  lemma InPlaceMember<T>(b: seq<seq<T>>, key: map<T, int>, x: T)
    requires InPlace(b, key) && x in Flat(b)
    ensures 0 <= Key(key, x) < |b| && x in b[Key(key, x)]
  {
    MemberOfFlat(b, x);
  }

  lemma EmptyTop<T>(b: seq<seq<T>>)
    ensures Top(b) == -1 <==> Flat(b) == []
  {
    if Flat(b) != [] {
      MemberOfFlat(b, Flat(b)[0]);
    }
    if Top(b) >= 0 {
      MemberOfFlat(b, b[Top(b)][0]);
    }
  }

  // ----- redistribution -----

  lemma DistributeOne<T>(s: seq<T>, x: T, n: nat, key: map<T, int>)
    requires 0 <= Key(key, x) < n
    ensures Distribute(s + [x], n, key) == Push(Distribute(s, n, key), Key(key, x), x)
  {
    forall p | 0 <= p < n
      ensures Distribute(s + [x], n, key)[p] == Push(Distribute(s, n, key), Key(key, x), x)[p]
    {
      ClassOfConcat(s, [x], key, p);
    }
  }

  lemma {:induction false} DistributeCounts<T>(s: seq<T>, n: nat, key: map<T, int>)
    requires forall x :: x in s ==> 0 <= Key(key, x) < n
    ensures multiset(Flat(Distribute(s, n, key))) == multiset(s)
    decreases |s|
  {
    if s == [] {
      AllEmpty(Distribute(s, n, key));
    } else {
      var m := |s| - 1;
      assert s == s[..m] + [s[m]];
      DistributeCounts(s[..m], n, key);
      DistributeOne(s[..m], s[m], n, key);
      PushCounts(Distribute(s[..m], n, key), Key(key, s[m]), s[m]);
    }
  }

  lemma {:induction false} AllEmpty<T>(b: seq<seq<T>>)
    requires forall p :: 0 <= p < |b| ==> b[p] == []
    ensures Flat(b) == []
  {
    if b != [] {
      AllEmpty(b[..|b| - 1]);
    }
  }

  /** Re-bucketing loses and invents nobody and puts everybody where he belongs. */
  lemma RebucketIsSound<T>(b: seq<seq<T>>, key: map<T, int>)
    requires forall x :: x in Flat(b) ==> 0 <= Key(key, x) < |b|
    ensures multiset(Flat(Rebucket(b, key))) == multiset(Flat(b))
    ensures InPlace(Rebucket(b, key), key)
    ensures forall p :: 0 <= p < |b| ==> Class(Flat(Rebucket(b, key)), key, p) == Class(Flat(b), key, p)
  {
    DistributeCounts(Flat(b), |b|, key);
    var r := Rebucket(b, key);
    forall p, i | 0 <= p < |r| && 0 <= i < |r[p]|
      ensures Key(key, r[p][i]) == p
    {
      ClassMembers(Flat(b), key, p, r[p][i]);
    }
    forall p | 0 <= p < |b|
      ensures Class(Flat(r), key, p) == Class(Flat(b), key, p)
    {
      ClassOfFlat(r, key, p);
    }
  }

  /** When everybody is already in place the pass changes nothing. */
  lemma RebucketIsIdentityInPlace<T>(b: seq<seq<T>>, key: map<T, int>)
    requires InPlace(b, key)
    ensures Rebucket(b, key) == b
  {
    forall p | 0 <= p < |b|
      ensures Rebucket(b, key)[p] == b[p]
    {
      ClassOfFlat(b, key, p);
    }
  }

  lemma {:induction false} ClassOfFlat<T>(b: seq<seq<T>>, key: map<T, int>, p: nat)
    requires InPlace(b, key)
    ensures Class(Flat(b), key, p) == if p < |b| then b[p] else []
  {
    if b != [] {
      var n := |b| - 1;
      ClassOfFlat(b[..n], key, p);
      ClassOfConcat(Flat(b[..n]), b[n], key, p);
      if p == n {
        ClassOfUniform(b[n], key, p);
      } else {
        ClassIsEmpty(b[n], key, p);
      }
    }
  }

  lemma {:induction false} ClassOfUniform<T>(s: seq<T>, key: map<T, int>, k: int)
    requires forall i :: 0 <= i < |s| ==> Key(key, s[i]) == k
    ensures Class(s, key, k) == s
  {
    if s != [] {
      ClassOfUniform(s[1..], key, k);
    }
  }
}
