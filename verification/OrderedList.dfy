/** What the kernel asks of the Pintos list library: ordered insertion, the first
    maximum, and the theory that ties a list kept sorted to a plain arrival queue.
    `key` is the field that the comparator reads; bigger keys go first. */
module OrderedList {

  function Key<T>(key: map<T, int>, x: T): int {
    if x in key then key[x] else 0
  }

  /** list_insert_ordered with less(a, b) = key(a) > key(b): just before the first
      element that is strictly less important. */
  function Insert<T>(s: seq<T>, key: map<T, int>, x: T): seq<T> {
    if s == [] then [x]
    else if Key(key, x) > Key(key, s[0]) then [x] + s
    else [s[0]] + Insert(s[1..], key, x)
  }

  ghost predicate Sorted<T>(s: seq<T>, key: map<T, int>) {
    forall i, j :: 0 <= i < j < |s| ==> Key(key, s[i]) >= Key(key, s[j])
  }

  /** The elements whose key is k, in order. */
  function Class<T>(s: seq<T>, key: map<T, int>, k: int): seq<T> {
    if s == [] then []
    else (if Key(key, s[0]) == k then [s[0]] else []) + Class(s[1..], key, k)
  }

  /** Feeding an arrival sequence through list_insert_ordered. */
  function StableSort<T>(arrival: seq<T>, key: map<T, int>): seq<T> {
    if arrival == [] then []
    else Insert(StableSort(arrival[..|arrival| - 1], key), key, arrival[|arrival| - 1])
  }

  /** list_max: the position of the first maximum. */
  function FirstMax<T>(s: seq<T>, key: map<T, int>): (m: nat)
    requires s != []
    ensures m < |s|
    ensures forall i :: 0 <= i < |s| ==> Key(key, s[i]) <= Key(key, s[m])
    ensures forall i :: 0 <= i < m ==> Key(key, s[i]) < Key(key, s[m])
  {
    var n := |s| - 1;
    if n == 0 then 0
    else
      var m := FirstMax(s[..n], key);
      assert forall i :: 0 <= i < n ==> s[..n][i] == s[i];
      if Key(key, s[m]) < Key(key, s[n]) then n else m
  }

  function RemoveAt<T>(s: seq<T>, i: nat): seq<T>
    requires i < |s|
  {
    s[..i] + s[i + 1..]
  }

  /** list_remove of every x. */
  function Without<T(==)>(s: seq<T>, x: T): seq<T> {
    if s == [] then []
    else (if s[0] == x then [] else [s[0]]) + Without(s[1..], x)
  }

  ghost predicate Distinct<T>(s: seq<T>) {
    forall i, j :: 0 <= i < j < |s| ==> s[i] != s[j]
  }

  /** The elements whose key is at least k, in order. */
  function AtLeast<T>(s: seq<T>, key: map<T, int>, k: int): seq<T> {
    if s == [] then []
    else (if Key(key, s[0]) >= k then [s[0]] else []) + AtLeast(s[1..], key, k)
  }

  /** The elements whose key is below k, in order. */
  function Below<T>(s: seq<T>, key: map<T, int>, k: int): seq<T> {
    if s == [] then []
    else (if Key(key, s[0]) < k then [s[0]] else []) + Below(s[1..], key, k)
  }

  // ----- removal -----

  lemma {:induction false} WithoutMembers<T>(s: seq<T>, x: T, y: T)
    ensures y in Without(s, x) <==> y in s && y != x
  {
    if s != [] {
      WithoutMembers(s[1..], x, y);
    }
  }

  lemma {:induction false} WithoutKeepsDistinct<T>(s: seq<T>, x: T)
    requires Distinct(s)
    ensures Distinct(Without(s, x))
  {
    if s != [] {
      WithoutKeepsDistinct(s[1..], x);
      WithoutMembers(s[1..], x, s[0]);
    }
  }

  // ----- insertion -----

  /** Where list_insert_ordered stops. */
  lemma {:induction false} InsertAt<T>(s: seq<T>, key: map<T, int>, x: T, i: nat)
    requires i <= |s|
    requires forall j :: 0 <= j < i ==> Key(key, x) <= Key(key, s[j])
    requires i < |s| ==> Key(key, x) > Key(key, s[i])
    ensures Insert(s, key, x) == s[..i] + [x] + s[i..]
  {
    if i > 0 {
      InsertAt(s[1..], key, x, i - 1);
      assert s[1..][..i - 1] == s[1..i] && s[1..][i - 1..] == s[i..];
      assert s[..i] == [s[0]] + s[1..i];
    }
  }

  lemma {:induction false} InsertIsPermutation<T>(s: seq<T>, key: map<T, int>, x: T)
    ensures multiset(Insert(s, key, x)) == multiset(s) + multiset{x}
    ensures |Insert(s, key, x)| == |s| + 1
  {
    if s != [] {
      assert s == [s[0]] + s[1..];
      if Key(key, x) <= Key(key, s[0]) {
        InsertIsPermutation(s[1..], key, x);
      }
    }
  }

  lemma MemberOfInsert<T>(s: seq<T>, key: map<T, int>, x: T, y: T)
    ensures y in Insert(s, key, x) <==> y == x || y in s
  {
    InsertIsPermutation(s, key, x);
    assert y in Insert(s, key, x) <==> y in multiset(Insert(s, key, x));
    assert y in s <==> y in multiset(s);
  }

  lemma {:induction false} InsertKeepsSorted<T>(s: seq<T>, key: map<T, int>, x: T)
    requires Sorted(s, key)
    ensures Sorted(Insert(s, key, x), key)
  {
    if s != [] && Key(key, x) <= Key(key, s[0]) {
      var rest := Insert(s[1..], key, x);
      InsertKeepsSorted(s[1..], key, x);
      forall i | 0 <= i < |rest|
        ensures Key(key, rest[i]) <= Key(key, s[0])
      {
        MemberOfInsert(s[1..], key, x, rest[i]);
      }
    }
  }

  lemma {:induction false} ClassIsEmpty<T>(s: seq<T>, key: map<T, int>, k: int)
    requires forall x :: x in s ==> Key(key, x) != k
    ensures Class(s, key, k) == []
  {
    if s != [] {
      ClassIsEmpty(s[1..], key, k);
    }
  }

  lemma {:induction false} ClassOfConcat<T>(a: seq<T>, b: seq<T>, key: map<T, int>, k: int)
    ensures Class(a + b, key, k) == Class(a, key, k) + Class(b, key, k)
  {
    if a == [] {
      assert a + b == b;
    } else {
      assert (a + b)[1..] == a[1..] + b;
      ClassOfConcat(a[1..], b, key, k);
    }
  }

  lemma ClassOfOne<T>(x: T, key: map<T, int>, k: int)
    ensures Class([x], key, k) == if Key(key, x) == k then [x] else []
  {
    assert [x][1..] == [];
  }

  lemma FifoInFront<T>(s: seq<T>, key: map<T, int>, x: T, k: int)
    requires Sorted(s, key) && (s == [] || Key(key, x) > Key(key, s[0]))
    ensures Class([x] + s, key, k) == if Key(key, x) == k then Class(s, key, k) + [x] else Class(s, key, k)
  {
    assert ([x] + s)[1..] == s;
    if Key(key, x) == k {
      ClassIsEmpty(s, key, k);
    }
  }

  /** Ordered insertion is last-in of its class and disturbs no other class: FIFO. */
  lemma {:induction false} InsertIsFifo<T>(s: seq<T>, key: map<T, int>, x: T, k: int)
    requires Sorted(s, key)
    ensures Class(Insert(s, key, x), key, k)
            == if Key(key, x) == k then Class(s, key, k) + [x] else Class(s, key, k)
  {
    hide Key, Class;
    if s == [] || Key(key, x) > Key(key, s[0]) {
      FifoInFront(s, key, x, k);
      assert Insert(s, key, x) == [x] + s;
    } else {
      InsertIsFifo(s[1..], key, x, k);
      ClassOfConcat([s[0]], Insert(s[1..], key, x), key, k);
      ClassOfConcat([s[0]], s[1..], key, k);
      assert s == [s[0]] + s[1..];
    }
  }

  lemma {:induction false} InsertKeepsDistinct<T>(s: seq<T>, key: map<T, int>, x: T)
    requires Distinct(s) && x !in s
    ensures Distinct(Insert(s, key, x))
  {
    if s != [] && Key(key, x) <= Key(key, s[0]) {
      InsertKeepsDistinct(s[1..], key, x);
      MemberOfInsert(s[1..], key, x, s[0]);
    }
  }

  // ----- stable sorting -----

  lemma {:induction false} StableSortSorts<T>(s: seq<T>, key: map<T, int>)
    ensures Sorted(StableSort(s, key), key)
    ensures multiset(StableSort(s, key)) == multiset(s)
    ensures |StableSort(s, key)| == |s|
  {
    hide Insert, Key;
    if s != [] {
      var n := |s| - 1;
      StableSortSorts(s[..n], key);
      InsertKeepsSorted(StableSort(s[..n], key), key, s[n]);
      InsertIsPermutation(StableSort(s[..n], key), key, s[n]);
      assert s == s[..n] + [s[n]];
    }
  }

  lemma {:induction false} StableSortIsStable<T>(s: seq<T>, key: map<T, int>, k: int)
    ensures Class(StableSort(s, key), key, k) == Class(s, key, k)
  {
    hide Key, Class, Insert, Sorted;
    if s != [] {
      var n := |s| - 1;
      StableSortIsStable(s[..n], key, k);
      StableSortSorts(s[..n], key);
      InsertIsFifo(StableSort(s[..n], key), key, s[n], k);
      ClassOfConcat(s[..n], [s[n]], key, k);
      ClassOfOne(s[n], key, k);
      assert s == s[..n] + [s[n]];
    }
  }

  lemma MemberOfSort<T>(s: seq<T>, key: map<T, int>, x: T)
    ensures x in StableSort(s, key) <==> x in s
  {
    StableSortSorts(s, key);
    assert x in StableSort(s, key) <==> x in multiset(StableSort(s, key));
    assert x in s <==> x in multiset(s);
  }

  lemma ClassHead<T>(s: seq<T>, key: map<T, int>)
    requires s != []
    ensures Class(s, key, Key(key, s[0])) == [s[0]] + Class(s[1..], key, Key(key, s[0]))
  {}

  lemma ClassTail<T>(s: seq<T>, key: map<T, int>, k: int)
    requires s != []
    ensures Class(s, key, k) == (if Key(key, s[0]) == k then [s[0]] else []) + Class(s[1..], key, k)
    ensures Class(s[1..], key, k)
            == if Key(key, s[0]) == k then Class(s, key, k)[1..] else Class(s, key, k)
  {}

  lemma {:induction false} ClassMembers<T>(s: seq<T>, key: map<T, int>, k: int, x: T)
    ensures x in Class(s, key, k) <==> x in s && Key(key, x) == k
  {
    if s != [] {
      ClassMembers(s[1..], key, k, x);
    }
  }

  /** Sorted lists with the same classes are the same list. */
  lemma {:induction false} SortedIsUnique<T>(a: seq<T>, b: seq<T>, key: map<T, int>)
    requires Sorted(a, key) && Sorted(b, key)
    requires forall k :: Class(a, key, k) == Class(b, key, k)
    ensures a == b
  {
    if a == [] || b == [] {
      if a != [] { ClassHead(a, key); }
      if b != [] { ClassHead(b, key); }
    } else {
      ClassHead(a, key);
      ClassHead(b, key);
      var ka, kb := Key(key, a[0]), Key(key, b[0]);
      assert b[0] in Class(a, key, kb) && a[0] in Class(b, key, ka);
      ClassMembers(a, key, kb, b[0]);
      ClassMembers(b, key, ka, a[0]);
      assert ka == kb;
      assert a[0] == Class(a, key, ka)[0] == Class(b, key, kb)[0] == b[0];
      forall k
        ensures Class(a[1..], key, k) == Class(b[1..], key, k)
      {
        ClassTail(a, key, k);
        ClassTail(b, key, k);
      }
      SortedIsUnique(a[1..], b[1..], key);
      assert a == [a[0]] + a[1..] && b == [b[0]] + b[1..];
    }
  }

  lemma SortedIsItsOwnSort<T>(s: seq<T>, key: map<T, int>)
    requires Sorted(s, key)
    ensures StableSort(s, key) == s
  {
    StableSortSorts(s, key);
    forall k
      ensures Class(StableSort(s, key), key, k) == Class(s, key, k)
    {
      StableSortIsStable(s, key, k);
    }
    SortedIsUnique(StableSort(s, key), s, key);
  }

  // ----- selection of the first maximum -----

  lemma {:induction false} ClassOfRemoval<T>(s: seq<T>, key: map<T, int>, m: nat, k: int)
    requires m < |s|
    ensures Class(s, key, k)
            == Class(s[..m], key, k) + Class([s[m]], key, k) + Class(s[m + 1..], key, k)
    ensures Class(RemoveAt(s, m), key, k) == Class(s[..m], key, k) + Class(s[m + 1..], key, k)
  {
    assert s == s[..m] + ([s[m]] + s[m + 1..]);
    ClassOfConcat(s[..m], [s[m]] + s[m + 1..], key, k);
    ClassOfConcat([s[m]], s[m + 1..], key, k);
    ClassOfConcat(s[..m], s[m + 1..], key, k);
  }

  lemma FirstMaxOnTop<T>(s: seq<T>, key: map<T, int>)
    requires s != []
    ensures var m := FirstMax(s, key); Sorted([s[m]] + StableSort(RemoveAt(s, m), key), key)
  {
    var m := FirstMax(s, key);
    var rest := RemoveAt(s, m);
    hide Key, StableSort, FirstMax;
    var sorted := StableSort(rest, key);
    StableSortSorts(rest, key);
    forall i | 0 <= i < |sorted|
      ensures Key(key, s[m]) >= Key(key, sorted[i])
    {
      MemberOfSort(rest, key, sorted[i]);
    }
  }

  /** Taking the first maximum out of an arrival queue takes the head off its sorted
      form: scanning for the maximum and keeping the list sorted agree. */
  lemma {:induction false} FirstMaxHeadsTheSort<T>(s: seq<T>, key: map<T, int>)
    requires s != []
    ensures StableSort(s, key) == [s[FirstMax(s, key)]] + StableSort(RemoveAt(s, FirstMax(s, key)), key)
  {
    hide Key, Class, StableSort, Sorted, FirstMax, RemoveAt;
    var m := FirstMax(s, key);
    var sorted := StableSort(RemoveAt(s, m), key);
    StableSortSorts(s, key);
    FirstMaxOnTop(s, key);
    forall k
      ensures Class(StableSort(s, key), key, k) == Class([s[m]] + sorted, key, k)
    {
      FirstMaxLeadsItsClass(s, key, m, k);
    }
    SortedIsUnique(StableSort(s, key), [s[m]] + sorted, key);
  }

  lemma FirstMaxLeadsItsClass<T>(s: seq<T>, key: map<T, int>, m: nat, k: int)
    requires m < |s|
    requires forall i :: 0 <= i < m ==> Key(key, s[i]) < Key(key, s[m])
    ensures Class(StableSort(s, key), key, k) == Class([s[m]] + StableSort(RemoveAt(s, m), key), key, k)
  {
    var rest := RemoveAt(s, m);
    var front, back := Class(s[..m], key, k), Class(s[m + 1..], key, k);
    var mid := Class([s[m]], key, k);
    ClassOfOne(s[m], key, k);
    assert mid != [] ==> front == [] by {
      if mid != [] {
        ClassIsEmpty(s[..m], key, k);
      }
    }
    hide Key, Class, StableSort, RemoveAt;
    ClassOfRemoval(s, key, m, k);
    assert front + mid + back == mid + (front + back);
    ClassOfConcat([s[m]], StableSort(rest, key), key, k);
    StableSortIsStable(rest, key, k);
    StableSortIsStable(s, key, k);
  }

  // ----- splitting at a threshold -----

  lemma {:induction false} SplitMembers<T>(s: seq<T>, key: map<T, int>, k: int, x: T)
    ensures x in AtLeast(s, key, k) <==> x in s && Key(key, x) >= k
    ensures x in Below(s, key, k) <==> x in s && Key(key, x) < k
  {
    if s != [] {
      SplitMembers(s[1..], key, k, x);
    }
  }

  lemma {:induction false} SplitCounts<T>(s: seq<T>, key: map<T, int>, k: int)
    ensures multiset(AtLeast(s, key, k)) + multiset(Below(s, key, k)) == multiset(s)
  {
    if s != [] {
      SplitCounts(s[1..], key, k);
      assert s == [s[0]] + s[1..];
    }
  }

  lemma {:induction false} SplitClasses<T>(s: seq<T>, key: map<T, int>, k: int, c: int)
    ensures Class(AtLeast(s, key, k), key, c) == if c >= k then Class(s, key, c) else []
    ensures Class(Below(s, key, k), key, c) == if c < k then Class(s, key, c) else []
  {
    if s != [] {
      SplitClasses(s[1..], key, k, c);
      ClassOfConcat(if Key(key, s[0]) >= k then [s[0]] else [], AtLeast(s[1..], key, k), key, c);
      ClassOfConcat(if Key(key, s[0]) < k then [s[0]] else [], Below(s[1..], key, k), key, c);
    }
  }

  lemma HeadIsGreatest<T>(s: seq<T>, key: map<T, int>)
    requires Sorted(s, key) && s != []
    ensures forall x :: x in s ==> Key(key, x) <= Key(key, s[0])
    ensures forall x :: x in s[1..] ==> Key(key, x) <= Key(key, s[0])
    ensures Sorted(s[1..], key)
  {}

  lemma SplitOfHead<T>(s: seq<T>, key: map<T, int>, k: int)
    requires s != []
    ensures var high := AtLeast(s[1..], key, k);
            AtLeast(s, key, k) == if Key(key, s[0]) >= k then [s[0]] + high else high
    ensures var low := Below(s[1..], key, k);
            Below(s, key, k) == if Key(key, s[0]) < k then [s[0]] + low else low
  {}

  lemma ConsOfConcat<T>(x: T, a: seq<T>, b: seq<T>)
    ensures [x] + (a + b) == ([x] + a) + b
    ensures [] + a == a && [] + ([x] + a) == [x] + a
  {}

  lemma HeadAndTail<T>(s: seq<T>)
    requires s != []
    ensures s == [s[0]] + s[1..]
  {}

  /** In a sorted list the elements above a threshold form a prefix. */
  lemma {:induction false} SortedSplit<T>(s: seq<T>, key: map<T, int>, k: int)
    requires Sorted(s, key)
    ensures s == AtLeast(s, key, k) + Below(s, key, k)
  {
    hide Sorted, AtLeast, Below, Key;
    if s == [] {
      SplitOfNil<T>(key, k);
    } else {
      HeadIsGreatest(s, key);
      HeadAndTail(s);
      SplitOfHead(s, key, k);
      SortedSplit(s[1..], key, k);
      if Key(key, s[0]) < k {
        NoneAtLeast(s[1..], key, k);
      }
      ConsOfConcat(s[0], AtLeast(s[1..], key, k), Below(s[1..], key, k));
      ConsOfConcat(s[0], Below(s[1..], key, k), []);
    }
  }

  lemma SplitOfNil<T>(key: map<T, int>, k: int)
    ensures AtLeast([], key, k) == [] && Below([], key, k) == []
  {}

  /** A sorted list whose head is below the threshold has nothing above it. */
  lemma AllBelow<T>(s: seq<T>, key: map<T, int>, k: int)
    requires Sorted(s, key) && (s == [] || Key(key, s[0]) < k)
    ensures AtLeast(s, key, k) == [] && Below(s, key, k) == s
  {
    hide Sorted, Key, AtLeast, Below;
    SortedSplit(s, key, k);
    if s == [] {
      SplitOfNil<T>(key, k);
    } else {
      HeadIsGreatest(s, key);
      NoneAtLeast(s, key, k);
      ConsOfConcat(s[0], Below(s, key, k), []);
      assert [] + Below(s, key, k) == Below(s, key, k);
    }
  }

  lemma SplitKeepsSorted<T>(s: seq<T>, key: map<T, int>, k: int)
    requires Sorted(s, key)
    ensures Sorted(AtLeast(s, key, k), key) && Sorted(Below(s, key, k), key)
  {
    SortedSplit(s, key, k);
    var n := |AtLeast(s, key, k)|;
    assert AtLeast(s, key, k) == s[..n] && Below(s, key, k) == s[n..];
  }

  lemma {:induction false} NoneAtLeast<T>(s: seq<T>, key: map<T, int>, k: int)
    requires forall x :: x in s ==> Key(key, x) < k
    ensures AtLeast(s, key, k) == []
  {
    if s != [] {
      NoneAtLeast(s[1..], key, k);
    }
  }

  /** Splitting an arrival queue and sorting the parts is splitting its sorted form. */
  lemma SplitCommutesWithSort<T>(s: seq<T>, key: map<T, int>, k: int)
    ensures StableSort(AtLeast(s, key, k), key) == AtLeast(StableSort(s, key), key, k)
    ensures StableSort(Below(s, key, k), key) == Below(StableSort(s, key), key, k)
  {
    var sorted, high, low := StableSort(s, key), AtLeast(s, key, k), Below(s, key, k);
    StableSortSorts(s, key);
    StableSortSorts(high, key);
    StableSortSorts(low, key);
    SplitKeepsSorted(sorted, key, k);
    forall c
      ensures Class(StableSort(high, key), key, c) == Class(AtLeast(sorted, key, k), key, c)
      ensures Class(StableSort(low, key), key, c) == Class(Below(sorted, key, k), key, c)
    {
      StableSortIsStable(s, key, c);
      StableSortIsStable(high, key, c);
      StableSortIsStable(low, key, c);
      SplitClasses(s, key, k, c);
      SplitClasses(sorted, key, k, c);
    }
    SortedIsUnique(StableSort(high, key), AtLeast(sorted, key, k), key);
    SortedIsUnique(StableSort(low, key), Below(sorted, key, k), key);
  }

  // ----- keys of absent elements do not matter -----

  ghost predicate Agree<T>(s: seq<T>, key: map<T, int>, other: map<T, int>) {
    forall x :: x in s ==> Key(key, x) == Key(other, x)
  }

  lemma SortedAgrees<T>(s: seq<T>, key: map<T, int>, other: map<T, int>)
    requires Sorted(s, key) && Agree(s, key, other)
    ensures Sorted(s, other)
  {}

  lemma {:induction false} InsertAgrees<T>(s: seq<T>, key: map<T, int>, other: map<T, int>, x: T)
    requires Agree(s, key, other) && Key(key, x) == Key(other, x)
    ensures Insert(s, key, x) == Insert(s, other, x)
  {
    if s != [] {
      InsertAgrees(s[1..], key, other, x);
    }
  }

  lemma {:induction false} StableSortAgrees<T>(s: seq<T>, key: map<T, int>, other: map<T, int>)
    requires Agree(s, key, other)
    ensures StableSort(s, key) == StableSort(s, other)
  {
    if s != [] {
      var n := |s| - 1;
      StableSortAgrees(s[..n], key, other);
      forall x | x in StableSort(s[..n], key)
        ensures Key(key, x) == Key(other, x)
      {
        MemberOfSort(s[..n], key, x);
      }
      InsertAgrees(StableSort(s[..n], key), key, other, s[n]);
    }
  }

  lemma {:induction false} ClassAgrees<T>(s: seq<T>, key: map<T, int>, other: map<T, int>, k: int)
    requires Agree(s, key, other)
    ensures Class(s, key, k) == Class(s, other, k)
  {
    if s != [] {
      ClassAgrees(s[1..], key, other, k);
    }
  }
}
