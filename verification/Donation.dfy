/** Priority donation on the wait-for graph: donate_priority and refresh_priority of
    src/threads/thread.c, driven by lock_acquire and lock_release of src/threads/synch.c. */
module Donation {
  import opened Objects
  import opened OrderedList

  /** The fields of all threads and locks that donation reads or writes.  An absent
      thread waits for nothing and holds nothing; an absent lock is free. */
  datatype Graph = Graph(
    base: map<Thread, int>,
    priority: map<Thread, int>,
    waiting: map<Thread, Lock?>,
    held: map<Thread, seq<Lock>>,
    holder: map<Lock, Thread?>,
    waiters: map<Lock, seq<Thread>>)

  function WaitsFor(g: Graph, t: Thread): Lock? {
    if t in g.waiting then g.waiting[t] else null
  }

  function Held(g: Graph, t: Thread): seq<Lock> {
    if t in g.held then g.held[t] else []
  }

  function Holder(g: Graph, l: Lock): Thread? {
    if l in g.holder then g.holder[l] else null
  }

  function Waiters(g: Graph, l: Lock): seq<Thread> {
    if l in g.waiters then g.waiters[l] else []
  }

  /** The edge of the wait-for graph that leaves t, if any. */
  function Next(g: Graph, t: Thread): Thread? {
    var l := WaitsFor(g, t);
    if l == null then null else Holder(g, l)
  }

  // ----- reachability -----

  function Nth(g: Graph, t: Thread, n: nat): Thread?
    decreases n
  {
    if n == 0 then t
    else
      var x := Next(g, t);
      if x == null then null else Nth(g, x, n - 1)
  }

  /** u waits for t, directly or through other threads, or is t. */
  ghost predicate Reaches(g: Graph, u: Thread, t: Thread) {
    exists n: nat :: Nth(g, u, n) == t
  }

  lemma ReachesItself(g: Graph, t: Thread)
    ensures Reaches(g, t, t)
  {
    assert Nth(g, t, 0) == t;
  }

  lemma ReachesThroughNext(g: Graph, u: Thread, t: Thread)
    ensures Reaches(g, u, t) <==> u == t || (Next(g, u) != null && Reaches(g, Next(g, u), t))
  {
    ReachesItself(g, t);
    if u != t && Reaches(g, u, t) {
      var n: nat :| Nth(g, u, n) == t;
      assert Nth(g, Next(g, u), n - 1) == t;
    }
    if Next(g, u) != null && Reaches(g, Next(g, u), t) {
      var n: nat :| Nth(g, Next(g, u), n) == t;
      assert Nth(g, u, n + 1) == t;
    }
  }

  lemma {:induction false} NthThenNth(g: Graph, t: Thread, m: nat, n: nat)
    requires Nth(g, t, m) != null
    ensures Nth(g, t, m + n) == Nth(g, Nth(g, t, m), n)
    decreases m
  {
    if m > 0 {
      NthThenNth(g, Next(g, t), m - 1, n);
    }
  }

  lemma ReachesOnward(g: Graph, u: Thread, x: Thread, t: Thread)
    requires Reaches(g, u, x) && Reaches(g, x, t)
    ensures Reaches(g, u, t)
  {
    var m: nat :| Nth(g, u, m) == x;
    var n: nat :| Nth(g, x, n) == t;
    NthThenNth(g, u, m, n);
  }

  lemma LastEdge(g: Graph, u: Thread, t: Thread) returns (x: Thread)
    requires Reaches(g, u, t) && u != t
    ensures Reaches(g, u, x) && Next(g, x) == t
  {
    var n: nat :| Nth(g, u, n) == t;
    x := LastEdgeAt(g, u, t, n);
  }

  lemma {:induction false} LastEdgeAt(g: Graph, u: Thread, t: Thread, n: nat) returns (x: Thread)
    requires Nth(g, u, n) == t && n > 0
    ensures Reaches(g, u, x) && Next(g, x) == t
    decreases n
  {
    if n == 1 {
      x := u;
      assert Nth(g, t, 0) == t;
      ReachesItself(g, u);
    } else {
      x := LastEdgeAt(g, Next(g, u), t, n - 1);
      ReachesThroughNext(g, u, x);
    }
  }

  // ----- donate_priority -----

  ghost function Poorer(priority: map<Thread, int>, v: int): set<Thread> {
    set t | t in priority && priority[t] < v
  }

  lemma PoorerShrinks(priority: map<Thread, int>, v: int, t: Thread)
    requires t in priority && priority[t] < v
    ensures |Poorer(priority[t := v], v)| < |Poorer(priority, v)|
  {
    assert Poorer(priority[t := v], v) == Poorer(priority, v) - {t};
  }

  /** donate_priority: walk the chain of holders, raise each to v, and stop at the first
      that already has v.  It ends on every finite graph, cycles included: each step
      leaves one thread fewer below v. */
  ghost function Donate(g: Graph, priority: map<Thread, int>, v: int, to: Thread): map<Thread, int>
    decreases |Poorer(priority, v)|
  {
    if to !in priority || v <= priority[to] then priority
    else
      PoorerShrinks(priority, v, to);
      var raised := priority[to := v];
      var next := Next(g, to);
      if next == null then raised else Donate(g, raised, v, next)
  }

  /** No thread waits for one of lower priority. */
  ghost predicate Monotone(g: Graph, priority: map<Thread, int>) {
    forall u :: u in g.waiting && Next(g, u) != null ==> Key(priority, u) <= Key(priority, Next(g, u))
  }

  /** Monotone but for `to`, which is about to be raised to v. */
  ghost predicate MonotoneOnce(g: Graph, priority: map<Thread, int>, v: int, to: Thread) {
    forall u :: u in g.waiting && Next(g, u) != null ==>
      Key(priority, u) <= (if Next(g, u) == to && v > Key(priority, to) then v else Key(priority, Next(g, u)))
  }

  ghost predicate Closed(g: Graph, priority: map<Thread, int>) {
    && (forall u :: u in g.waiting ==> u in priority)
    && (forall u :: u in g.waiting && Next(g, u) != null ==> Next(g, u) in priority)
  }

  /** The full walk: everybody reachable from `to` is raised to v, nobody else changes. */
  ghost predicate FullWalk(g: Graph, before: map<Thread, int>, v: int, to: Thread, after: map<Thread, int>) {
    && after.Keys == before.Keys
    && forall t :: t in before ==>
         after[t] == if Reaches(g, to, t) && before[t] < v then v else before[t]
  }

  lemma {:induction false} MonotoneAlong(g: Graph, priority: map<Thread, int>, u: Thread, n: nat)
    requires Monotone(g, priority) && Nth(g, u, n) != null
    ensures Key(priority, u) <= Key(priority, Nth(g, u, n))
    decreases n
  {
    if n > 0 {
      MonotoneAlong(g, priority, Next(g, u), n - 1);
    }
  }

  lemma MonotoneReach(g: Graph, priority: map<Thread, int>, u: Thread, t: Thread)
    requires Monotone(g, priority) && Reaches(g, u, t)
    ensures Key(priority, u) <= Key(priority, t)
  {
    var n: nat :| Nth(g, u, n) == t;
    MonotoneAlong(g, priority, u, n);
  }

  lemma {:induction false} DonateWalks(g: Graph, priority: map<Thread, int>, v: int, to: Thread)
    requires Closed(g, priority) && to in priority && MonotoneOnce(g, priority, v, to)
    ensures Monotone(g, Donate(g, priority, v, to))
    ensures FullWalk(g, priority, v, to, Donate(g, priority, v, to))
    decreases |Poorer(priority, v)|
  {
    if v <= priority[to] {
      forall t | t in priority && Reaches(g, to, t)
        ensures priority[t] >= v
      {
        MonotoneReach(g, priority, to, t);
      }
    } else {
      PoorerShrinks(priority, v, to);
      var raised := priority[to := v];
      var next := Next(g, to);
      forall t
        ensures Reaches(g, to, t) <==> to == t || (next != null && Reaches(g, next, t))
      {
        ReachesThroughNext(g, to, t);
      }
      if next != null {
        DonateWalks(g, raised, v, next);
      }
    }
  }

  /** The early cut-off loses nothing: if no edge but the donor's own is out of order, the
      donation equals the full walk, and afterwards every edge is in order. */
  lemma EarlyExitIsFullWalk(g: Graph, from: Thread, to: Thread)
    requires Closed(g, g.priority) && Next(g, from) == to
    requires forall u :: u in g.waiting && u != from && Next(g, u) != null ==>
               Key(g.priority, u) <= Key(g.priority, Next(g, u))
    ensures FullWalk(g, g.priority, Key(g.priority, from), to, Donate(g, g.priority, Key(g.priority, from), to))
    ensures Monotone(g, Donate(g, g.priority, Key(g.priority, from), to))
  {
    DonateWalks(g, g.priority, Key(g.priority, from), to);
  }
}
