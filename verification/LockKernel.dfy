/** Locks with donation as they run: donate_priority, refresh_priority, lock_acquire and
    lock_release update threads and locks in place.  `Abs` is the state of module
    DonationRuns: the recorded fields, and who owns, waits and is releasing.  Waking and
    queueing on the lock's semaphore is that of module Synch. */
module LockKernel {
  import opened Objects
  import opened OrderedList
  import opened Semaphores
  import opened Donation
  import opened DonationBooks
  import opened DonationRuns
  import opened Synch
  import opened Options
  import Locks

  lemma DonateLooksAtEdges(g: Graph, h: Graph, priority: map<Thread, int>, v: int, to: Thread)
    requires g.waiting == h.waiting && g.holder == h.holder
    ensures Donate(g, priority, v, to) == Donate(h, priority, v, to)
    decreases |Poorer(priority, v)|
  {
    if to in priority && priority[to] < v {
      PoorerShrinks(priority, v, to);
      if Next(g, to) != null {
        DonateLooksAtEdges(g, h, priority[to := v], v, Next(g, to));
      }
    }
  }

  /** All pointers of g lead to threads and locks of g. */
  ghost predicate Known(g: Graph) {
    && g.base.Keys == g.priority.Keys == g.waiting.Keys == g.held.Keys && g.holder.Keys == g.waiters.Keys
    && (forall t :: t in g.priority ==> PointsToKnown(g, t))
    && (forall l :: l in g.holder ==> KnowsItsThreads(g, l))
  }

  ghost predicate PointsToKnown(g: Graph, t: Thread) {
    && (WaitsFor(g, t) != null ==> WaitsFor(g, t) in g.holder)
    && (forall m :: m in Held(g, t) ==> m in g.holder)
  }

  ghost predicate KnowsItsThreads(g: Graph, l: Lock) {
    && (Holder(g, l) != null ==> Holder(g, l) in g.priority)
    && (forall w :: w in Waiters(g, l) ==> w in g.priority)
  }

  lemma KnownThread(g: Graph, t: Thread)
    requires Known(g) && t in g.priority
    ensures WaitsFor(g, t) != null ==> WaitsFor(g, t) in g.holder
    ensures forall m :: m in Held(g, t) ==> m in g.holder
  {
    assert PointsToKnown(g, t);
  }

  lemma KnownLock(g: Graph, l: Lock)
    requires Known(g) && l in g.holder
    ensures Holder(g, l) != null ==> Holder(g, l) in g.priority
    ensures forall w :: w in Waiters(g, l) ==> w in g.priority
  {
    assert KnowsItsThreads(g, l);
  }

  lemma KnownKeepsPriorities(g: Graph, priority: map<Thread, int>)
    requires Known(g) && priority.Keys == g.priority.Keys
    ensures Known(g.(priority := priority))
  {
    KnownElsewhere(g, g.(priority := priority), {}, {});
  }

  /** Only the records of the threads ts and the locks ls have to be looked at again. */
  lemma KnownElsewhere(g: Graph, h: Graph, ts: set<Thread>, ls: set<Lock>)
    requires Known(g) && h.priority.Keys == g.priority.Keys && h.holder.Keys == g.holder.Keys
    requires h.base.Keys == h.priority.Keys == h.waiting.Keys == h.held.Keys && h.holder.Keys == h.waiters.Keys
    requires forall t :: t in g.priority && t !in ts ==> WaitsFor(h, t) == WaitsFor(g, t) && Held(h, t) == Held(g, t)
    requires forall l :: l in g.holder && l !in ls ==> Holder(h, l) == Holder(g, l) && Waiters(h, l) == Waiters(g, l)
    requires forall t :: t in ts ==> PointsToKnown(h, t)
    requires forall l :: l in ls ==> KnowsItsThreads(h, l)
    ensures Known(h)
  {
    forall t | t in h.priority
      ensures PointsToKnown(h, t)
    {
      if t !in ts {
        assert PointsToKnown(g, t);
      }
    }
    forall l | l in h.holder
      ensures KnowsItsThreads(h, l)
    {
      if l !in ls {
        assert KnowsItsThreads(g, l);
      }
    }
  }

  lemma EnlistIsKnown(g: Graph, t: Thread, l: Lock)
    requires Known(g) && t in g.priority && l in g.holder
    ensures Known(Enlist(g, t, l))
  {
    KnownThread(g, t);
    KnownLock(g, l);
    forall w
      ensures w in Insert(Waiters(g, l), g.priority, t) <==> w == t || w in Waiters(g, l)
    {
      MemberOfInsert(Waiters(g, l), g.priority, t, w);
    }
    assert Waiters(Enlist(g, t, l), l) == Insert(Waiters(g, l), g.priority, t);
    assert KnowsItsThreads(Enlist(g, t, l), l);
    KnownElsewhere(g, Enlist(g, t, l), {t}, {l});
  }

  /** Everything a consistent graph points to is known. */
  lemma ConsistentIsKnown(g: Graph)
    requires Consistent(g) && g.holder.Keys == g.waiters.Keys
    ensures Known(g)
  {
    DomainsAgree(g);
    forall t | t in g.priority
      ensures forall l :: l in Held(g, t) ==> l in g.holder
      ensures WaitsFor(g, t) != null ==> WaitsFor(g, t) in g.holder
    {
      assert ThreadOk(g, t);
    }
    forall l | l in g.holder
      ensures Holder(g, l) != null ==> Holder(g, l) in g.priority
      ensures forall w :: w in Waiters(g, l) ==> w in g.priority
    {
      assert LockOk(g, l);
    }
  }

  /** A lock that nobody has used yet. */
  function WithLock(s: Locking, l: Lock): Locking {
    s.(code := s.code.(holder := s.code.holder[l := null], waiters := s.code.waiters[l := []]))
  }

  lemma WithLockReads(s: Locking, l: Lock, m: Lock)
    requires l !in s.code.holder && l !in s.code.waiters
    ensures var s1 := WithLock(s, l);
            && Holder(s1.code, m) == Holder(s.code, m) && Waiters(s1.code, m) == Waiters(s.code, m)
            && s1 == s.(code := s1.code) && s1.code == s.code.(holder := s1.code.holder, waiters := s1.code.waiters)
  {}

  lemma WithLockThread(s: Locking, l: Lock, t: Thread)
    requires l !in s.code.holder && l !in s.code.waiters && ThreadOk(s.code, t) && ThreadPhase(s, t)
    ensures ThreadOk(WithLock(s, l).code, t) && ThreadPhase(WithLock(s, l), t)
  {
    hide WithLock, Distinct, Holder, Waiters;
    forall m
      ensures Holder(WithLock(s, l).code, m) == Holder(s.code, m)
      ensures Waiters(WithLock(s, l).code, m) == Waiters(s.code, m)
    {
      WithLockReads(s, l, m);
    }
    WithLockFields(s, l);
  }

  lemma WithLockFields(s: Locking, l: Lock)
    ensures var s1 := WithLock(s, l);
            s1 == s.(code := s1.code) && s1.code == s.code.(holder := s1.code.holder, waiters := s1.code.waiters)
  {}

  lemma WithLockIs(s: Locking, l: Lock)
    ensures WithLock(s, l)
            == Locking(s.code.(holder := s.code.holder[l := null], waiters := s.code.waiters[l := []]),
                       s.owner, s.blocked, s.releasing)
  {}

  lemma WithLockLock(s: Locking, l: Lock, m: Lock)
    requires l !in s.code.holder && l !in s.code.waiters && LockOk(s.code, m) && LockPhase(s, m)
    ensures LockOk(WithLock(s, l).code, m) && LockPhase(WithLock(s, l), m)
  {
    hide WithLock, Distinct, Holder, Waiters;
    WithLockReads(s, l, m);
  }

  lemma WithLockIsCoherent(s: Locking, l: Lock)
    requires Coherent(s) && l !in s.code.holder && l !in s.code.waiters
    ensures Coherent(WithLock(s, l))
  {
    hide Coherent, ThreadOk, LockOk, ThreadPhase, LockPhase, WithLock;
    forall t | t in s.code.priority
      ensures ThreadOk(WithLock(s, l).code, t) && ThreadPhase(WithLock(s, l), t)
    {
      LockIsOk(s, l, t);
      WithLockThread(s, l, t);
    }
    forall m
      ensures LockOk(WithLock(s, l).code, m) && LockPhase(WithLock(s, l), m)
    {
      LockIsOk(s, m, null);
      WithLockLock(s, l, m);
    }
    WithLockDomains(s, l);
  }

  lemma WithLockDomains(s: Locking, l: Lock)
    requires Coherent(s)
    requires forall t :: t in s.code.priority ==> ThreadOk(WithLock(s, l).code, t) && ThreadPhase(WithLock(s, l), t)
    requires forall m :: LockOk(WithLock(s, l).code, m) && LockPhase(WithLock(s, l), m)
    ensures Coherent(WithLock(s, l))
  {
    hide ThreadOk, LockOk, ThreadPhase, LockPhase;
  }

  lemma LockIsOk(s: Locking, m: Lock, t: Thread?)
    requires Coherent(s)
    ensures LockOk(s.code, m) && LockPhase(s, m)
    ensures t != null && t in s.code.priority ==> ThreadOk(s.code, t) && ThreadPhase(s, t)
  {
    assert m in s.code.holder.Keys + s.code.waiters.Keys ==> LockOk(s.code, m);
    assert m in s.code.holder.Keys + s.owner.Keys ==> LockPhase(s, m);
  }

  /** The value of a lock's semaphore, according to who owns the lock. */
  function Units(s: Locking, l: Lock): nat {
    if OwnerOf(s, l) == null then 1 else 0
  }

  /** The semaphore of l is up if and only if nobody owns l, and the threads on it are
      distinct, blocked, and waiting for l. */
  ghost predicate SemaphoreOk(s: Locking, l: Lock)
    reads l.semaphore, l.semaphore.waiters`status
  {
    && l.semaphore.value == Units(s, l) && Distinct(l.semaphore.waiters)
    && forall t :: t in l.semaphore.waiters ==> WaitsIn(s, t, l) && t.status == Blocked
  }

  predicate WaitsIn(s: Locking, t: Thread, l: Lock) {
    t in s.code.priority && BlockedOn(s, t) == l
  }

  /** Nothing has changed but who owns l and what t waits for. */
  ghost predicate SameElsewhere(s: Locking, s1: Locking, t: Thread, l: Lock?) {
    && (if l == null then s1.owner == s.owner else UpdatedAt(s.owner, s1.owner, l))
    && UpdatedAt(s.blocked, s1.blocked, t) && s.code.priority.Keys <= s1.code.priority.Keys
  }

  lemma SemaphoreStaysOk(s: Locking, s1: Locking, t: Thread, l: Lock?, m: Lock)
    requires SemaphoreOk(s, m) && SameElsewhere(s, s1, t, l) && m != l
    requires s1.blocked == s.blocked || t !in m.semaphore.waiters
    ensures SemaphoreOk(s1, m)
  {}

  /** A thread that has gone to sleep on l. */
  lemma SleeperIsOk(s: Locking, l: Lock, ws: seq<Thread>, key: map<Thread, int>, t: Thread)
    requires l.semaphore.waiters == Insert(ws, key, t) && l.semaphore.value == Units(s, l)
    requires Distinct(ws) && t !in ws && WaitsIn(s, t, l) && t.status == Blocked
    requires forall u :: u in ws ==> WaitsIn(s, u, l) && u.status == Blocked
    ensures SemaphoreOk(s, l)
  {
    InsertKeepsDistinct(ws, key, t);
    forall u | u in l.semaphore.waiters
      ensures WaitsIn(s, u, l) && u.status == Blocked
    {
      MemberOfInsert(ws, key, t, u);
    }
  }

  /** A lock that is not known has no owner. */
  lemma UnknownIsUnowned(s: Locking, l: Lock)
    requires Coherent(s) && l !in s.code.holder && l !in s.code.waiters
    ensures OwnerOf(s, l) == null
  {
    var o := OwnerOf(s, l);
    assert Waiters(s.code, l) == [] && Holder(s.code, l) == null;
    hide Coherent;
    if o != null {
      PhasesMean(s, o, l);
      CoherentMeans(s, o);
      ListsMatchPointers(s.code, l, o);
    }
  }

  lemma RefreshedFrom(g: Graph, t: Thread)
    ensures Refreshed(g, t) == LocksMax(g, Held(g, t), t, Key(g.base, t))
  {}

  lemma SamePriorities(g: Graph, h: Graph, l: Lock)
    requires h == g.(priority := h.priority)
    ensures Waiters(h, l) == Waiters(g, l) && h.holder == g.holder
  {}

  lemma ContendFields(g: Graph, t: Thread, l: Lock, holder: Thread)
    ensures var c := Enlist(g, t, l);
            && c == g.(waiting := g.waiting[t := l], waiters := g.waiters[l := Insert(Waiters(g, l), g.priority, t)])
            && Contend(g, t, l, holder) == c.(priority := Donate(c, c.priority, Key(g.priority, t), holder))
            && c.priority == g.priority
  {
    hide Donate, Insert;
  }

  lemma JoinFields(g: Graph, t: Thread, l: Lock)
    ensures Enlist(g, t, l)
            == g.(waiting := g.waiting[t := l], waiters := g.waiters[l := Insert(Waiters(g, l), g.priority, t)])
  {}

  lemma KeyOfUpdate(key: map<Thread, int>, t: Thread, v: int, x: Thread)
    ensures Key(key[t := v], x) == if x == t then v else Key(key, x)
  {}

  /** Where a first pass through lock_acquire leaves its caller. */
  function StopOf(s: Locking, l: Lock): Locks.Stage {
    if Holder(s.code, l) != null then Locks.Arriving
    else if OwnerOf(s, l) != null then Locks.FreeDown
    else Locks.Owner
  }

  /** Where a later pass leaves t. */
  function PassOf(s: Locking, t: Thread, l: Lock): Locks.Stage {
    if WaitsFor(s.code, t) == null then if OwnerOf(s, l) == null then Locks.Owner else Locks.FreeDown
    else if OwnerOf(s, l) == null then Locks.Taken else Locks.HeldDown
  }

  class LockTable {
    ghost var threads: set<Thread>
    ghost var locks: set<Lock>
    ghost var base: map<Thread, int>
    ghost var priority: map<Thread, int>
    ghost var waiting: map<Thread, Lock?>
    ghost var held: map<Thread, seq<Lock>>
    ghost var holder: map<Lock, Thread?>
    ghost var waiters: map<Lock, seq<Thread>>
    ghost var owner: map<Lock, Thread?>
    ghost var blocked: map<Thread, Lock?>
    ghost var releasing: set<Thread>

    ghost function Code(): Graph
      reads `base, `priority, `waiting, `held, `holder, `waiters
    {
      Graph(base, priority, waiting, held, holder, waiters)
    }

    ghost function Abs(): Locking
      reads this
    {
      Locking(Code(), owner, blocked, releasing)
    }

    ghost predicate Recorded(t: Thread)
      reads `base, `priority, `waiting, `held, t`basePriority, t`priority, t`waitingLock, t`locksHeld
    {
      && t in priority && t.priority == priority[t] && t in base && t.basePriority == base[t]
      && t in waiting && t.waitingLock == waiting[t] && t in held && t.locksHeld == held[t]
    }

    ghost predicate LockRecorded(l: Lock)
      reads `holder, `waiters, l`holder, l`waiters
    {
      l in holder && l.holder == holder[l] && l in waiters && l.waiters == waiters[l]
    }

    /** The ghost maps hold the records of all threads and locks. */
    ghost predicate Synced()
      reads `threads, `locks, `base, `priority, `waiting, `held, `holder, `waiters
      reads threads`basePriority, threads`priority, threads`waitingLock, threads`locksHeld
      reads locks`holder, locks`waiters
    {
      && priority.Keys == threads && holder.Keys == locks == waiters.Keys
      && (forall t :: t in threads ==> Recorded(t))
      && (forall l :: l in locks ==> LockRecorded(l))
    }

    ghost function Semaphores(): set<Semaphore>
      reads `locks
    {
      set l | l in locks :: l.semaphore
    }

    /** Each lock has a semaphore of its own, whose value and waiters are right. */
    ghost predicate SemaphoresOk()
      reads this, threads`status, Semaphores()
    {
      && (forall l, m :: l in locks && m in locks && l != m ==> l.semaphore != m.semaphore)
      && (forall l :: l in locks ==> HasKnownWaiters(l) && SemaphoreOk(Abs(), l))
    }

    ghost predicate HasKnownWaiters(l: Lock)
      reads `threads, l.semaphore
    {
      forall t :: t in l.semaphore.waiters ==> t in threads
    }

    ghost predicate Valid()
      reads this, threads, locks, Semaphores()
    {
      Synced() && Coherent(Abs()) && SemaphoresOk()
    }

    constructor ()
      ensures Valid() && Abs() == NO_THREADS
    {
      threads, locks, base, priority, waiting := {}, {}, map[], map[], map[];
      held, holder, waiters := map[], map[], map[];
      owner, blocked, releasing := map[], map[], {};
    }

    /** What happens to l and t leaves the semaphores of other locks alone; x is the only
        thread whose status has changed. */
    twostate lemma SemaphoresStayOk(new t: Thread, new l: Lock?, new x: Thread?)
      requires old(SemaphoresOk()) && SameElsewhere(old(Abs()), Abs(), t, l)
      requires locks == old(locks) && old(threads) <= threads
      requires forall m :: m in locks && (l == null || m.semaphore != l.semaphore) ==>
                 m.semaphore.value == old(m.semaphore.value) && m.semaphore.waiters == old(m.semaphore.waiters)
      requires forall y :: y in old(threads) && y != x ==> y.status == old(y.status)
      requires Abs().blocked == old(Abs()).blocked || t !in old(threads)
               || forall m :: m in locks && m != l ==> t !in old(m.semaphore.waiters)
      requires forall m :: m in locks && m != l ==> x !in old(m.semaphore.waiters)
      requires l != null ==> l in locks && HasKnownWaiters(l) && SemaphoreOk(Abs(), l)
      ensures SemaphoresOk()
    {
      ghost var s, s1 := old(Abs()), Abs();
      hide Abs, SameElsewhere, Units, WaitsIn, Distinct;
      forall m | m in locks && m != l
        ensures HasKnownWaiters(m) && SemaphoreOk(s1, m)
      {
        assert old(HasKnownWaiters(m) && SemaphoreOk(s, m));
        SemaphoreStaysOk(s, s1, t, l, m);
      }
    }

    lemma ReadsSemaphore(l: Lock)
      requires SemaphoresOk() && l in locks
      ensures HasKnownWaiters(l) && SemaphoreOk(Abs(), l)
    {}

    lemma KnownWaiters(l: Lock)
      requires Synced() && SemaphoreOk(Abs(), l)
      ensures HasKnownWaiters(l)
    {}

    twostate lemma FreeStaysOk(new cur: Thread, new lock: Lock, new key: map<Thread, int>)
      requires old(SemaphoresOk()) && lock in old(locks) && cur in old(threads) && old(cur.status) != Blocked
      requires if OwnerOf(old(Abs()), lock) == null
               then Abs() == Got(old(Abs()), cur, lock) && lock.semaphore.waiters == old(lock.semaphore.waiters)
               else Abs() == Asleep(old(Abs()), cur, lock) && cur.status == Blocked
                    && lock.semaphore.waiters == Insert(old(lock.semaphore.waiters), key, cur)
      requires locks == old(locks) && threads == old(threads) && Synced()
      requires forall m :: m in locks && m.semaphore != lock.semaphore ==>
                 m.semaphore.value == old(m.semaphore.value) && m.semaphore.waiters == old(m.semaphore.waiters)
      requires forall y :: y in threads && y != cur ==> y.status == old(y.status)
      requires cur in old(Abs()).code.priority && lock.semaphore.value == 0
      ensures SemaphoresOk()
    {
      ghost var s := old(Abs());
      assert old(HasKnownWaiters(lock) && SemaphoreOk(s, lock));
      hide Abs, Got, Asleep, SameElsewhere, Insert, Distinct;
      forall m | m in locks
        ensures cur !in old(m.semaphore.waiters)
      {
        assert old(SemaphoreOk(s, m));
      }
      forall u | u in old(lock.semaphore.waiters)
        ensures WaitsIn(s, u, lock) && u.status == Blocked
      {
        assert old(u.status) == Blocked;
      }
      FreeIsOk(s, Abs(), cur, lock, old(lock.semaphore.waiters), key);
      KnownWaiters(lock);
      SemaphoresStayOk(cur, lock, cur);
    }

    twostate lemma DownStaysOk(new cur: Thread, new lock: Lock, new success: bool, new key: map<Thread, int>)
      requires old(SemaphoresOk()) && lock in old(locks) && cur in old(threads) && old(cur.status) != Blocked
      requires BlockedOn(old(Abs()), cur) == lock && cur in old(Abs()).code.priority
      requires success == (OwnerOf(old(Abs()), lock) == null)
      requires if success
               then Abs() == LockingStep(old(Abs()), TakeUnit(cur, lock))
                    && lock.semaphore.waiters == old(lock.semaphore.waiters)
               else Abs() == old(Abs()) && cur.status == Blocked
                    && lock.semaphore.waiters == Insert(old(lock.semaphore.waiters), key, cur)
      requires locks == old(locks) && threads == old(threads) && Synced()
      requires forall m :: m in locks && m.semaphore != lock.semaphore ==>
                 m.semaphore.value == old(m.semaphore.value) && m.semaphore.waiters == old(m.semaphore.waiters)
      requires forall y :: y in threads && y != cur ==> y.status == old(y.status)
      requires lock.semaphore.value == 0
      ensures SemaphoresOk()
    {
      ghost var s := old(Abs());
      assert old(HasKnownWaiters(lock) && SemaphoreOk(s, lock));
      hide Abs, LockingStep, SameElsewhere, Insert, Distinct;
      forall m | m in locks
        ensures cur !in old(m.semaphore.waiters)
      {
        assert old(SemaphoreOk(s, m));
      }
      forall u | u in old(lock.semaphore.waiters)
        ensures WaitsIn(s, u, lock) && u.status == Blocked
      {
        assert old(u.status) == Blocked;
      }
      if success {
        TakenIsOk(s, Abs(), cur, lock);
      } else {
        SleeperIsOk(s, lock, old(lock.semaphore.waiters), key, cur);
        NothingElsewhere(s, cur, lock);
      }
      KnownWaiters(lock);
      SemaphoresStayOk(cur, lock, cur);
    }

    twostate lemma ReleaseStaysOk(new cur: Thread, new lock: Lock, new first: Option<Thread>)
      requires old(SemaphoresOk()) && lock in old(locks) && cur in old(threads)
      requires Abs() == LockingStep(old(Abs()), LetGo(cur, lock)) && lock.semaphore.value == 1
      requires if old(lock.semaphore.waiters) == [] then first == None && lock.semaphore.waiters == []
               else first == Some(old(lock.semaphore.waiters[0]))
                    && lock.semaphore.waiters == old(lock.semaphore.waiters[1..])
      requires locks == old(locks) && threads == old(threads) && Synced()
      requires forall m :: m in locks && m.semaphore != lock.semaphore ==>
                 m.semaphore.value == old(m.semaphore.value) && m.semaphore.waiters == old(m.semaphore.waiters)
      requires forall y :: y in threads && first != Some(y) ==> y.status == old(y.status)
      ensures SemaphoresOk()
    {
      ghost var s := old(Abs());
      ghost var x: Thread? := if first == None then null else first.value;
      assert old(HasKnownWaiters(lock) && SemaphoreOk(s, lock));
      LetGoIs(s, cur, lock);
      hide Abs, LockingStep, SameElsewhere;
      forall m | m in locks && m != lock
        ensures x !in old(m.semaphore.waiters)
      {
        assert old(SemaphoreOk(s, m));
      }
      forall u | u in lock.semaphore.waiters
        ensures u.status == Blocked
      {
        assert u in old(lock.semaphore.waiters) && old(u.status) == Blocked;
      }
      ReleasedIsOk(s, Abs(), cur, lock, old(lock.semaphore.waiters));
      KnownWaiters(lock);
      SemaphoresStayOk(cur, lock, x);
    }

    twostate lemma QueueStaysOk(new cur: Thread, new lock: Lock)
      requires old(SemaphoresOk()) && lock in old(locks) && cur in old(threads) && old(cur.status) != Blocked
      requires Holder(old(Abs()).code, lock) != null
      requires Abs() == LockingStep(old(Abs()), Acquire(cur, lock))
      requires locks == old(locks) && threads == old(threads)
      requires forall m :: m in locks ==>
                 m.semaphore.value == old(m.semaphore.value) && m.semaphore.waiters == old(m.semaphore.waiters)
      requires forall y :: y in threads ==> y.status == old(y.status)
      ensures SemaphoresOk()
    {
      ghost var s := old(Abs());
      QueueElsewhere(s, cur, lock);
      hide Abs, LockingStep, SameElsewhere;
      forall m | m in locks
        ensures cur !in old(m.semaphore.waiters)
      {
        assert old(SemaphoreOk(s, m));
      }
      SemaphoresStayOk(cur, null, null);
    }

    // ----- the machine of module Locks -----

    lemma ViewIs(sema: Semaphore, woken: set<Thread>)
      ensures View(sema, woken) == Sema(sema.value, sema.waiters, woken)
    {}

    lemma SameViews(lock: Lock, woken: set<Thread>, q: Sema)
      requires q == Sema(lock.semaphore.value, lock.semaphore.waiters, woken)
      ensures View(lock.semaphore, woken) == q
    {}

    lemma HolderIs(l: Lock, t: Thread?)
      requires Synced() && l in locks && Code().holder[l] == t
      ensures l.holder == t
    {
      assert LockRecorded(l);
    }

    lemma LockViewIs(lock: Lock, woken: set<Thread>, stage: map<Thread, Locks.Stage>)
      ensures var v := LockView(lock, woken, stage);
              && v.sema == View(lock.semaphore, woken) && v.stage == stage
              && v.holder == if lock.holder == null then None else Some(lock.holder)
    {}

    lemma ReleaseIsLockStep(s: Locking, v: Locks.LockState, cur: Thread, lock: Lock, woken: set<Thread>)
      requires Synced() && lock in locks && Abs() == LockingStep(s, LetGo(cur, lock))
      requires View(lock.semaphore, woken) == Post(v.sema)
      ensures LockView(lock, woken, v.stage[cur := Locks.Outside]) == Locks.LockStep(v, Locks.Release(cur))
    {
      assert Code() == Abs().code && Abs().code.holder == s.code.holder[lock := null];
      hide Post, View, Without;
      HolderIs(lock, null);
    }

    lemma RecordIsLockStep(s: Locking, v: Locks.LockState, cur: Thread, lock: Lock, woken: set<Thread>)
      requires Synced() && lock in locks && Abs() == LockingStep(s, Record(cur, lock))
      requires View(lock.semaphore, woken) == v.sema
      ensures LockView(lock, woken, v.stage[cur := Locks.Owner]) == Locks.LockStep(v, Locks.RecordHolder(cur))
    {
      assert Code() == Abs().code && Abs().code.holder == s.code.holder[lock := cur];
      hide View;
      HolderIs(lock, cur);
    }

    /** The three first stops of lock_acquire. */
    lemma AcquireIsLockStep(s: Locking, v: Locks.LockState, cur: Thread, lock: Lock, woken: set<Thread>,
                            key: map<Thread, int>)
      requires Synced() && lock in locks && Abs() == LockingStep(s, Acquire(cur, lock))
      requires v.holder == (if Holder(s.code, lock) == null then None else Some(Holder(s.code, lock)))
      requires v.sema.value == Units(s, lock)
      requires View(lock.semaphore, woken)
               == if v.holder == None then Attempt(v.sema, cur, key) else v.sema
      ensures LockView(lock, woken, v.stage[cur := StopOf(s, lock)])
              == Locks.LockStep(v, if v.holder == None then Locks.AcquireFree(cur, key) else Locks.AcquireHeld(cur))
    {
      assert Code() == Abs().code;
      assert Holder(Abs().code, lock) == if Holder(s.code, lock) == null && OwnerOf(s, lock) == null then cur
                                         else Holder(s.code, lock);
      hide View, Attempt, Contend, LockingStep;
      ReadsLock(lock);
    }

    /** A pass through sema_down after the first stop. */
    lemma DownIsLockStep(s: Locking, v: Locks.LockState, cur: Thread, lock: Lock, woken: set<Thread>,
                         key: map<Thread, int>)
      requires Synced() && lock in locks && v.sema.value == Units(s, lock)
      requires Abs() == if OwnerOf(s, lock) == null then LockingStep(s, TakeUnit(cur, lock)) else s
      requires v.holder == (if Holder(s.code, lock) == null then None else Some(Holder(s.code, lock)))
      requires View(lock.semaphore, woken) == Attempt(v.sema, cur, key)
      ensures var free := WaitsFor(s.code, cur) == null;
              LockView(lock, woken, v.stage[cur := PassOf(s, cur, lock)]) == Locks.Attempted(v, cur, key, free)
    {
      assert Code() == Abs().code;
      assert Holder(Abs().code, lock)
          == if OwnerOf(s, lock) == null && WaitsFor(s.code, cur) == null then cur else Holder(s.code, lock);
      hide View, Attempt, LockingStep;
      ReadsLock(lock);
    }

    /** init_thread. */
    method StartThread(newPriority: int) returns (t: Thread)
      requires Valid()
      modifies `threads, `base, `priority, `waiting, `held, `blocked
      ensures fresh(t) && threads == old(threads) + {t} && Valid()
      ensures Abs() == LockingStep(old(Abs()), Start(t, newPriority))
    {
      hide *;
      ghost var s := Abs();
      Parts();
      t := AllocateThread(newPriority);
      StartFields(s, t, newPriority);
      StepIsCoherent(s, Start(t, newPriority));
      Enroll(t);
      blocked := blocked[t := null];
      Parts();
      StartElsewhere(s, t, newPriority);
      SemaphoresStayOk(t, null, null);
    }

    method AllocateThread(newPriority: int) returns (t: Thread)
      requires Synced()
      ensures fresh(t) && t !in threads && t !in priority && Synced() && Abs() == old(Abs())
      ensures t.priority == newPriority == t.basePriority && t.waitingLock == null && t.locksHeld == []
    {
      t := new Thread(newPriority, 0, 0);
    }

    ghost method Enroll(t: Thread)
      requires Synced() && t !in threads && t.priority == t.basePriority
      requires t.waitingLock == null && t.locksHeld == []
      modifies `threads, `base, `priority, `waiting, `held
      ensures threads == old(threads) + {t} && Synced()
      ensures Code() == Enter(old(Code()), t, t.priority)
    {
      base, priority := base[t := t.priority], priority[t := t.priority];
      waiting, held := waiting[t := null], held[t := []];
      threads := threads + {t};
      forall u | u in threads
        ensures Recorded(u)
      {
        assert u != t ==> old(Recorded(u));
      }
    }

    /** lock_init. */
    method LockInit() returns (l: Lock)
      requires Valid()
      modifies `locks, `holder, `waiters
      ensures fresh(l) && locks == old(locks) + {l} && Valid()
      ensures l.semaphore.value == 1 && l.semaphore.waiters == [] && Abs() == WithLock(old(Abs()), l)
    {
      hide *;
      ghost var s := Abs();
      Parts();
      l := AllocateLock();
      WithLockIsCoherent(s, l);
      WithLockIs(s, l);
      UnknownIsUnowned(s, l);
      EnrollLock(l);
      Parts();
      NewSemaphoreIsOk(l);
    }

    method AllocateLock() returns (l: Lock)
      requires Synced()
      ensures fresh(l) && fresh(l.semaphore) && l !in locks && l !in holder && l !in waiters
      ensures Synced() && Abs() == old(Abs())
      ensures l.holder == null && l.waiters == [] && l.semaphore.value == 1 && l.semaphore.waiters == []
    {
      l := new Lock();
    }

    twostate lemma NewSemaphoreIsOk(new l: Lock)
      requires old(SemaphoresOk()) && Abs() == WithLock(old(Abs()), l)
      requires locks == old(locks) + {l} && threads == old(threads) && fresh(l.semaphore)
      requires OwnerOf(old(Abs()), l) == null && l.semaphore.value == 1 && l.semaphore.waiters == []
      requires forall m :: m in old(locks) ==>
                 m.semaphore.value == old(m.semaphore.value) && m.semaphore.waiters == old(m.semaphore.waiters)
      requires forall y :: y in threads ==> y.status == old(y.status)
      ensures SemaphoresOk()
    {
      ghost var s := old(Abs());
      hide Abs;
      forall m | m in old(locks)
        ensures HasKnownWaiters(m) && SemaphoreOk(Abs(), m)
      {
        assert old(HasKnownWaiters(m) && SemaphoreOk(s, m));
      }
    }

    ghost method EnrollLock(l: Lock)
      requires Synced() && l !in locks && l.holder == null && l.waiters == []
      modifies `locks, `holder, `waiters
      ensures locks == old(locks) + {l} && Synced()
      ensures Code() == old(Code()).(holder := old(holder)[l := null], waiters := old(waiters)[l := []])
    {
      holder, waiters := holder[l := null], waiters[l := []];
      locks := locks + {l};
      forall m | m in locks
        ensures LockRecorded(m)
      {
        assert m != l ==> old(LockRecorded(m));
      }
    }

    lemma Parts()
      ensures Abs() == Locking(Code(), owner, blocked, releasing)
      ensures Valid() <==> Synced() && Coherent(Abs()) && SemaphoresOk()
      ensures Code().priority == priority && Code().holder == holder && Code().waiters == waiters
    {
      hide Coherent, Synced, SemaphoresOk;
    }

    lemma ReadsThread(t: Thread)
      requires Synced() && t in threads
      ensures Key(Code().priority, t) == t.priority && Key(Code().base, t) == t.basePriority
      ensures WaitsFor(Code(), t) == t.waitingLock && Held(Code(), t) == t.locksHeld
      ensures t in Code().priority && Code().priority.Keys == threads && Code().holder.Keys == locks
      ensures t in Code().waiting && Code().waiters.Keys == locks
    {
      assert Recorded(t);
    }

    lemma ReadsLock(l: Lock)
      requires Synced() && l in locks
      ensures Holder(Code(), l) == l.holder && Waiters(Code(), l) == l.waiters && l in Code().holder
      ensures Code().priority.Keys == threads
    {
      assert LockRecorded(l);
    }

    lemma ReadsForJoin(t: Thread, l: Lock)
      requires Synced() && Known(Code()) && t in threads && l in locks
      ensures Waiters(Code(), l) == l.waiters
      ensures forall u :: u == t || u in l.waiters ==> u.priority == Key(Code().priority, u)
    {
      hide *;
      ReadsThread(t);
      ReadsLock(l);
      KnownLock(Code(), l);
      forall u | u in l.waiters
        ensures u.priority == Key(Code().priority, u)
      {
        ReadsThread(u);
      }
    }

    method SetPriority(t: Thread, v: int)
      requires Synced() && t in threads
      modifies `priority, t`priority
      ensures Code() == old(Code()).(priority := old(Code()).priority[t := v]) && Synced()
      ensures t.priority == v
    {
      t.priority, priority := v, priority[t := v];
    }

    method SetWaiting(t: Thread, l: Lock?)
      requires Synced() && t in threads
      modifies `waiting, t`waitingLock
      ensures Code() == old(Code()).(waiting := old(Code()).waiting[t := l]) && Synced()
    {
      t.waitingLock, waiting := l, waiting[t := l];
      forall u | u in threads
        ensures Recorded(u)
      {
        assert u != t ==> old(Recorded(u));
      }
      assert forall m :: m in locks ==> LockRecorded(m);
    }

    method SetHeld(t: Thread, ls: seq<Lock>)
      requires Synced() && t in threads
      modifies `held, t`locksHeld
      ensures Code() == old(Code()).(held := old(Code()).held[t := ls]) && Synced()
    {
      t.locksHeld, held := ls, held[t := ls];
      forall u | u in threads
        ensures Recorded(u)
      {
        assert u != t ==> old(Recorded(u));
      }
    }

    method SetHolder(l: Lock, t: Thread?)
      requires Synced() && l in locks
      modifies `holder, l`holder
      ensures Code() == old(Code()).(holder := old(Code()).holder[l := t]) && Synced()
    {
      l.holder, holder := t, holder[l := t];
    }

    method SetWaiters(l: Lock, ws: seq<Thread>)
      requires Synced() && l in locks
      modifies `waiters, l`waiters
      ensures Code() == old(Code()).(waiters := old(Code()).waiters[l := ws]) && Synced()
    {
      l.waiters, waiters := ws, waiters[l := ws];
    }

    /** donate_priority. */
    method DonatePriority(from: Thread, to: Thread)
      requires Synced() && Known(Code()) && from in threads && to in threads
      modifies `priority, threads`priority
      ensures Code() == old(Code()).(priority := Donate(old(Code()), old(Code()).priority, old(from.priority), to))
      ensures Synced() && Known(Code())
      decreases |Poorer(Code().priority, from.priority)|
    {
      ghost var g := Code();
      hide Code, Synced, Known;
      ReadsThread(from);
      ReadsThread(to);
      if from.priority > to.priority {
        PoorerShrinks(g.priority, from.priority, to);
        SetPriority(to, from.priority);
        KnownKeepsPriorities(g, Code().priority);
        if to.waitingLock != null {
          ReadsThread(to);
          KnownThread(g, to);
          ReadsLock(to.waitingLock);
          KnownLock(g, to.waitingLock);
          if to.waitingLock.holder != null {
            DonateLooksAtEdges(g, Code(), Code().priority, to.priority, to.waitingLock.holder);
            DonatePriority(to, to.waitingLock.holder);
          }
        }
      }
    }

    /** Raise t to v; g is the graph before refresh_priority touched t. */
    method RaiseTo(t: Thread, v: int, ghost g: Graph)
      requires Synced() && t in threads && Code() == g.(priority := g.priority[t := t.priority])
      modifies `priority, t`priority
      ensures t.priority == if v > old(t.priority) then v else old(t.priority)
      ensures Code() == g.(priority := g.priority[t := t.priority]) && Synced()
    {
      hide Synced;
      if v > t.priority {
        SetPriority(t, v);
      }
    }

    /** The inner loop of refresh_priority; g is as for RaiseTo. */
    method RaiseToWaiters(t: Thread, lock: Lock, ghost g: Graph)
      requires Synced() && Known(g) && t in threads && lock in locks
      requires Code() == g.(priority := g.priority[t := t.priority])
      modifies `priority, t`priority
      ensures t.priority == WaitersMax(g.priority, lock.waiters, t, old(t.priority))
      ensures Code() == g.(priority := g.priority[t := t.priority]) && Synced()
    {
      ghost var v := t.priority;
      hide *;
      ReadsLock(lock);
      SamePriorities(g, Code(), lock);
      KnownLock(g, lock);
      ReadsThread(t);
      NothingLeft(g, lock.waiters, [], t, v);
      var j := 0;
      while j < |lock.waiters|
        invariant 0 <= j <= |lock.waiters|
        invariant WaitersMax(g.priority, lock.waiters[j..], t, t.priority)
                  == WaitersMax(g.priority, lock.waiters, t, v)
        invariant Code() == g.(priority := g.priority[t := t.priority]) && Synced()
      {
        var waiter := lock.waiters[j];
        WaitersMaxStep(g.priority, lock.waiters, j, t, t.priority);
        assert waiter in lock.waiters;
        ReadsThread(waiter);
        KeyOfUpdate(g.priority, t, t.priority, waiter);
        RaiseTo(t, waiter.priority, g);
        j := j + 1;
      }
      NothingLeft(g, lock.waiters, [], t, t.priority);
    }

    /** refresh_priority. */
    method RefreshPriority(t: Thread)
      requires Synced() && Known(Code()) && t in threads
      modifies `priority, t`priority
      ensures Code() == old(Code()).(priority := old(Code()).priority[t := Refreshed(old(Code()), t)]) && Synced()
    {
      ghost var g := Code();
      hide *;
      ReadsThread(t);
      RefreshedFrom(g, t);
      KnownThread(g, t);
      SetPriority(t, t.basePriority);
      NothingLeft(g, [], t.locksHeld, t, t.priority);
      var i := 0;
      while i < |t.locksHeld|
        invariant 0 <= i <= |t.locksHeld|
        invariant LocksMax(g, t.locksHeld[i..], t, t.priority) == Refreshed(g, t)
        invariant Code() == g.(priority := g.priority[t := t.priority]) && Synced()
      {
        var lock := t.locksHeld[i];
        LocksMaxStep(g, t.locksHeld, i, t, t.priority);
        assert lock in t.locksHeld;
        ReadsLock(lock);
        SamePriorities(g, Code(), lock);
        RaiseToWaiters(t, lock, g);
        i := i + 1;
      }
      NothingLeft(g, [], t.locksHeld, t, t.priority);
    }

    /** cur->waiting_lock, and the ordered insertion into lock->waiters. */
    method JoinWaiters(cur: Thread, lock: Lock)
      requires Synced() && Known(Code()) && cur in threads && lock in locks
      modifies `waiting, `waiters, cur`waitingLock, lock`waiters
      ensures Code() == Enlist(old(Code()), cur, lock) && Synced()
    {
      ghost var g := Code();
      hide *;
      JoinFields(g, cur, lock);
      ReadsForJoin(cur, lock);
      var ws := InsertOrdered(lock.waiters, cur, g.priority);
      SetWaiting(cur, lock);
      SetWaiters(lock, ws);
    }

    /** The contended path of lock_acquire, up to sema_down. */
    method QueueForLock(cur: Thread, lock: Lock)
      requires Synced() && Known(Code()) && cur in threads && lock in locks && lock.holder != null
      modifies `waiting, `waiters, `priority, cur`waitingLock, lock`waiters, threads`priority
      ensures Code() == Contend(old(Code()), cur, lock, old(lock.holder)) && Synced()
    {
      ghost var g := Code();
      hide *;
      ReadsThread(cur);
      ReadsLock(lock);
      KnownLock(g, lock);
      EnlistIsKnown(g, cur, lock);
      ContendFields(g, cur, lock, lock.holder);
      JoinWaiters(cur, lock);
      DonatePriority(cur, lock.holder);
    }

    /** One pass of cur through sema_down on the lock's semaphore. */
    method PassDown(cur: Thread, lock: Lock, ghost woken: set<Thread>) returns (success: bool)
      requires Synced() && cur in threads && HasKnownWaiters(lock)
      modifies cur`status, lock.semaphore
      ensures Synced() && success == (old(lock.semaphore.value) > 0)
      ensures lock.semaphore.waiters
              == if success then old(lock.semaphore.waiters) else Insert(old(lock.semaphore.waiters), priority, cur)
      ensures View(lock.semaphore, woken - {cur}) == Attempt(old(View(lock.semaphore, woken)), cur, Code().priority)
      ensures lock.semaphore.value == if success then old(lock.semaphore.value) - 1 else 0
      ensures cur.status == if success then old(cur.status) else Blocked
      ensures Abs() == old(Abs())
    {
      forall u | u == cur || u in lock.semaphore.waiters
        ensures u.priority == Key(Code().priority, u)
      {
        ReadsThread(u);
      }
      hide Attempt, Key;
      success := SemaDownPass(lock.semaphore, cur, Code().priority, woken);
      ValueAfterAttempt(old(View(lock.semaphore, woken)), cur, Code().priority);
      if !success {
        cur.status := Blocked;
      }
    }

    /** lock->holder = cur, and cur->locks_held. */
    method AddHeld(cur: Thread, lock: Lock)
      requires Synced() && cur in threads && lock in locks
      modifies `held, `holder, cur`locksHeld, lock`holder
      ensures Code() == old(Code()).(holder := old(Code()).holder[lock := cur],
                                     held := old(Code()).held[cur := Held(old(Code()), cur) + [lock]])
      ensures Synced()
    {
      hide *;
      ReadsThread(cur);
      SetHolder(lock, cur);
      SetHeld(cur, cur.locksHeld + [lock]);
    }

    /** The end of the uncontended path. */
    method HoldLock(cur: Thread, lock: Lock)
      requires Synced() && cur in threads && lock in locks && cur.waitingLock == null
      modifies `held, `holder, cur`locksHeld, lock`holder
      ensures Code() == Take(old(Code()), cur, lock) && Synced()
    {
      hide *;
      ReadsThread(cur);
      NotWaiting(Code(), cur);
      TakeFields(Code(), cur, lock);
      AddHeld(cur, lock);
    }

    /** The end of the contended path, with cur->waiting_lock = NULL. */
    method RecordHolder(cur: Thread, lock: Lock, ghost woken: set<Thread>, ghost stage: map<Thread, Locks.Stage>)
      requires Valid() && cur in threads && lock in locks && LockingEnabled(Abs(), Record(cur, lock))
      modifies `waiting, `held, `holder, cur`waitingLock, cur`locksHeld, lock`holder
      ensures Abs() == LockingStep(old(Abs()), Record(cur, lock)) && Valid()
      ensures LockView(lock, woken, stage[cur := Locks.Owner])
              == Locks.LockStep(old(LockView(lock, woken, stage)), Locks.RecordHolder(cur))
    {
      hide *;
      ghost var s, v := Abs(), LockView(lock, woken, stage);
      LockViewIs(lock, woken, stage);
      ViewIs(lock.semaphore, woken);
      Parts();
      RecordFields(s, cur, lock);
      TakeFields(s.code, cur, lock);
      StepIsCoherent(s, Record(cur, lock));
      AddHeld(cur, lock);
      SetWaiting(cur, null);
      Parts();
      SameIsElsewhere(s, Abs(), cur);
      SemaphoresStayOk(cur, null, null);
      LockViewIs(lock, woken, stage);
      SameViews(lock, woken, v.sema);
      RecordIsLockStep(s, v, cur, lock, woken);
    }

    /** lock_acquire on a lock without recorded holder: take it, or sleep in sema_down. */
    method AcquireFree(cur: Thread, lock: Lock, ghost woken: set<Thread>) returns (owns: bool)
      requires Synced() && cur in threads && lock in locks && lock.holder == null && cur.waitingLock == null
      requires lock.semaphore.value == Units(Abs(), lock) && HasKnownWaiters(lock)
      modifies `held, `holder, `owner, `blocked, cur`locksHeld, cur`status, lock`holder, lock.semaphore
      ensures Abs() == (if owns then Got(old(Abs()), cur, lock) else Asleep(old(Abs()), cur, lock)) && Synced()
      ensures owns == (OwnerOf(old(Abs()), lock) == null) && lock.semaphore.value == 0
      ensures View(lock.semaphore, woken - {cur}) == Attempt(old(View(lock.semaphore, woken)), cur, old(priority))
      ensures cur.status == if owns then old(cur.status) else Blocked
      ensures lock.semaphore.waiters
              == if owns then old(lock.semaphore.waiters)
                 else Insert(old(lock.semaphore.waiters), old(priority), cur)
    {
      hide *;
      Parts();
      FreeFields(Abs(), cur, lock);
      owns := PassDown(cur, lock, woken);
      if owns {
        HoldLock(cur, lock);
        owner := owner[lock := cur];
      } else {
        blocked := blocked[cur := lock];
      }
      Parts();
    }

    method AcquireUnheld(cur: Thread, lock: Lock, ghost woken: set<Thread>) returns (owns: bool)
      requires Valid() && cur in threads && lock in locks && lock.holder == null && cur.waitingLock == null
      requires cur.status != Blocked
      modifies `held, `holder, `owner, `blocked, cur`locksHeld, cur`status, lock`holder, lock.semaphore
      ensures Abs() == (if owns then Got(old(Abs()), cur, lock) else Asleep(old(Abs()), cur, lock))
      ensures Synced() && SemaphoresOk() && owns == (OwnerOf(old(Abs()), lock) == null)
      ensures View(lock.semaphore, woken - {cur}) == Attempt(old(View(lock.semaphore, woken)), cur, old(priority))
      ensures cur.status == if owns then old(cur.status) else Blocked
    {
      hide *;
      Parts();
      ReadsThread(cur);
      ReadsSemaphore(lock);
      SemaphoreMeans(Abs(), lock);
      FreeFields(Abs(), cur, lock);
      owns := AcquireFree(cur, lock, woken);
      FreeStaysOk(cur, lock, old(priority));
    }

    /** lock_acquire on a lock with a recorded holder, up to sema_down. */
    method QueueAndBlock(cur: Thread, lock: Lock)
      requires Valid() && cur in threads && lock in locks && lock.holder != null
      requires LockingEnabled(Abs(), Acquire(cur, lock)) && cur.status != Blocked
      modifies `waiting, `waiters, `priority, `blocked, cur`waitingLock, lock`waiters, threads`priority
      ensures Abs() == LockingStep(old(Abs()), Acquire(cur, lock)) && Synced() && SemaphoresOk()
    {
      hide *;
      Parts();
      ReadsLock(lock);
      AcquireFields(Abs(), cur, lock);
      CodeIsKnown();
      QueueForLock(cur, lock);
      blocked := blocked[cur := lock];
      Parts();
      QueueStaysOk(cur, lock);
    }

    /** lock_acquire up to its first stop.  The requirement is its assertion that cur does
        not hold the lock, and that cur runs, outside the lock functions. */
    method LockAcquire(cur: Thread, lock: Lock, ghost woken: set<Thread>, ghost stage: map<Thread, Locks.Stage>)
      returns (owns: bool)
      requires Valid() && cur in threads && lock in locks && LockingEnabled(Abs(), Acquire(cur, lock))
      requires cur.status != Blocked
      modifies `waiting, `held, `holder, `waiters, `priority, `owner, `blocked
      modifies cur`waitingLock, cur`locksHeld, cur`status, lock`holder, lock`waiters, threads`priority, lock.semaphore
      ensures Abs() == LockingStep(old(Abs()), Acquire(cur, lock)) && Valid()
      ensures owns == (old(lock.holder) == null && OwnerOf(old(Abs()), lock) == null)
      ensures old(lock.holder) == null ==>
                && View(lock.semaphore, woken - {cur}) == Attempt(old(View(lock.semaphore, woken)), cur, old(priority))
                && cur.status == if owns then old(cur.status) else Blocked
      ensures old(lock.holder) != null ==> unchanged(lock.semaphore) && cur.status == old(cur.status)
      ensures LockView(lock, if old(lock.holder) == null then woken - {cur} else woken,
                       stage[cur := StopOf(old(Abs()), lock)])
              == Locks.LockStep(old(LockView(lock, woken, stage)),
                                if old(lock.holder) == null then Locks.AcquireFree(cur, old(priority))
                                else Locks.AcquireHeld(cur))
    {
      hide *;
      ghost var s, v := Abs(), LockView(lock, woken, stage);
      LockViewIs(lock, woken, stage);
      ViewIs(lock.semaphore, woken);
      ReadsSemaphoreValue(lock);
      Parts();
      ReadsLock(lock);
      ReadsThread(cur);
      AcquireFields(s, cur, lock);
      StepIsCoherent(s, Acquire(cur, lock));
      if lock.holder == null {
        owns := AcquireUnheld(cur, lock, woken);
      } else {
        QueueAndBlock(cur, lock);
        owns := false;
        SameViews(lock, woken, v.sema);
      }
      Parts();
      AcquireIsLockStep(s, v, cur, lock, if v.holder == None then woken - {cur} else woken, old(priority));
    }

    lemma ReadsSemaphoreValue(l: Lock)
      requires Valid() && l in locks
      ensures l.semaphore.value == Units(Abs(), l)
    {
      assert SemaphoreOk(Abs(), l);
    }

    lemma CodeIsKnown()
      requires Valid()
      ensures Known(Code())
    {
      ConsistentIsKnown(Code());
    }

    /** The unit is cur's.  A thread from the uncontended path is recorded at once. */
    method TakeItsUnit(cur: Thread, lock: Lock)
      requires Synced() && cur in threads && lock in locks
      modifies `held, `holder, `owner, `blocked, cur`locksHeld, lock`holder
      ensures Abs() == LockingStep(old(Abs()), TakeUnit(cur, lock)) && Synced()
    {
      hide *;
      Parts();
      ReadsThread(cur);
      TakeUnitFields(Abs(), cur, lock);
      if cur.waitingLock == null {
        HoldLock(cur, lock);
      }
      owner, blocked := owner[lock := cur], blocked[cur := null];
      Parts();
    }

    /** A thread that has stopped in lock_acquire passes through the loop of sema_down.  On
        success it takes the unit; if it came along the uncontended path it is recorded as
        the holder at once, otherwise interrupts come on first, and RecordHolder follows. */
    method DownAfterWait(cur: Thread, lock: Lock, ghost woken: set<Thread>, ghost stage: map<Thread, Locks.Stage>)
      returns (success: bool)
      requires Valid() && cur in threads && lock in locks && BlockedOn(Abs(), cur) == lock && cur.status != Blocked
      modifies `held, `holder, `owner, `blocked, cur`locksHeld, cur`status, lock`holder, lock.semaphore
      ensures Abs() == (if success then LockingStep(old(Abs()), TakeUnit(cur, lock)) else old(Abs())) && Valid()
      ensures success == (OwnerOf(old(Abs()), lock) == null)
      ensures View(lock.semaphore, woken - {cur}) == Attempt(old(View(lock.semaphore, woken)), cur, old(priority))
      ensures cur.status == if success then old(cur.status) else Blocked
      ensures LockView(lock, woken - {cur}, stage[cur := PassOf(old(Abs()), cur, lock)])
              == Locks.Attempted(old(LockView(lock, woken, stage)), cur, old(priority), old(cur.waitingLock) == null)
    {
      hide *;
      ghost var s, v := Abs(), LockView(lock, woken, stage);
      LockViewIs(lock, woken, stage);
      ViewIs(lock.semaphore, woken);
      ReadsSemaphoreValue(lock);
      Parts();
      ReadsLock(lock);
      TakeUnitFields(s, cur, lock);
      ReadsSemaphore(lock);
      ReadsThread(cur);
      SemaphoreMeans(s, lock);
      success := PassDown(cur, lock, woken);
      Parts();
      if success {
        StepIsCoherent(s, TakeUnit(cur, lock));
        TakeItsUnit(cur, lock);
      }
      DownStaysOk(cur, lock, success, old(priority));
      Parts();
      DownIsLockStep(s, v, cur, lock, woken - {cur}, old(priority));
    }

    /** The loop of lock_release that takes cur's own stale entry out of the waiters. */
    method WithoutEntry(ws: seq<Thread>, cur: Thread) returns (r: seq<Thread>)
      ensures r == Without(ws, cur)
    {
      r := ws;
      var i := 0;
      while i < |r|
        invariant 0 <= i <= |r|
        invariant r[..i] + Without(r[i..], cur) == Without(ws, cur)
        decreases |r| - i
      {
        ghost var was := r;
        if r[i] == cur {
          r := RemoveAt(r, i);
          assert r[..i] == was[..i] && r[i..] == was[i..][1..];
        } else {
          assert was[i..][1..] == was[i + 1..] && was[..i + 1] == was[..i] + [was[i]];
          i := i + 1;
        }
      }
      assert r[..i] == r;
    }

    /** The lists and pointers of lock_release. */
    method DropLock(cur: Thread, lock: Lock)
      requires Synced() && cur in threads && lock in locks
      modifies `held, `waiters, `holder, cur`locksHeld, lock`holder, lock`waiters
      ensures Code() == Drop(old(Code()), cur, lock) && Synced()
    {
      hide Synced, Without;
      ReadsThread(cur);
      ReadsLock(lock);
      SetHeld(cur, Without(cur.locksHeld, lock));
      var ws := WithoutEntry(lock.waiters, cur);
      SetWaiters(lock, ws);
      SetHolder(lock, null);
    }

    /** lock_release up to sema_up. */
    method LetGoOf(cur: Thread, lock: Lock)
      requires Synced() && Coherent(Abs()) && cur in threads && lock in locks && LockingEnabled(Abs(), LetGo(cur, lock))
      modifies `held, `waiters, `holder, `owner, `releasing, cur`locksHeld, lock`holder, lock`waiters
      ensures Abs() == LockingStep(old(Abs()), LetGo(cur, lock)) && Synced()
    {
      hide *;
      Parts();
      LetGoFields(Abs(), cur, lock);
      DropLock(cur, lock);
      owner, releasing := owner[lock := null], releasing + {cur};
      Parts();
    }

    /** sema_up on the lock's semaphore, with thread_unblock's assertion. */
    method UpLock(lock: Lock, ghost woken: set<Thread>) returns (unblocked: Option<Thread>)
      requires Synced() && (lock.semaphore.waiters != [] ==> lock.semaphore.waiters[0].status == Blocked)
      modifies lock.semaphore
      modifies (if lock.semaphore.waiters == [] then {} else {lock.semaphore.waiters[0]})`status
      ensures Synced() && lock.semaphore.value == old(lock.semaphore.value) + 1
      ensures Abs() == old(Abs())
      ensures if old(lock.semaphore.waiters) == [] then unblocked == None && lock.semaphore.waiters == []
              else unblocked == Some(old(lock.semaphore.waiters[0]))
                   && lock.semaphore.waiters == old(lock.semaphore.waiters[1..])
      ensures View(lock.semaphore, woken + if unblocked.Some? then {unblocked.value} else {})
              == Post(old(View(lock.semaphore, woken)))
      ensures unblocked.Some? ==> unblocked.value.status == Ready
    {
      hide Post;
      unblocked := SemaPost(lock.semaphore, woken);
      ValueAfterPost(old(View(lock.semaphore, woken)));
      if unblocked.Some? {
        assert unblocked.value.status == Blocked;
        unblocked.value.status := Ready;
      }
    }

    /** lock_release up to and including sema_up, with its assertion that cur holds the
        lock. */
    method LockRelease(cur: Thread, lock: Lock, ghost woken: set<Thread>, ghost stage: map<Thread, Locks.Stage>)
      returns (unblocked: Option<Thread>)
      requires Valid() && cur in threads && lock in locks && LockingEnabled(Abs(), LetGo(cur, lock))
      modifies `held, `waiters, `holder, `owner, `releasing
      modifies cur`locksHeld, lock`holder, lock`waiters, lock.semaphore
      modifies (if lock.semaphore.waiters == [] then {} else {lock.semaphore.waiters[0]})`status
      ensures Abs() == LockingStep(old(Abs()), LetGo(cur, lock)) && Valid()
      ensures View(lock.semaphore, woken + if unblocked.Some? then {unblocked.value} else {})
              == Post(old(View(lock.semaphore, woken)))
      ensures unblocked.Some? ==> unblocked.value.status == Ready
      ensures LockView(lock, woken + if unblocked.Some? then {unblocked.value} else {}, stage[cur := Locks.Outside])
              == Locks.LockStep(old(LockView(lock, woken, stage)), Locks.Release(cur))
    {
      hide *;
      ghost var s, v := Abs(), LockView(lock, woken, stage);
      LockViewIs(lock, woken, stage);
      Parts();
      LetGoFields(s, cur, lock);
      StepIsCoherent(s, LetGo(cur, lock));
      ReadsSemaphore(lock);
      SemaphoreMeans(s, lock);
      LetGoOf(cur, lock);
      unblocked := UpLock(lock, woken);
      ReleaseStaysOk(cur, lock, unblocked);
      Parts();
      ReleaseIsLockStep(s, v, cur, lock, woken + if unblocked.Some? then {unblocked.value} else {});
    }

    /** The rest of lock_release, up to its last yield. */
    method FinishRelease(cur: Thread)
      requires Valid() && cur in threads && LockingEnabled(Abs(), LockingEvent.RefreshPriority(cur))
      modifies `priority, `releasing, cur`priority
      ensures Abs() == LockingStep(old(Abs()), LockingEvent.RefreshPriority(cur)) && Valid()
    {
      hide *;
      ghost var s := Abs();
      Parts();
      RefreshFields(s, cur);
      StepIsCoherent(s, LockingEvent.RefreshPriority(cur));
      CodeIsKnown();
      RefreshPriority(cur);
      releasing := releasing - {cur};
      Parts();
      SameIsElsewhere(s, Abs(), cur);
      SemaphoresStayOk(cur, null, null);
    }

    /** thread_set_priority, up to its preemption check. */
    method ThreadSetPriority(cur: Thread, newPriority: int)
      requires Valid() && cur in threads
      modifies `priority, cur`priority
      ensures Abs() == LockingStep(old(Abs()), Overwrite(cur, newPriority)) && Valid()
    {
      hide *;
      ghost var s := Abs();
      Parts();
      ReadsThread(cur);
      OverwriteFields(s, cur, newPriority);
      StepIsCoherent(s, Overwrite(cur, newPriority));
      SetPriority(cur, newPriority);
      Parts();
      SameIsElsewhere(s, Abs(), cur);
      SemaphoresStayOk(cur, null, null);
    }
  }

  lemma ValueAfterAttempt(q: Sema, t: Thread, key: map<Thread, int>)
    ensures Attempt(q, t, key).value == if q.value > 0 then q.value - 1 else 0
  {}

  lemma ValueAfterPost(q: Sema)
    ensures Post(q).value == q.value + 1
    ensures Post(q).waiters == if q.waiters == [] then [] else q.waiters[1..]
  {}

  lemma NotWaiting(g: Graph, t: Thread)
    requires t in g.waiting && WaitsFor(g, t) == null
    ensures g.waiting[t := null] == g.waiting
  {}

  lemma StartFields(s: Locking, t: Thread, base: int)
    ensures LockingStep(s, Start(t, base))
            == Locking(Enter(s.code, t, base), s.owner, s.blocked[t := null], s.releasing)
    ensures LockingEnabled(s, Start(t, base)) <==> t !in s.code.priority
  {}

  lemma RecordFields(s: Locking, t: Thread, l: Lock)
    ensures LockingStep(s, Record(t, l)) == Locking(Take(s.code, t, l), s.owner, s.blocked, s.releasing)
  {}

  lemma TakeFields(g: Graph, t: Thread, l: Lock)
    ensures Take(g, t, l)
            == g.(holder := g.holder[l := t], held := g.held[t := Held(g, t) + [l]], waiting := g.waiting[t := null])
  {}

  lemma SemaphoreMeans(s: Locking, l: Lock)
    requires SemaphoreOk(s, l)
    ensures l.semaphore.value == Units(s, l) && Distinct(l.semaphore.waiters)
    ensures forall t :: t in l.semaphore.waiters ==> WaitsIn(s, t, l) && t.status == Blocked
  {}

  lemma SameIsElsewhere(s: Locking, s1: Locking, t: Thread)
    requires s1.owner == s.owner && s1.blocked == s.blocked && s.code.priority.Keys <= s1.code.priority.Keys
    ensures SameElsewhere(s, s1, t, null)
  {}

  lemma NothingElsewhere(s: Locking, t: Thread, l: Lock)
    ensures SameElsewhere(s, s, t, l)
  {}

  lemma StartElsewhere(s: Locking, t: Thread, base: int)
    ensures SameElsewhere(s, LockingStep(s, Start(t, base)), t, null)
  {}

  lemma QueueElsewhere(s: Locking, t: Thread, l: Lock)
    requires Holder(s.code, l) != null
    ensures SameElsewhere(s, LockingStep(s, Acquire(t, l)), t, null)
  {
    CodeOfQueue(s, t, l, Holder(s.code, l));
    hide Contend;
  }

  lemma FreeFields(s: Locking, t: Thread, l: Lock)
    ensures Got(s, t, l) == Locking(Take(s.code, t, l), s.owner[l := t], s.blocked, s.releasing)
    ensures Asleep(s, t, l) == Locking(s.code, s.owner, s.blocked[t := l], s.releasing)
    ensures Units(s, l) == if OwnerOf(s, l) == null then 1 else 0
  {
    hide Take;
  }

  lemma FreeIsOk(s: Locking, s1: Locking, t: Thread, l: Lock, ws: seq<Thread>, key: map<Thread, int>)
    requires t in s.code.priority && Distinct(ws) && t !in ws && l.semaphore.value == 0
    requires forall u :: u in ws ==> WaitsIn(s, u, l) && u.status == Blocked
    requires if OwnerOf(s, l) == null then s1 == Got(s, t, l) && l.semaphore.waiters == ws
             else s1 == Asleep(s, t, l) && l.semaphore.waiters == Insert(ws, key, t) && t.status == Blocked
    ensures SemaphoreOk(s1, l) && SameElsewhere(s, s1, t, l)
  {
    hide Insert, Distinct;
    if OwnerOf(s, l) != null {
      SleeperIsOk(s1, l, ws, key, t);
    }
  }

  lemma TakenIsOk(s: Locking, s1: Locking, t: Thread, l: Lock)
    requires s1 == LockingStep(s, TakeUnit(t, l)) && l.semaphore.value == 0
    requires Distinct(l.semaphore.waiters) && t !in l.semaphore.waiters
    requires forall u :: u in l.semaphore.waiters ==> WaitsIn(s, u, l) && u.status == Blocked
    ensures SemaphoreOk(s1, l) && SameElsewhere(s, s1, t, l)
  {
    hide Distinct;
  }

  lemma ReleasedIsOk(s: Locking, s1: Locking, t: Thread, l: Lock, ws: seq<Thread>)
    requires s1.owner == s.owner[l := null] && s1.blocked == s.blocked && s1.code.priority == s.code.priority
    requires l.semaphore.value == 1 && Distinct(ws)
    requires l.semaphore.waiters == if ws == [] then [] else ws[1..]
    requires forall u :: u in ws ==> WaitsIn(s, u, l)
    requires forall u :: u in l.semaphore.waiters ==> u.status == Blocked
    ensures SemaphoreOk(s1, l) && SameElsewhere(s, s1, t, l)
  {
    forall u | u in l.semaphore.waiters
      ensures u in ws && WaitsIn(s1, u, l)
    {}
  }

  lemma LetGoIs(s: Locking, t: Thread, l: Lock)
    ensures var s1 := LockingStep(s, LetGo(t, l));
            s1.owner == s.owner[l := null] && s1.blocked == s.blocked && s1.code.priority == s.code.priority
  {
    hide Without;
  }

  lemma OverwriteFields(s: Locking, t: Thread, p: int)
    ensures LockingStep(s, Overwrite(t, p))
            == Locking(s.code.(priority := s.code.priority[t := p]), s.owner, s.blocked, s.releasing)
    ensures t in s.code.priority ==> LockingEnabled(s, Overwrite(t, p))
  {}

  lemma LetGoFields(s: Locking, t: Thread, l: Lock)
    requires Coherent(s) && LockingEnabled(s, LetGo(t, l))
    ensures var s1 := LockingStep(s, LetGo(t, l));
            && s1 == Locking(Drop(s.code, t, l), s.owner[l := null], s.blocked, s.releasing + {t})
            && Units(s, l) == 0 && Units(s1, l) == 1
  {
    hide Coherent, Drop;
    PhasesMean(s, t, l);
  }

  lemma AcquireFields(s: Locking, t: Thread, l: Lock)
    requires LockingEnabled(s, Acquire(t, l))
    ensures var s1 := LockingStep(s, Acquire(t, l));
            && (Holder(s.code, l) == null ==> s1 == if OwnerOf(s, l) == null then Got(s, t, l) else Asleep(s, t, l))
            && (Holder(s.code, l) != null ==>
                  s1 == Locking(Contend(s.code, t, l, Holder(s.code, l)), s.owner, s.blocked[t := l], s.releasing))
    ensures WaitsFor(s.code, t) == null
  {
    hide Contend, Take;
  }

  lemma TakeUnitFields(s: Locking, t: Thread, l: Lock)
    ensures LockingStep(s, TakeUnit(t, l))
            == Locking(if WaitsFor(s.code, t) == null then Take(s.code, t, l) else s.code,
                       s.owner[l := t], s.blocked[t := null], s.releasing)
    ensures Units(LockingStep(s, TakeUnit(t, l)), l) == 0
    ensures BlockedOn(s, t) == l && OwnerOf(s, l) == null ==> LockingEnabled(s, TakeUnit(t, l))
    ensures Units(s, l) == if OwnerOf(s, l) == null then 1 else 0
  {
    hide Take;
  }

  lemma RefreshFields(s: Locking, t: Thread)
    ensures LockingStep(s, LockingEvent.RefreshPriority(t))
            == Locking(s.code.(priority := s.code.priority[t := Refreshed(s.code, t)]),
                       s.owner, s.blocked, s.releasing - {t})
  {
    hide Refreshed;
  }
}
