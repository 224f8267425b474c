/** What every reachable scheduler state satisfies. */
module SchedulerInvariant {
  import opened Objects
  import opened OrderedList
  import opened Buckets
  import opened MlfqsMath
  import opened Scheduler

  ghost predicate Shape(s: State) {
    && |s.buckets| == BUCKETS
    && (s.mlfqs ==> s.ready == [])
    && (!s.mlfqs ==> forall p :: 0 <= p < BUCKETS ==> s.buckets[p] == [])
    && Distinct(s.all)
    && s.idle in s.all
    && s.ticks >= 0
  }

  ghost predicate InRange(s: State) {
    forall t :: t in s.all ==>
      && HasBucket(s.mlfqs, Key(s.priority, t))
      && PRI_MIN <= Key(s.base, t) <= PRI_MAX
      && NICE_MIN <= Key(s.nice, t) <= NICE_MAX
      && StatusOf(s, t) != Dying
  }

  /** A thread is queued exactly once if it is ready and not the idle thread, and
      otherwise not at all; only known threads are queued. */
  ghost predicate Counted(s: State) {
    && (forall t :: t in s.all ==>
         multiset(Queue(s))[t] == if t != s.idle && StatusOf(s, t) == Ready then 1 else 0)
    && (forall t :: t in Queue(s) ==> t in s.all)
  }

  ghost predicate Ordered(s: State) {
    && InPlace(s.buckets, s.priority)
    && (!s.scan ==> Sorted(s.ready, s.priority))
    && (!s.scan ==> Sorted(s.sleepers, Urgency(s.wakeup)))
  }

  /** Every sleeper is known, blocked, asleep once, and not the idle thread. */
  ghost predicate Asleep(s: State) {
    && (forall t :: t in s.sleepers ==>
         && t in s.all && t != s.idle && t in s.wakeup
         && StatusOf(s, t) == Blocked
         && multiset(s.sleepers)[t] == 1)
  }

  ghost predicate Core(s: State) {
    Shape(s) && InRange(s) && Counted(s) && Ordered(s) && Asleep(s)
  }

  ghost predicate NoneRunning(s: State) {
    forall t :: t in s.all ==> StatusOf(s, t) != Running
  }

  ghost predicate OnlyCurrentRuns(s: State) {
    && s.cur in s.all
    && forall t :: t in s.all ==> (StatusOf(s, t) == Running <==> t == s.cur)
  }

  ghost predicate Invariant(s: State) {
    Core(s) && OnlyCurrentRuns(s) && 0 <= s.threadTicks < TIME_SLICE
  }

  // ----- queue operations -----

  lemma QueuedThread(s: State, t: Thread)
    requires Core(s) && t in Queue(s)
    ensures t in s.all && t != s.idle && StatusOf(s, t) == Ready && t !in s.sleepers
  {
    assert multiset(Queue(s))[t] > 0;
  }

  lemma NotQueued(s: State, t: Thread)
    requires Core(s) && (t !in s.all || t == s.idle || StatusOf(s, t) != Ready)
    ensures t !in Queue(s) && t !in s.ready
    ensures forall p :: 0 <= p < BUCKETS ==> t !in s.buckets[p]
  {
    if t in Queue(s) {
      QueuedThread(s, t);
    }
    if p :| 0 <= p < BUCKETS && t in s.buckets[p] {
      MemberOfFlat(s.buckets, t);
    }
  }

  lemma EnqueueCounts(s: State, t: Thread)
    requires Shape(s) && HasBucket(s.mlfqs, Key(s.priority, t))
    ensures multiset(Queue(Enqueue(s, t))) == multiset(Queue(s)) + multiset{t}
    ensures Shape(Enqueue(s, t))
  {
    if s.mlfqs {
      PushCounts(s.buckets, Key(s.priority, t), t);
    } else if !s.scan {
      InsertIsPermutation(s.ready, s.priority, t);
    }
  }

  lemma EnqueueOrders(s: State, t: Thread)
    requires Shape(s) && Ordered(s) && HasBucket(s.mlfqs, Key(s.priority, t))
    ensures Ordered(Enqueue(s, t))
  {
    if !s.mlfqs && !s.scan {
      InsertKeepsSorted(s.ready, s.priority, t);
    }
  }

  lemma CountedMembers(s: State)
    requires forall t :: t in multiset(Queue(s)) ==> t in s.all
    ensures forall t :: t in Queue(s) ==> t in s.all
  {
    forall t | t in Queue(s)
      ensures t in s.all
    {
      assert t in multiset(Queue(s));
    }
  }

  lemma MakeReadyFrame(s: State, t: Thread)
    ensures var s1 := MakeReady(s, t);
            s1 == s.(status := s.status[t := Ready], ready := s1.ready, buckets := s1.buckets)
  {
    hide Insert, PushAt;
  }

  lemma MakeReadyStatuses(s: State, t: Thread)
    requires InRange(s) && Asleep(s) && t !in s.sleepers
    ensures InRange(MakeReady(s, t)) && Asleep(MakeReady(s, t))
    ensures forall u :: u in s.all ==> StatusOf(MakeReady(s, t), u) == if u == t then Ready else StatusOf(s, u)
  {
    hide MakeReady, Key;
    MakeReadyFrame(s, t);
  }

  lemma MakeReadyQueues(s: State, t: Thread)
    requires Core(s) && t in s.all && t != s.idle && StatusOf(s, t) != Ready
    ensures Shape(MakeReady(s, t)) && Ordered(MakeReady(s, t)) && Counted(MakeReady(s, t))
  {
    assert HasBucket(s.mlfqs, Key(s.priority, t));
    assert Shape(SetStatus(s, t, Ready)) && Ordered(SetStatus(s, t, Ready));
    hide Shape, Ordered, Counted, InRange, Asleep, Enqueue;
    EnqueueCounts(SetStatus(s, t, Ready), t);
    EnqueueOrders(SetStatus(s, t, Ready), t);
    MakeReadyCounts(s, t);
  }

  /** Making a thread ready keeps the core, whatever it was doing before. */
  lemma MakeReadyKeepsCore(s: State, t: Thread)
    requires Core(s) && t in s.all && t != s.idle && StatusOf(s, t) != Ready && t !in s.sleepers
    ensures Core(MakeReady(s, t))
    ensures forall u :: u in s.all ==> StatusOf(MakeReady(s, t), u) == if u == t then Ready else StatusOf(s, u)
  {
    hide Shape, Ordered, Counted, InRange, Asleep, MakeReady, StatusOf;
    MakeReadyQueues(s, t);
    MakeReadyStatuses(s, t);
  }

  lemma MakeReadyQueue(s: State, t: Thread)
    requires Shape(s) && HasBucket(s.mlfqs, Key(s.priority, t))
    ensures multiset(Queue(MakeReady(s, t))) == multiset(Queue(s)) + multiset{t}
  {
    var s1 := SetStatus(s, t, Ready);
    assert Shape(s1) && Queue(s1) == Queue(s);
    hide Shape, Enqueue, Queue;
    EnqueueCounts(s1, t);
  }

  lemma MakeReadyCounts(s: State, t: Thread)
    requires Shape(s) && Counted(s) && HasBucket(s.mlfqs, Key(s.priority, t))
    requires t in s.all && t != s.idle && StatusOf(s, t) != Ready
    ensures Counted(MakeReady(s, t))
  {
    hide MakeReady, Queue, Shape, Key;
    var s2 := MakeReady(s, t);
    MakeReadyFrame(s, t);
    MakeReadyQueue(s, t);
    forall u | u in s2.all
      ensures multiset(Queue(s2))[u] == if u != s2.idle && StatusOf(s2, u) == Ready then 1 else 0
    {
      assert multiset(Queue(s))[u] == if u != s.idle && StatusOf(s, u) == Ready then 1 else 0;
    }
    CountedMembers(s2);
  }

  lemma DequeueCounts(s: State)
    requires Shape(s)
    ensures Queue(s) == [] ==> NextThread(s) == s.idle && Dequeue(s) == s
    ensures Queue(s) != [] ==>
            multiset(Queue(s)) == multiset(Queue(Dequeue(s))) + multiset{NextThread(s)}
  {
    if s.mlfqs {
      EmptyTop(s.buckets);
      var p := Top(s.buckets);
      if p >= 0 {
        PopCounts(s.buckets, p);
        assert Queue(Dequeue(s)) == Flat(PopFront(s.buckets, p));
      }
    } else if s.ready != [] {
      RemovalCounts(s.ready, Front(s));
      assert Queue(Dequeue(s)) == RemoveAt(s.ready, Front(s));
    }
  }

  lemma RemovalCounts(ts: seq<Thread>, i: nat)
    requires i < |ts|
    ensures multiset(ts) == multiset(RemoveAt(ts, i)) + multiset{ts[i]}
  {
    assert ts == ts[..i] + [ts[i]] + ts[i + 1..];
  }

  lemma DequeueFrame(s: State)
    ensures Dequeue(s) == s.(ready := Dequeue(s).ready, buckets := Dequeue(s).buckets)
    ensures Schedule(s) == Dequeue(s).(
      status := s.status[NextThread(s) := Running], cur := NextThread(s), threadTicks := 0)
  {}

  lemma DequeueOrders(s: State)
    requires Shape(s) && Ordered(s)
    ensures Shape(Dequeue(s)) && Ordered(Dequeue(s))
  {}

  lemma ScheduleCounts(s: State)
    requires Core(s)
    ensures Counted(Schedule(s))
  {
    var next, s1 := NextThread(s), Schedule(s);
    DequeueCounts(s);
    assert Queue(s1) == Queue(Dequeue(s));
    assert s1.all == s.all && s1.idle == s.idle && s1.status == s.status[next := Running];
    if Queue(s) != [] {
      assert next in multiset(Queue(s));
    }
    forall u | u in s1.all
      ensures multiset(Queue(s1))[u] == if u != s1.idle && StatusOf(s1, u) == Ready then 1 else 0
    {
      assert multiset(Queue(s))[u] == if u != s.idle && StatusOf(s, u) == Ready then 1 else 0;
    }
    forall u | u in multiset(Queue(s1))
      ensures u in s1.all
    {
      assert u in multiset(Queue(s)) && u in Queue(s);
    }
    CountedMembers(s1);
  }

  lemma NextIsDispatchable(s: State)
    requires Core(s)
    ensures NextThread(s) in s.all && NextThread(s) !in s.sleepers
    ensures NextThread(s) == s.idle || StatusOf(s, NextThread(s)) == Ready
  {
    DequeueCounts(s);
    if Queue(s) != [] {
      assert NextThread(s) in multiset(Queue(s));
      QueuedThread(s, NextThread(s));
    }
  }

  lemma ScheduleStatuses(s: State)
    requires InRange(s) && Asleep(s) && NoneRunning(s)
    requires NextThread(s) in s.all && NextThread(s) !in s.sleepers
    ensures InRange(Schedule(s)) && Asleep(Schedule(s)) && OnlyCurrentRuns(Schedule(s))
  {
    DequeueFrame(s);
  }

  lemma ScheduleKeepsCore(s: State)
    requires Core(s) && NoneRunning(s)
    ensures Invariant(Schedule(s))
  {
    NextIsDispatchable(s);
    ScheduleStatuses(s);
    ScheduleCounts(s);
    DequeueOrders(s);
    DequeueFrame(s);
    assert Shape(Schedule(s)) && Ordered(Schedule(s));
  }

  lemma RequeueKeepsCore(s: State)
    requires Core(s) && OnlyCurrentRuns(s)
    ensures Core(Requeue(s)) && NoneRunning(Requeue(s))
  {
    if s.cur == s.idle {
      assert Requeue(s) == SetStatus(s, s.cur, Ready);
      PrivateChangeKeepsCore(s, Requeue(s), s.cur);
    } else {
      assert Requeue(s) == MakeReady(s, s.cur);
      MakeReadyKeepsCore(s, s.cur);
    }
    assert Requeue(s).status == s.status[s.cur := Ready];
  }

  // ----- changes to one thread's private data -----

  /** s1 is s up to the record of t, which may also appear or disappear. */
  ghost predicate OnlyRecordOf(s: State, s1: State, t: Thread) {
    && s1 == s.(status := s1.status, priority := s1.priority, base := s1.base, nice := s1.nice,
                recentCpu := s1.recentCpu, wakeup := s1.wakeup, all := s1.all,
                threadTicks := s1.threadTicks)
    && (forall u :: u in s.all && u != t ==> u in s1.all)
    && (forall u :: u in s1.all && u != t ==>
         && u in s.all
         && StatusOf(s1, u) == StatusOf(s, u)
         && Key(s1.priority, u) == Key(s.priority, u)
         && Key(s1.base, u) == Key(s.base, u)
         && Key(s1.nice, u) == Key(s.nice, u)
         && (u in s.wakeup ==> u in s1.wakeup && s1.wakeup[u] == s.wakeup[u]))
  }

  /** The record of a thread outside all queues may change freely within its ranges. */
  lemma PrivateChangeKeepsCore(s: State, s1: State, t: Thread)
    requires Core(s) && OnlyRecordOf(s, s1, t)
    requires t !in s.all || t == s.idle || StatusOf(s, t) != Ready
    requires t !in s.sleepers && Distinct(s1.all) && s.idle in s1.all
    requires t in s1.all ==>
               && HasBucket(s1.mlfqs, Key(s1.priority, t))
               && PRI_MIN <= Key(s1.base, t) <= PRI_MAX
               && NICE_MIN <= Key(s1.nice, t) <= NICE_MAX
               && StatusOf(s1, t) != Dying
               && (t == s.idle || StatusOf(s1, t) != Ready)
    ensures Core(s1)
  {
    NotQueued(s, t);
    assert Shape(s1) && InRange(s1) && Asleep(s1) && Counted(s1);
    PrivateChangeKeepsOrder(s, s1, t);
  }

  lemma PrivateChangeKeepsOrder(s: State, s1: State, t: Thread)
    requires Core(s) && OnlyRecordOf(s, s1, t)
    requires t !in Queue(s) && t !in s.sleepers
    ensures Ordered(s1)
  {
    assert Agree(Queue(s), s.priority, s1.priority);
    assert Agree(s.sleepers, Urgency(s.wakeup), Urgency(s1.wakeup));
    if s.mlfqs {
      InPlaceAgrees(s.buckets, s.priority, s1.priority);
    }
    if !s.scan {
      SortedAgrees(s.sleepers, Urgency(s.wakeup), Urgency(s1.wakeup));
      SortedAgrees(s.ready, s.priority, s1.priority);
    }
  }

  // ----- priorities -----

  lemma UnblockKeepsCore(s: State, t: Thread)
    requires Core(s) && OnlyCurrentRuns(s)
    requires t in s.all && t != s.idle && StatusOf(s, t) == Blocked && t !in s.sleepers
    ensures Core(Unblock(s, t)) && OnlyCurrentRuns(Unblock(s, t))
  {
    var s1 := s.(priority := if s.mlfqs then Reprioritised(s, t) else s.priority);
    assert Unblock(s, t) == MakeReady(s1, t) && OnlyCurrentRuns(s1);
    NewPriorityKeepsCore(s, t);
    MakeReadyKeepsCore(s1, t);
    MakeReadyFrame(s1, t);
    hide Core, Unblock, MakeReady;
  }

  lemma NewPriorityKeepsCore(s: State, t: Thread)
    requires Core(s) && t in s.all && t !in s.sleepers && (t == s.idle || StatusOf(s, t) != Ready)
    ensures Core(s.(priority := if s.mlfqs then Reprioritised(s, t) else s.priority))
  {
    NewPriorityRecord(s, t);
    hide InRange, Counted, Ordered, Asleep, OnlyRecordOf, Reprioritised, Key;
    PrivateChangeKeepsCore(s, s.(priority := if s.mlfqs then Reprioritised(s, t) else s.priority), t);
  }

  lemma NewPriorityRecord(s: State, t: Thread)
    requires InRange(s) && t in s.all
    ensures var s1 := s.(priority := if s.mlfqs then Reprioritised(s, t) else s.priority);
            && OnlyRecordOf(s, s1, t)
            && HasBucket(s1.mlfqs, Key(s1.priority, t)) && PRI_MIN <= Key(s1.base, t) <= PRI_MAX
            && NICE_MIN <= Key(s1.nice, t) <= NICE_MAX && StatusOf(s1, t) != Dying
  {}

  lemma NewPrioritiesInRange(s: State)
    requires InRange(s)
    ensures s.mlfqs ==> forall t :: t in s.all ==> PRI_MIN <= Key(NewPriorities(s), t) <= PRI_MAX
  {}

  /** New priorities and buckets that fit them keep the core, if the same threads stay queued. */
  lemma RebucketKeepsRest(s: State, priority: map<Thread, int>, b: seq<seq<Thread>>)
    requires Shape(s) && InRange(s) && Ordered(s) && Asleep(s) && s.mlfqs
    requires |b| == BUCKETS && InPlace(b, priority)
    requires forall t :: t in s.all ==> PRI_MIN <= Key(priority, t) <= PRI_MAX
    ensures var s1 := s.(priority := priority, buckets := b);
            Shape(s1) && InRange(s1) && Ordered(s1) && Asleep(s1)
  {
    hide InPlace, Key, Urgency;
    var s1 := s.(priority := priority, buckets := b);
    assert Shape(s1) && Asleep(s1) && Ordered(s1);
  }

  lemma RebucketKeepsCore(s: State, priority: map<Thread, int>, b: seq<seq<Thread>>)
    requires Core(s) && s.mlfqs
    requires |b| == BUCKETS && InPlace(b, priority) && multiset(Flat(b)) == multiset(Flat(s.buckets))
    requires forall t :: t in s.all ==> PRI_MIN <= Key(priority, t) <= PRI_MAX
    ensures Core(s.(priority := priority, buckets := b))
  {
    hide Shape, InRange, Ordered, Asleep, Counted, InPlace, Key, Flat;
    RebucketKeepsRest(s, priority, b);
    SameQueueKeepsCounted(s, s.(priority := priority, buckets := b));
  }

  lemma ReprioritiseIs(s: State)
    ensures FourthTick(s) ==>
            Reprioritise(s) == s.(priority := NewPriorities(s), buckets := Rebucket(s.buckets, NewPriorities(s)))
    ensures !FourthTick(s) ==> Reprioritise(s) == s
  {
    hide NewPriorities, Rebucket;
  }

  lemma ReprioritiseKeepsCore(s: State)
    requires Core(s) && OnlyCurrentRuns(s)
    ensures Core(Reprioritise(s)) && OnlyCurrentRuns(Reprioritise(s))
  {
    hide Shape, Ordered, Counted, Asleep, InRange, InPlace, NewPriorities, Rebucket, Reprioritise, Flat, Key;
    ReprioritiseIs(s);
    if FourthTick(s) {
      RebucketedQueue(s);
      NewPrioritiesInRange(s);
      RebucketKeepsCore(s, NewPriorities(s), Rebucket(s.buckets, NewPriorities(s)));
    }
  }

  lemma RebucketedQueue(s: State)
    requires Core(s) && s.mlfqs
    ensures var b := Rebucket(s.buckets, NewPriorities(s));
            && multiset(Flat(b)) == multiset(Flat(s.buckets)) && InPlace(b, NewPriorities(s)) && |b| == BUCKETS
  {
    NewPrioritiesInRange(s);
    forall t | t in Flat(s.buckets)
      ensures 0 <= Key(NewPriorities(s), t) < BUCKETS
    {
      assert t in Queue(s);
    }
    RebucketIsSound(s.buckets, NewPriorities(s));
  }

  lemma SameQueueKeepsCounted(s: State, s1: State)
    requires Counted(s) && multiset(Queue(s1)) == multiset(Queue(s))
    requires s1.all == s.all && s1.status == s.status && s1.idle == s.idle
    ensures Counted(s1)
  {
    forall u | u in multiset(Queue(s1))
      ensures u in s1.all
    {
      assert u in multiset(Queue(s)) && u in Queue(s);
    }
    CountedMembers(s1);
  }

  // ----- thread life cycle -----

  lemma InitKeepsCore(s: State, t: Thread, p: int)
    requires Core(s) && OnlyCurrentRuns(s) && t !in s.all && PRI_MIN <= p <= PRI_MAX
    ensures Core(InitThread(s, t, p)) && OnlyCurrentRuns(InitThread(s, t, p))
    ensures t in InitThread(s, t, p).all && StatusOf(InitThread(s, t, p), t) == Blocked
    ensures t != s.idle && t !in s.sleepers
  {
    var s1 := InitThread(s, t, p);
    assert s1.all == s.all + [t] && s1.status == s.status[t := Blocked] && s1.cur == s.cur;
    assert OnlyCurrentRuns(s1);
    assert Core(s1) by {
      assert OnlyRecordOf(s, s1, t) by { InitRecord(s, t, p); }
      InitRecord(s, t, p);
      PrivateChangeKeepsCore(s, s1, t);
    }
  }

  lemma InitRecord(s: State, t: Thread, p: int)
    requires InRange(s) && OnlyCurrentRuns(s) && t != s.idle && t !in s.all && PRI_MIN <= p <= PRI_MAX
    ensures OnlyRecordOf(s, InitThread(s, t, p), t)
    ensures HasBucket(s.mlfqs, Key(InitThread(s, t, p).priority, t))
    ensures PRI_MIN <= Key(InitThread(s, t, p).base, t) <= PRI_MAX
    ensures NICE_MIN <= Key(InitThread(s, t, p).nice, t) <= NICE_MAX
  {
    assert NICE_MIN <= Key(s.nice, s.cur) <= NICE_MAX;
  }

  lemma ForgetKeepsCore(s: State)
    requires Core(s) && OnlyCurrentRuns(s) && s.cur != s.idle
    ensures Core(Forget(s, s.cur)) && NoneRunning(Forget(s, s.cur))
  {
    var s1 := Forget(s, s.cur);
    forall u
      ensures u in s1.all <==> u in s.all && u != s.cur
    {
      WithoutMembers(s.all, s.cur, u);
    }
    assert NoneRunning(s1);
    assert Core(s1) by {
      assert OnlyRecordOf(s, s1, s.cur);
      assert Distinct(s1.all) by { WithoutKeepsDistinct(s.all, s.cur); }
      assert s.cur !in s.sleepers && s.idle in s1.all;
      PrivateChangeKeepsCore(s, s1, s.cur);
    }
  }

  lemma ReniceKeepsCore(s: State, n: int)
    requires Core(s) && OnlyCurrentRuns(s)
    ensures Core(Renice(s, n)) && OnlyCurrentRuns(Renice(s, n))
  {
    var s1 := Renice(s, n);
    assert OnlyCurrentRuns(s1);
    assert Core(s1) by {
      assert OnlyRecordOf(s, s1, s.cur);
      PrivateChangeKeepsCore(s, s1, s.cur);
    }
  }

  // ----- sleeping and waking -----

  /** The current thread, already blocked, enters the sleep list. */
  lemma FallAsleepKeepsCore(s: State, deadline: int)
    requires Core(s) && s.cur in s.all && s.cur != s.idle
    requires StatusOf(s, s.cur) == Blocked && s.cur !in s.sleepers
    ensures Core(FallAsleep(s, deadline))
  {
    var s0 := s.(wakeup := s.wakeup[s.cur := deadline]);
    assert Core(s0) by {
      assert OnlyRecordOf(s, s0, s.cur);
      PrivateChangeKeepsCore(s, s0, s.cur);
    }
    EnterSleepList(s0);
  }

  lemma EnterSleepList(s: State)
    requires Core(s) && s.cur in s.all && s.cur != s.idle && s.cur in s.wakeup
    requires StatusOf(s, s.cur) == Blocked && s.cur !in s.sleepers
    ensures Core(s.(sleepers := if s.scan then s.sleepers + [s.cur]
                                else Insert(s.sleepers, Urgency(s.wakeup), s.cur)))
  {
    var key := Urgency(s.wakeup);
    var sleepers := if s.scan then s.sleepers + [s.cur] else Insert(s.sleepers, key, s.cur);
    var s1 := s.(sleepers := sleepers);
    assert !s.scan ==> Sorted(sleepers, key) by {
      if !s.scan {
        InsertKeepsSorted(s.sleepers, key, s.cur);
      }
    }
    assert Asleep(s1) by {
      InsertIsPermutation(s.sleepers, key, s.cur);
      assert multiset(sleepers) == multiset(s.sleepers) + multiset{s.cur};
      forall t | t in sleepers
        ensures t == s.cur || t in s.sleepers
      {
        MemberOfInsert(s.sleepers, key, s.cur, t);
      }
    }
    assert Counted(s1) by {
      assert Queue(s1) == Queue(s);
    }
    assert Shape(s1) && InRange(s1) && Ordered(s1);
  }

  lemma TailOccurrences(ts: seq<Thread>)
    requires ts != [] && forall t :: t in ts ==> multiset(ts)[t] == 1
    ensures ts[0] !in ts[1..]
    ensures forall t :: t in ts[1..] ==> t in ts && multiset(ts[1..])[t] == 1
  {
    var rest := ts[1..];
    assert ts == [ts[0]] + rest;
    forall t | t in rest
      ensures t != ts[0] && multiset(rest)[t] == 1
    {
      assert t in ts && multiset(rest)[t] > 0;
    }
  }

  lemma PopSleeperKeepsCore(s: State)
    requires Core(s) && s.sleepers != [] && !s.scan
    ensures Core(s.(sleepers := s.sleepers[1..])) && s.sleepers[0] !in s.sleepers[1..]
  {
    hide Key, Flat, InPlace, Urgency;
    var s1 := s.(sleepers := s.sleepers[1..]);
    TailOccurrences(s.sleepers);
    assert Queue(s1) == Queue(s);
    assert Shape(s1) && InRange(s1) && Counted(s1) && Asleep(s1);
    assert Ordered(s1);
  }

  /** timer_wakeup meets thread_unblock's assertion at every pop, keeps the core, and
      leaves no sleeper whose time has come. */
  lemma {:induction false} WakeHeadsKeepsCore(s: State)
    requires Core(s) && OnlyCurrentRuns(s) && !s.scan
    ensures Core(WakeHeads(s)) && OnlyCurrentRuns(WakeHeads(s))
    ensures forall t :: t in WakeHeads(s).sleepers ==> Key(s.wakeup, t) > s.ticks
    decreases |s.sleepers|
  {
    if s.sleepers == [] {
    } else if Key(s.wakeup, s.sleepers[0]) > s.ticks {
      forall t | t in s.sleepers
        ensures Key(s.wakeup, t) > s.ticks
      {
        assert Key(Urgency(s.wakeup), s.sleepers[0]) >= Key(Urgency(s.wakeup), t);
      }
    } else {
      var popped := s.(sleepers := s.sleepers[1..]);
      PopSleeperKeepsCore(s);
      UnblockKeepsCore(popped, s.sleepers[0]);
      WakeHeadsKeepsCore(Unblock(popped, s.sleepers[0]));
    }
  }

  // ----- the timer interrupt -----

  lemma ThreadTickKeepsCore(s: State)
    requires Core(s) && OnlyCurrentRuns(s)
    ensures Core(ThreadTick(s)) && OnlyCurrentRuns(ThreadTick(s))
  {
    PrivateChangeKeepsCore(s, ThreadTick(s), s.cur);
  }

  lemma TickCountKeepsCore(s: State)
    requires Core(s) && OnlyCurrentRuns(s)
    ensures Core(s.(ticks := s.ticks + 1)) && OnlyCurrentRuns(s.(ticks := s.ticks + 1))
  {
    assert Queue(s.(ticks := s.ticks + 1)) == Queue(s);
  }

  lemma CountAndWakeIs(s: State)
    requires !s.scan
    ensures var s1 := ThreadTick(s.(ticks := s.ticks + 1)); CountAndWake(s) == WakeHeads(s1) && !s1.scan
  {
    hide WakeHeads;
  }

  lemma CountAndWakeKeepsCore(s: State)
    requires Core(s) && OnlyCurrentRuns(s) && !s.scan
    ensures Core(CountAndWake(s)) && OnlyCurrentRuns(CountAndWake(s))
  {
    hide *;
    var s0 := s.(ticks := s.ticks + 1);
    var s1 := ThreadTick(s0);
    CountAndWakeIs(s);
    TickCountKeepsCore(s);
    ThreadTickKeepsCore(s0);
    WakeHeadsKeepsCore(s1);
  }

  lemma InterruptKeepsCore(s: State)
    requires Core(s) && OnlyCurrentRuns(s) && !s.scan
    ensures Core(Interrupt(s)) && OnlyCurrentRuns(Interrupt(s))
  {
    hide Core, OnlyCurrentRuns, CountAndWake, Reprioritise, DecayEverySecond;
    CountAndWakeKeepsCore(s);
    ReprioritiseKeepsCore(CountAndWake(s));
    DecayKeepsCore(Reprioritise(CountAndWake(s)));
  }

  lemma DecayKeepsCore(s: State)
    requires Core(s) && OnlyCurrentRuns(s)
    ensures Core(DecayEverySecond(s)) && OnlyCurrentRuns(DecayEverySecond(s))
  {
    assert Queue(DecayEverySecond(s)) == Queue(s);
  }

  // ----- every event, every run -----

  lemma SetPriorityKeepsCore(s: State, p: int)
    requires Core(s) && OnlyCurrentRuns(s) && HasBucket(s.mlfqs, p)
    ensures var s1 := s.(priority := s.priority[s.cur := p]); Core(s1) && OnlyCurrentRuns(s1)
  {
    var s1 := s.(priority := s.priority[s.cur := p]);
    assert OnlyRecordOf(s, s1, s.cur);
    hide Counted, Ordered;
    PrivateChangeKeepsCore(s, s1, s.cur);
  }

  lemma EffectKeepsCore(s: State, e: Event)
    requires Core(s) && OnlyCurrentRuns(s) && !s.scan && Enabled(s, e) && !e.Exit? && !e.Sleep?
    ensures Core(Effect(s, e)) && OnlyCurrentRuns(Effect(s, e))
  {
    BaseInRange(s);
    hide Core, OnlyCurrentRuns, Effect, Interrupt, InitThread, Renice, Unblock, Key;
    EffectIs(s, e);
    match e
    case Enroll(t, p) =>
      InitKeepsCore(s, t, p);
    case Wake(t) =>
      UnblockKeepsCore(s, t);
    case SetNice(n) =>
      ReniceKeepsCore(s, n);
    case SetPriority(p) =>
      SetPriorityKeepsCore(s, p);
    case Refresh =>
      SetPriorityKeepsCore(s, Key(s.base, s.cur));
    case Tick =>
      InterruptKeepsCore(s);
    case _ =>
  }

  lemma BaseInRange(s: State)
    requires Core(s) && OnlyCurrentRuns(s)
    ensures PRI_MIN <= Key(s.base, s.cur) <= PRI_MAX
  {}

  lemma BlockedCurrentKeepsCore(s: State)
    requires Core(s) && OnlyCurrentRuns(s)
    ensures Core(SetStatus(s, s.cur, Blocked)) && NoneRunning(SetStatus(s, s.cur, Blocked))
  {
    PrivateChangeKeepsCore(s, SetStatus(s, s.cur, Blocked), s.cur);
  }

  lemma SleepKeepsCore(s: State, deadline: int)
    requires Core(s) && OnlyCurrentRuns(s) && s.cur != s.idle
    ensures Core(SetStatus(FallAsleep(s, deadline), s.cur, Blocked))
    ensures NoneRunning(SetStatus(FallAsleep(s, deadline), s.cur, Blocked))
  {
    var s0 := SetStatus(s, s.cur, Blocked);
    BlockedCurrentKeepsCore(s);
    FallAsleepKeepsCore(s0, deadline);
    assert FallAsleep(s0, deadline) == SetStatus(FallAsleep(s, deadline), s.cur, Blocked);
  }

  lemma LeaveCases(s: State, e: Event)
    ensures e.Block? ==> Leave(s, e) == SetStatus(s, s.cur, Blocked)
    ensures e.Exit? ==> Leave(s, e) == Forget(s, s.cur)
    ensures e.Sleep? && e.n > 0 ==> Leave(s, e) == SetStatus(FallAsleep(s, e.start + e.n), s.cur, Blocked)
    ensures !e.Block? && !e.Exit? && !e.Sleep? ==> Leave(s, e) == Requeue(Effect(s, e))
  {}

  lemma LeaveKeepsCore(s: State, e: Event)
    requires Core(s) && OnlyCurrentRuns(s) && !s.scan && Enabled(s, e)
    requires e.Exit? || e.Sleep? ==> s.cur != s.idle
    requires e.Sleep? ==> e.n > 0
    ensures Core(Leave(s, e)) && NoneRunning(Leave(s, e))
  {
    hide *;
    LeaveCases(s, e);
    if e.Block? {
      BlockedCurrentKeepsCore(s);
    } else if e.Exit? {
      ForgetKeepsCore(s);
    } else if e.Sleep? {
      SleepKeepsCore(s, e.start + e.n);
    } else {
      EffectKeepsCore(s, e);
      RequeueKeepsCore(Effect(s, e));
    }
  }

  lemma {:induction false} WakeHeadsFrame(s: State)
    ensures WakeHeads(s).scan == s.scan && WakeHeads(s).threadTicks == s.threadTicks
    ensures WakeHeads(s).mlfqs == s.mlfqs && WakeHeads(s).idle == s.idle && WakeHeads(s).cur == s.cur
    decreases |s.sleepers|
  {
    if s.sleepers != [] && Key(s.wakeup, s.sleepers[0]) <= s.ticks {
      WakeHeadsFrame(Unblock(s.(sleepers := s.sleepers[1..]), s.sleepers[0]));
    }
  }

  /** The effects, one by one. */
  lemma EffectIs(s: State, e: Event)
    ensures e.Enroll? ==> Effect(s, e) == InitThread(s, e.t, e.priority)
    ensures e.Wake? ==> Effect(s, e) == Unblock(s, e.t)
    ensures e.Exit? ==> Effect(s, e) == Forget(s, s.cur)
    ensures e.SetNice? ==> Effect(s, e) == Renice(s, e.n)
    ensures e.SetPriority? ==> Effect(s, e) == s.(priority := s.priority[s.cur := e.p])
    ensures e.Refresh? ==> Effect(s, e) == s.(priority := s.priority[s.cur := Key(s.base, s.cur)])
    ensures e.Sleep? ==> Effect(s, e) == if e.n <= 0 then s else FallAsleep(s, e.start + e.n)
    ensures e.Tick? ==> Effect(s, e) == Interrupt(s)
    ensures e.Block? || e.CheckPreemption? || e.YieldCpu? ==> Effect(s, e) == s
  {
    hide InitThread, Unblock, Forget, Renice, FallAsleep, Interrupt;
  }

  lemma EffectFrame(s: State, e: Event)
    requires !s.scan
    ensures Effect(s, e).mlfqs == s.mlfqs && Effect(s, e).scan == s.scan && Effect(s, e).idle == s.idle
    ensures Effect(s, e).threadTicks == if e.Tick? then s.threadTicks + 1 else s.threadTicks
  {
    hide Effect, PriorityFor, ClampNice, Insert, PushAt, Without, Interrupt, Urgency;
    EffectIs(s, e);
    if e.Tick? {
      InterruptFrame(s);
    }
  }

  lemma InterruptFrame(s: State)
    requires !s.scan
    ensures Interrupt(s).mlfqs == s.mlfqs && Interrupt(s).scan == s.scan && Interrupt(s).idle == s.idle
    ensures Interrupt(s).threadTicks == s.threadTicks + 1 && Interrupt(s).cur == s.cur
  {
    var s1 := ThreadTick(s.(ticks := s.ticks + 1));
    WakeHeadsFrame(s1);
    assert CountAndWake(s) == WakeHeads(s1);
  }

  lemma EffectKeepsCurrent(s: State, e: Event)
    requires !s.scan
    ensures Effect(s, e).cur == s.cur
  {
    EffectIs(s, e);
    InterruptFrame(s);
    hide Effect, Interrupt, Insert, PriorityFor, PushAt;
  }

  lemma InvariantMeans(s: State)
    requires Invariant(s)
    ensures Core(s) && OnlyCurrentRuns(s) && s.cur in s.all
  {}

  lemma IdleSleep(s: State, e: Event)
    requires e.Sleep? && e.n <= 0
    ensures Effect(s, e) == s
  {}

  lemma SleepWantsNoYield(s: State, e: Event)
    ensures e.Sleep? || e.Wake? || e.Block? || e.Exit? ==> !WantsYield(s, e)
  {}

  lemma SliceNotOver(s: State, e: Event)
    requires e.Tick? && !WantsYield(s, e)
    ensures s.threadTicks + 1 < TIME_SLICE
  {}

  /** Every event the kernel allows keeps the scheduler invariant. */
  lemma StepKeepsInvariant(s: State, e: Event)
    requires Invariant(s) && Enabled(s, e) && !s.scan
    ensures Invariant(Step(s, e))
  {
    hide WantsYield, Effect, Leave, Schedule, Core, OnlyCurrentRuns;
    SleepWantsNoYield(s, e);
    if Dispatches(s, e) {
      LeaveKeepsCore(s, e);
      ScheduleKeepsCore(Leave(s, e));
    } else if e.Sleep? {
      IdleSleep(s, e);
    } else {
      EffectKeepsCore(s, e);
      EffectFrame(s, e);
      if e.Tick? {
        SliceNotOver(s, e);
      }
    }
  }

  lemma StepKeepsMode(s: State, e: Event)
    requires !s.scan
    ensures !Step(s, e).scan && Step(s, e).mlfqs == s.mlfqs && Step(s, e).idle == s.idle
  {
    hide WantsYield, Effect, Leave, Schedule;
    EffectFrame(s, e);
    SleepWantsNoYield(s, e);
    if Dispatches(s, e) {
      LeaveFrame(s, e);
      DequeueFrame(Leave(s, e));
    }
  }

  lemma LeaveFrame(s: State, e: Event)
    requires !s.scan && (e.Sleep? ==> e.n > 0)
    ensures Leave(s, e).mlfqs == s.mlfqs && Leave(s, e).scan == s.scan && Leave(s, e).idle == s.idle
  {
    hide Leave, Effect;
    LeaveCases(s, e);
    EffectFrame(s, e);
  }

  lemma {:induction false} RunKeepsInvariant(s: State, es: seq<Event>)
    requires Invariant(s) && !s.scan && CanRun(s, es)
    ensures Invariant(Run(s, es)) && !Run(s, es).scan
    decreases |es|
  {
    if es != [] {
      StepKeepsInvariant(s, es[0]);
      StepKeepsMode(s, es[0]);
      RunKeepsInvariant(Step(s, es[0]), es[1..]);
    }
  }
}
