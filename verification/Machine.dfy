/** The scheduler as the kernel runs it: threads are objects, the run queues are updated in
    place, and each method is one function of src/threads/thread.c or src/devices/timer.c.
    Ghost maps mirror the thread records; `Abs` is the machine state of module Scheduler. */
module Machine {
  import opened Objects
  import opened OrderedList
  import opened Buckets
  import opened MlfqsMath
  import opened Scheduler
  import opened SchedulerInvariant
  import opened SchedulerTheorems
  import opened AlarmClock
  import FixedPoint

  lemma EnqueueCases(s: State, t: Thread)
    requires !s.scan && HasBucket(s.mlfqs, Key(s.priority, t)) && |s.buckets| == BUCKETS
    ensures Scheduler.Enqueue(s, t)
            == if s.mlfqs then s.(buckets := Push(s.buckets, Key(s.priority, t), t))
               else s.(ready := Insert(s.ready, s.priority, t))
  {}

  lemma KnownThreads(s: State)
    requires Core(s) && OnlyCurrentRuns(s)
    ensures forall t :: t in s.ready ==> t in s.all
    ensures s.cur in s.all && HasBucket(s.mlfqs, Key(s.priority, s.cur)) && |s.buckets| == BUCKETS
  {
    if !s.mlfqs {
      assert Queue(s) == s.ready;
    }
  }

  /** The status is written after the insertion; the order does not matter. */
  lemma RequeueCases(s: State)
    ensures s.cur == s.idle ==> Requeue(s) == SetStatus(s, s.cur, Ready)
    ensures s.cur != s.idle ==> Requeue(s) == SetStatus(Scheduler.Enqueue(s, s.cur), s.cur, Ready)
    ensures Requeue(s).all == s.all
  {}

  lemma UnblockCases(s: State, t: Thread)
    requires t != s.idle
    ensures !s.mlfqs ==> Unblock(s, t) == Scheduler.Enqueue(SetStatus(s, t, Ready), t)
    ensures s.mlfqs ==> Unblock(s, t) == Scheduler.Enqueue(UpdatePriority(SetStatus(s, t, Ready), t), t)
    ensures s.mlfqs ==> PRI_MIN <= Key(UpdatePriority(SetStatus(s, t, Ready), t).priority, t) <= PRI_MAX
  {}

  lemma YieldFacts(s: State)
    requires Core(s) && OnlyCurrentRuns(s)
    ensures forall t :: t in s.ready ==> t in s.all
    ensures s.cur in s.all && HasBucket(s.mlfqs, Key(s.priority, s.cur))
    ensures s.cur == s.idle ==> Requeue(s) == SetStatus(s, s.cur, Ready)
    ensures s.cur != s.idle ==> Requeue(s) == SetStatus(Scheduler.Enqueue(s, s.cur), s.cur, Ready)
    ensures Requeue(s).all == s.all
    ensures NextThread(Requeue(s)) in s.all && Invariant(Scheduler.Schedule(Requeue(s)))
  {
    hide *;
    KnownThreads(s);
    RequeueCases(s);
    RequeueKeepsCore(s);
    NextIsDispatchable(Requeue(s));
    ScheduleKeepsCore(Requeue(s));
  }

  lemma BlockFacts(s: State)
    requires Invariant(s) && !s.scan
    ensures Step(s, Block) == Scheduler.Schedule(SetStatus(s, s.cur, Blocked)) && Invariant(Step(s, Block))
    ensures NextThread(SetStatus(s, s.cur, Blocked)) in s.all && s.cur in s.all
  {
    assert Dispatches(s, Block) && Core(s) && OnlyCurrentRuns(s);
    hide Core, OnlyCurrentRuns, Invariant, Scheduler.Schedule, NextThread;
    StepKeepsInvariant(s, Block);
    BlockedCurrentKeepsCore(s);
    NextIsDispatchable(SetStatus(s, s.cur, Blocked));
    LeaveCases(s, Block);
  }

  lemma UnblockFacts(s: State, t: Thread)
    requires Core(s) && OnlyCurrentRuns(s)
    requires t in s.all && t != s.idle && StatusOf(s, t) == Blocked && t !in s.sleepers
    ensures forall t :: t in s.ready ==> t in s.all
    ensures HasBucket(s.mlfqs, Key(s.priority, t)) && |s.buckets| == BUCKETS
    ensures Core(Unblock(s, t)) && OnlyCurrentRuns(Unblock(s, t))
    ensures !s.mlfqs ==> Unblock(s, t) == Scheduler.Enqueue(SetStatus(s, t, Ready), t)
    ensures s.mlfqs ==> Unblock(s, t) == Scheduler.Enqueue(UpdatePriority(SetStatus(s, t, Ready), t), t)
    ensures s.mlfqs ==> PRI_MIN <= Key(UpdatePriority(SetStatus(s, t, Ready), t).priority, t) <= PRI_MAX
  {
    assert HasBucket(s.mlfqs, Key(s.priority, t));
    hide *;
    KnownThreads(s);
    UnblockCases(s, t);
    UnblockKeepsCore(s, t);
  }

  /** The state in which thread_yield leaves s. */
  ghost function Yielded(s: State): State {
    Scheduler.Schedule(Requeue(s))
  }

  lemma InvariantFacts(s: State)
    requires Invariant(s)
    ensures Core(s) && OnlyCurrentRuns(s) && s.cur in s.all && |s.buckets| == BUCKETS
  {}

  /** The events that end with a preemption check. */
  lemma PreemptingStep(s: State, e: Event)
    requires Invariant(s) && !s.scan && Enabled(s, e)
    requires e.CheckPreemption? || e.SetNice? || e.SetPriority? || e.Refresh?
    ensures Invariant(Step(s, e))
    ensures var s1 := Effect(s, e);
            Step(s, e) == if (if e.SetNice? then BucketPreempts(s1)
                              else if e.SetPriority? || e.Refresh? then ReadyPreempts(s1) else Preempts(s1))
                          then Yielded(s1) else s1
  {
    hide Effect, Leave, Requeue, Invariant, Enabled, Scheduler.Schedule, BucketPreempts, ReadyPreempts, Preempts;
    StepKeepsInvariant(s, e);
    LeaveCases(s, e);
    NoEffect(s, e);
  }

  lemma YieldIsStep(s: State)
    ensures Step(s, YieldCpu) == Yielded(s)
  {}

  lemma NoEffect(s: State, e: Event)
    ensures e.CheckPreemption? || e.YieldCpu? || e.Block? ==> Effect(s, e) == s
  {}

  lemma InitThreadFields(s: State, t: Thread, p: int, priority: int, nice: int, cpu: int)
    requires t != s.idle
    requires nice == if s.mlfqs then Key(s.nice, s.cur) else 0
    requires cpu == if s.mlfqs then Key(s.recentCpu, s.cur) else 0
    requires priority == if s.mlfqs then PriorityFor(cpu, nice) else p
    ensures Scheduler.InitThread(s, t, p)
            == s.(status := s.status[t := Blocked], priority := s.priority[t := priority], base := s.base[t := p],
                  nice := s.nice[t := nice], recentCpu := s.recentCpu[t := cpu],
                  wakeup := s.wakeup[t := 0], all := s.all + [t])
  {}

  lemma ExitFacts(s: State)
    requires Invariant(s) && !s.scan && s.cur != s.idle
    ensures s.cur in s.all && Step(s, Exit) == Scheduler.Schedule(Forget(s, s.cur)) && Invariant(Step(s, Exit))
    ensures NextThread(Forget(s, s.cur)) in Forget(s, s.cur).all
  {
    hide Core, OnlyCurrentRuns, Scheduler.Schedule, NextThread, Forget;
    InvariantFacts(s);
    StepKeepsInvariant(s, Exit);
    ForgetKeepsCore(s);
    NextIsDispatchable(Forget(s, s.cur));
    LeaveCases(s, Exit);
  }

  lemma SetNiceFacts(s: State, n: int)
    requires Invariant(s) && s.cur != s.idle
    ensures var s1 := Effect(s, SetNice(n));
            && s1 == UpdatePriority(s.(nice := s.nice[s.cur := ClampNice(n)]), s.cur)
            && Core(s1) && OnlyCurrentRuns(s1)
  {
    hide Core, OnlyCurrentRuns, UpdatePriority, ClampNice;
    InvariantFacts(s);
    ReniceKeepsCore(s, n);
  }

  lemma EnrollFacts(s: State, t: Thread, p: int)
    requires Invariant(s) && !s.scan && Enabled(s, Event.Enroll(t, p))
    ensures Step(s, Event.Enroll(t, p)) == Scheduler.InitThread(s, t, p) && Invariant(Step(s, Event.Enroll(t, p)))
  {
    StepKeepsInvariant(s, Event.Enroll(t, p));
    hide Scheduler.InitThread;
  }

  lemma RefreshFacts(s: State)
    requires Invariant(s) && !s.scan && s.cur != s.idle
    ensures var s1 := Effect(s, Refresh);
            && s1 == s.(priority := s.priority[s.cur := Key(s.base, s.cur)])
            && Core(s1) && OnlyCurrentRuns(s1)
  {
    hide Core, OnlyCurrentRuns;
    InvariantFacts(s);
    EffectKeepsCore(s, Refresh);
  }

  /** Unblocking is the event Wake. */
  lemma UnblockIsWake(s: State, t: Thread)
    requires Invariant(s) && !s.scan && Enabled(s, Wake(t))
    ensures Step(s, Wake(t)) == Unblock(s, t) && Invariant(Step(s, Wake(t)))
    ensures t in s.all && t != s.idle && StatusOf(s, t) == Blocked && t !in s.sleepers
  {
    StepKeepsInvariant(s, Wake(t));
    hide Unblock;
  }

  lemma SetPriorityFacts(s: State, p: int)
    requires Invariant(s) && !s.scan && s.cur != s.idle && HasBucket(s.mlfqs, p)
    ensures var s1 := Effect(s, SetPriority(p));
            s1 == s.(priority := s.priority[s.cur := p]) && Core(s1) && OnlyCurrentRuns(s1)
  {
    hide Core, OnlyCurrentRuns;
    InvariantFacts(s);
    EffectKeepsCore(s, SetPriority(p));
  }

  lemma FallAsleepFields(s: State, deadline: int)
    requires !s.scan
    ensures FallAsleep(s, deadline)
            == s.(wakeup := s.wakeup[s.cur := deadline],
                  sleepers := Insert(s.sleepers, Urgency(s.wakeup[s.cur := deadline]), s.cur))
  {}

  lemma SleepFacts(s: State, start: int, n: int)
    requires Invariant(s) && !s.scan && s.cur != s.idle && start <= s.ticks
    ensures s.cur in s.all && forall t :: t in s.sleepers ==> t in s.all
    ensures Invariant(Step(s, Sleep(start, n)))
    ensures n <= 0 ==> Step(s, Sleep(start, n)) == s
    ensures n > 0 ==> Step(s, Sleep(start, n))
                      == Scheduler.Schedule(SetStatus(FallAsleep(s, start + n), s.cur, Blocked))
    ensures n > 0 ==> NextThread(SetStatus(FallAsleep(s, start + n), s.cur, Blocked)) in s.all
  {
    hide *;
    InvariantFacts(s);
    SleepersAreKnown(s);
    SleepCases(s, start, n);
    StepKeepsInvariant(s, Sleep(start, n));
    if n > 0 {
      SleepKeepsCore(s, start + n);
      NextIsDispatchable(SetStatus(FallAsleep(s, start + n), s.cur, Blocked));
    }
  }

  lemma SleepersAreKnown(s: State)
    requires Invariant(s)
    ensures forall t :: t in s.sleepers ==> t in s.all
  {}

  lemma SleepCases(s: State, start: int, n: int)
    requires !s.scan && s.cur != s.idle && start <= s.ticks
    ensures Enabled(s, Sleep(start, n))
    ensures n <= 0 ==> Step(s, Sleep(start, n)) == s
    ensures n > 0 ==> Step(s, Sleep(start, n))
                      == Scheduler.Schedule(SetStatus(FallAsleep(s, start + n), s.cur, Blocked))
    ensures SetStatus(FallAsleep(s, start + n), s.cur, Blocked).all == s.all
  {
    hide Scheduler.Schedule, Leave, Effect, WantsYield, Insert;
    var e := Sleep(start, n);
    EffectIs(s, e);
    LeaveCases(s, e);
    SleepWantsNoYield(s, e);
  }

  lemma SleepersOfCore(s: State)
    requires Core(s)
    ensures forall t :: t in s.sleepers ==> t in s.all && t != s.idle && StatusOf(s, t) == Blocked
  {}

  lemma PopFacts(s: State)
    requires Core(s) && OnlyCurrentRuns(s) && !s.scan && s.sleepers != []
    ensures var (t, s1) := (s.sleepers[0], s.(sleepers := s.sleepers[1..]));
            && t in s.all && t != s.idle && StatusOf(s, t) == Blocked && t in s.status && t !in s1.sleepers
            && Core(s1) && OnlyCurrentRuns(s1)
            && (Key(s.wakeup, t) <= s.ticks ==> WakeHeads(s) == WakeHeads(Unblock(s1, t)))
  {
    hide Core, OnlyCurrentRuns, Unblock;
    SleepersOfCore(s);
    PopSleeperKeepsCore(s);
    KeepsRunning(s, s.(sleepers := s.sleepers[1..]));
  }

  lemma KeepsRunning(s: State, s1: State)
    requires OnlyCurrentRuns(s) && s1.status == s.status && s1.all == s.all && s1.cur == s.cur
    ensures OnlyCurrentRuns(s1)
  {}

  lemma WakeStops(s: State)
    ensures s.sleepers == [] || Key(s.wakeup, s.sleepers[0]) > s.ticks ==> WakeHeads(s) == s
  {}

  /** mlfqs_update_priority_all. */
  ghost function Repriced(s: State): State {
    s.(priority := NewPriorities(s), buckets := Rebucket(s.buckets, NewPriorities(s)))
  }

  /** mlfqs_update_rcpu_la. */
  ghost function Decayed(s: State): State {
    s.(recentCpu := DecayedCpus(s), loadAvg := LoadAvgAfter(s.loadAvg, ReadyThreads(s)))
  }

  lemma FourthTickFacts(s: State)
    requires Core(s) && OnlyCurrentRuns(s)
    ensures s.mlfqs ==> forall t :: t in Flat(s.buckets) ==> t in s.all && t != s.idle
    ensures Reprioritise(s) == if FourthTick(s) then Repriced(s) else s
    ensures Distinct(s.all)
    ensures FourthTick(Reprioritise(s)) == FourthTick(s)
    ensures Core(Reprioritise(s)) && OnlyCurrentRuns(Reprioritise(s))
  {
    if s.mlfqs {
      forall t | t in Flat(s.buckets)
        ensures t in s.all && t != s.idle
      {
        QueuedThread(s, t);
      }
    }
    assert Distinct(s.all);
    hide Core, OnlyCurrentRuns, NewPriorities, Rebucket, Distinct;
    ReprioritiseKeepsCore(s);
  }

  lemma SecondFacts(s: State)
    requires Core(s) && OnlyCurrentRuns(s)
    ensures Distinct(s.all)
    ensures DecayEverySecond(s) == if FullSecond(s) then Decayed(s) else s
    ensures Core(DecayEverySecond(s)) && OnlyCurrentRuns(DecayEverySecond(s))
  {
    assert Distinct(s.all);
    hide Core, OnlyCurrentRuns, DecayedCpus, ReadyThreads, Distinct;
    DecayKeepsCore(s);
  }

  /** The stages of the timer interrupt. */
  lemma TickFacts(s: State)
    requires Invariant(s) && !s.scan
    ensures var s0 := s.(ticks := s.ticks + 1);
            var s1 := ThreadTick(s0);
            var s3 := Reprioritise(WakeHeads(s1));
            && s.cur in s.all && Core(s1) && OnlyCurrentRuns(s1)
            && WakeHeads(s1).threadTicks == s1.threadTicks
            && Step(s, Tick)
               == (if s1.threadTicks >= TIME_SLICE || (FourthTick(s3) && BucketPreempts(s3))
                   then Yielded(DecayEverySecond(s3)) else DecayEverySecond(s3))
    ensures Invariant(Step(s, Tick))
  {
    hide Core, OnlyCurrentRuns, WakeHeads, Reprioritise, DecayEverySecond, BucketPreempts, FourthTick, Requeue;
    hide Scheduler.Schedule;
    var s0 := s.(ticks := s.ticks + 1);
    InvariantFacts(s);
    StepKeepsInvariant(s, Tick);
    TickCountKeepsCore(s);
    ThreadTickKeepsCore(s0);
    WakeHeadsFrame(ThreadTick(s0));
  }

  lemma SliceSurvivesWaking(s: State)
    requires !s.scan
    ensures WakeHeads(s).threadTicks == s.threadTicks
  {
    WakeHeadsFrame(s);
  }

  lemma NewPrioritiesOf(s: State, t: Thread)
    requires t in s.all
    ensures Key(NewPriorities(s), t)
            == if t == s.idle then Key(s.priority, t) else PriorityFor(Key(s.recentCpu, t), Key(s.nice, t))
  {}

  lemma DecayedCpusOf(s: State, t: Thread)
    requires t in s.all
    ensures Key(DecayedCpus(s), t)
            == if t == s.idle then Key(s.recentCpu, t)
               else RecentCpuAfter(s.loadAvg, Key(s.recentCpu, t), Key(s.nice, t))
  {}

  /** The threads that thread_init and thread_start make, as they are at the boot state. */
  method FirstThreads(mlfqs: bool) returns (main: Thread, idle: Thread)
    ensures fresh(main) && fresh(idle) && main != idle
    ensures main.status == Running && main.priority == PRI_DEFAULT == main.basePriority
    ensures idle.status == if mlfqs then Blocked else Ready
    ensures idle.priority == (if mlfqs then PriorityFor(0, 0) else PRI_MIN) && idle.basePriority == PRI_MIN
    ensures main.nice == 0 == idle.nice && main.recentCpu == 0 == idle.recentCpu
    ensures main.wakeupTick == 0 == idle.wakeupTick
  {
    main := new Thread(PRI_DEFAULT, 0, 0);
    idle := new Thread(PRI_MIN, 0, 0);
    if mlfqs {
      idle.priority := PriorityFor(0, 0);
    }
    main.status, idle.status := Running, if mlfqs then Blocked else Ready;
  }

  class Kernel {
    const mlfqs: bool
    const idle: Thread
    const mlfqsList: array<seq<Thread>>
    var allList: seq<Thread>
    var readyList: seq<Thread>
    var sleepList: seq<Thread>
    var current: Thread
    var loadAvg: int
    var ticks: int
    var threadTicks: int
    var yieldOnReturn: bool

    ghost var status: map<Thread, Status>
    ghost var priority: map<Thread, int>
    ghost var base: map<Thread, int>
    ghost var nice: map<Thread, int>
    ghost var recentCpu: map<Thread, int>
    ghost var wakeup: map<Thread, int>

    ghost function Abs(): (s: State)
      reads this, mlfqsList
      ensures s.cur == current && s.idle == idle && s.all == allList && s.ready == readyList
      ensures s.sleepers == sleepList && s.mlfqs == mlfqs && !s.scan
      ensures s.ticks == ticks && s.threadTicks == threadTicks
    {
      State(mlfqs, false, status, priority, base, nice, recentCpu, wakeup,
            allList, readyList, mlfqsList[..], sleepList,
            current, idle, loadAvg, ticks, threadTicks)
    }

    /** The ghost maps hold the records of all known threads. */
    ghost predicate Synced()
      reads this, allList
    {
      && mlfqsList.Length == BUCKETS
      && (forall t :: t in allList ==> Recorded(t))
    }

    ghost predicate Recorded(t: Thread)
      reads `status, `priority, `base, `nice, `recentCpu, `wakeup, t
    {
      && t in status && t.status == status[t]
      && t.priority == Key(priority, t)
      && t.basePriority == Key(base, t)
      && t.nice == Key(nice, t)
      && t.recentCpu == Key(recentCpu, t)
      && t.wakeupTick == Key(wakeup, t)
    }

    /** thread_init and thread_start, once the idle thread has introduced itself. */
    constructor (mlfqs: bool)
      ensures Synced() && current != idle && fresh(current) && fresh(idle) && fresh(mlfqsList)
      ensures Abs() == Boot(mlfqs, current, idle)
    {
      hide PriorityFor;
      var main, idle := FirstThreads(mlfqs);
      this.mlfqs := mlfqs;
      mlfqsList := new seq<Thread>[BUCKETS](_ => []);
      allList, readyList, sleepList := [main, idle], [], [];
      current, this.idle := main, idle;
      loadAvg, ticks, threadTicks, yieldOnReturn := 0, 0, 0, false;
      status := Boot(mlfqs, main, idle).status;
      priority, base := Boot(mlfqs, main, idle).priority, Boot(mlfqs, main, idle).base;
      nice, recentCpu, wakeup := map[main := 0, idle := 0], map[main := 0, idle := 0], map[main := 0, idle := 0];
      new;
      assert mlfqsList[..] == seq(BUCKETS, _ => []);
      assert Recorded(main) && Recorded(idle);
      assert allList[0] == main && allList[1] == idle;
    }

    // ----- run queues -----

    method MlfqsInsert(t: Thread)
      requires Synced() && PRI_MIN <= t.priority <= PRI_MAX
      modifies mlfqsList
      ensures mlfqsList[..] == Push(old(mlfqsList[..]), t.priority, t)
    {
      mlfqsList[t.priority] := mlfqsList[t.priority] + [t];
    }

    /** list_insert_ordered with less_priority. */
    method InsertByPriority(list: seq<Thread>, t: Thread) returns (r: seq<Thread>)
      requires Synced() && t in allList && forall u :: u in list ==> u in allList
      ensures r == Insert(list, priority, t)
    {
      var i := 0;
      while i < |list| && list[i].priority >= t.priority
        invariant 0 <= i <= |list|
        invariant forall j :: 0 <= j < i ==> Key(priority, t) <= Key(priority, list[j])
      {
        assert Recorded(list[i]) && Recorded(t);
        i := i + 1;
      }
      assert i < |list| ==> Recorded(list[i]) && Recorded(t);
      InsertAt(list, priority, t, i);
      r := list[..i] + [t] + list[i..];
    }

    /** The insertion that thread_unblock and thread_yield share. */
    method Enqueue(t: Thread)
      requires Synced() && t in allList && HasBucket(mlfqs, t.priority)
      requires forall u :: u in readyList ==> u in allList
      modifies `readyList, mlfqsList
      ensures Abs() == Scheduler.Enqueue(old(Abs()), t) && Synced()
    {
      hide Insert, Push;
      EnqueueCases(Abs(), t);
      hide Scheduler.Enqueue;
      if mlfqs {
        MlfqsInsert(t);
      } else {
        readyList := InsertByPriority(readyList, t);
      }
    }

    method MlfqsNextThreadToRun() returns (next: Thread)
      requires Synced() && mlfqs
      modifies mlfqsList
      ensures next == NextThread(old(Abs()))
      ensures Abs() == Dequeue(old(Abs())) && Synced()
    {
      ghost var s := Abs();
      var i := PRI_MAX;
      while i >= PRI_MIN
        invariant PRI_MIN - 1 <= i <= PRI_MAX
        invariant forall q :: i < q < BUCKETS ==> mlfqsList[q] == []
        invariant mlfqsList[..] == s.buckets
      {
        if mlfqsList[i] != [] {
          assert Top(s.buckets) == i;
          next := mlfqsList[i][0];
          mlfqsList[i] := mlfqsList[i][1..];
          assert mlfqsList[..] == PopFront(s.buckets, i);
          return;
        }
        i := i - 1;
      }
      assert Top(s.buckets) == -1;
      next := idle;
    }

    method NextThreadToRun() returns (next: Thread)
      requires Synced()
      modifies `readyList, mlfqsList
      ensures next == NextThread(old(Abs()))
      ensures Abs() == Dequeue(old(Abs())) && Synced()
    {
      if mlfqs {
        next := MlfqsNextThreadToRun();
      } else if readyList == [] {
        next := idle;
      } else {
        assert RemoveAt(readyList, 0) == readyList[1..];
        next, readyList := readyList[0], readyList[1..];
      }
    }

    /** schedule and thread_schedule_tail. */
    method Schedule()
      requires Synced() && NextThread(Abs()) in allList
      modifies `readyList, `current, `threadTicks, `status, mlfqsList, allList`status
      ensures Abs() == Scheduler.Schedule(old(Abs())) && Synced()
    {
      DequeueFrame(Abs());
      hide Scheduler.Schedule, Dequeue, NextThread;
      var next := NextThreadToRun();
      next.status, status := Running, status[next := Running];
      current := next;
      threadTicks := 0;
    }

    method MlfqsReadyThreads() returns (counter: nat)
      requires Synced()
      ensures counter == ReadyThreads(Abs())
    {
      counter := 0;
      for i := PRI_MIN to PRI_MAX + 1
        invariant counter == |Flat(mlfqsList[..i])|
      {
        assert mlfqsList[..i + 1][..i] == mlfqsList[..i];
        counter := counter + |mlfqsList[i]|;
      }
      assert mlfqsList[..BUCKETS] == mlfqsList[..];
      if current != idle {
        counter := counter + 1;
      }
    }

    /** mlfqs_reorganize_queues: empty all buckets into a temporary list, then insert
        everybody again. */
    method MlfqsReorganizeQueues()
      requires Synced()
      requires forall t :: t in Flat(mlfqsList[..]) ==> PRI_MIN <= t.priority <= PRI_MAX && t in allList
      modifies mlfqsList
      ensures mlfqsList[..] == Rebucket(old(mlfqsList[..]), priority)
    {
      ghost var b := mlfqsList[..];
      var temp := CollectAll();
      ghost var k := 0;
      assert mlfqsList[..] == Distribute(Flat(b)[..0], BUCKETS, priority);
      while temp != []
        invariant 0 <= k <= |Flat(b)| && temp == Flat(b)[k..]
        invariant mlfqsList[..] == Distribute(Flat(b)[..k], BUCKETS, priority)
        decreases |temp|
      {
        var t := temp[0];
        temp := temp[1..];
        assert t in Flat(b) && Key(priority, t) == t.priority;
        DistributeOne(Flat(b)[..k], t, BUCKETS, priority);
        assert Flat(b)[..k + 1] == Flat(b)[..k] + [t];
        MlfqsInsert(t);
        k := k + 1;
      }
      assert Flat(b)[..k] == Flat(b);
    }

    method CollectAll() returns (temp: seq<Thread>)
      requires Synced()
      modifies mlfqsList
      ensures temp == Flat(old(mlfqsList[..]))
      ensures forall p :: 0 <= p < BUCKETS ==> mlfqsList[p] == []
    {
      ghost var b := mlfqsList[..];
      temp := [];
      for i := PRI_MIN to PRI_MAX + 1
        invariant temp == Flat(b[..i])
        invariant forall p :: 0 <= p < i ==> mlfqsList[p] == []
        invariant forall p :: i <= p < BUCKETS ==> mlfqsList[p] == b[p]
      {
        while mlfqsList[i] != []
          invariant temp + mlfqsList[i] == Flat(b[..i]) + b[i]
          invariant forall p :: 0 <= p < i ==> mlfqsList[p] == []
          invariant forall p :: i < p < BUCKETS ==> mlfqsList[p] == b[p]
          decreases |mlfqsList[i]|
        {
          var e := mlfqsList[i][0];
          assert mlfqsList[i] == [e] + mlfqsList[i][1..];
          mlfqsList[i] := mlfqsList[i][1..];
          temp := temp + [e];
        }
        assert b[..i + 1][..i] == b[..i];
      }
      assert b[..BUCKETS] == b;
    }

    // ----- thread functions -----

    /** A state inside an event: all in order but for the length of the current slice. */
    ghost predicate Stable()
      reads this, allList, mlfqsList
    {
      Synced() && Core(Abs()) && OnlyCurrentRuns(Abs())
    }

    /** A state between events. */
    ghost predicate Valid()
      reads this, allList, mlfqsList
    {
      Synced() && Invariant(Abs())
    }

    /** t->status = status. */
    method SetThreadStatus(t: Thread, newStatus: Status)
      requires Synced() && t in allList
      modifies `status, t`status
      ensures Abs() == SetStatus(old(Abs()), t, newStatus) && Synced()
    {
      t.status, status := newStatus, status[t := newStatus];
    }

    method ThreadYield()
      requires Stable()
      modifies `readyList, `current, `threadTicks, `status, mlfqsList, allList`status
      ensures Abs() == Yielded(old(Abs())) && Valid() && allList == old(allList)
    {
      hide Core, OnlyCurrentRuns, Invariant, Requeue, Scheduler.Schedule, Scheduler.Enqueue, NextThread;
      YieldFacts(Abs());
      assert HasBucket(mlfqs, current.priority);
      hide Abs, Synced, SetStatus;
      if current != idle {
        Enqueue(current);
      }
      SetThreadStatus(current, Ready);
      Schedule();
    }

    method ThreadBlock()
      requires Valid()
      modifies `readyList, `current, `threadTicks, `status, mlfqsList, allList`status
      ensures Abs() == Step(old(Abs()), Block) && Valid()
    {
      hide Invariant, Step, Scheduler.Schedule, NextThread, Abs, SetStatus;
      BlockFacts(Abs());
      SetThreadStatus(current, Blocked);
      Schedule();
    }

    method MlfqsUpdatePriority(t: Thread)
      requires Synced() && t in allList
      modifies `priority, t`priority
      ensures Abs() == UpdatePriority(old(Abs()), t) && Synced()
    {
      if t == idle {
        return;
      }
      var p := PriorityFor(t.recentCpu, t.nice);
      t.priority, priority := p, priority[t := p];
    }

    /** thread_unblock, with its assertion that t is blocked. */
    method ThreadUnblock(t: Thread)
      requires Stable() && t in allList && t != idle && t !in sleepList && t.status == Blocked
      modifies `readyList, `priority, `status, mlfqsList, t`status, t`priority
      ensures Abs() == Unblock(old(Abs()), t) && Stable()
    {
      hide Core, OnlyCurrentRuns, Unblock, UpdatePriority, Scheduler.Enqueue, PriorityFor, SetStatus;
      UnblockFacts(Abs(), t);
      SetThreadStatus(t, Ready);
      if mlfqs {
        MlfqsUpdatePriority(t);
      }
      Enqueue(t);
    }

    // ----- preemption -----

    /** The scan at the start of mlfqs_check_preemption. */
    method HighestBucket() returns (highest: int)
      requires Synced()
      ensures highest == Top(mlfqsList[..])
    {
      highest := PRI_MAX;
      while highest >= PRI_MIN && mlfqsList[highest] == []
        invariant PRI_MIN - 1 <= highest <= PRI_MAX
        invariant forall q :: highest < q < BUCKETS ==> mlfqsList[q] == []
      {
        highest := highest - 1;
      }
    }

    method MlfqsCheckPreemption(interrupt: bool)
      requires Stable()
      modifies `readyList, `current, `threadTicks, `status, `yieldOnReturn, mlfqsList, allList`status
      ensures Stable() && allList == old(allList)
      ensures interrupt ==> Abs() == old(Abs())
      ensures interrupt ==> yieldOnReturn == (old(yieldOnReturn) || BucketPreempts(old(Abs())))
      ensures !interrupt ==> Abs() == if BucketPreempts(old(Abs())) then Yielded(old(Abs())) else old(Abs())
    {
      assert current in allList;
      var highest := HighestBucket();
      assert (highest > current.priority) == BucketPreempts(Abs());
      hide Abs, Core, OnlyCurrentRuns, Invariant, Yielded, BucketPreempts;
      if highest > current.priority {
        if interrupt {
          yieldOnReturn := true;
        } else {
          ThreadYield();
        }
      }
    }

    /** check_preemption; outside interrupts also thread_yield_if_necessary. */
    method CheckReadyList(interrupt: bool)
      requires Stable()
      modifies `readyList, `current, `threadTicks, `status, `yieldOnReturn, mlfqsList, allList`status
      ensures Stable() && allList == old(allList)
      ensures interrupt ==> Abs() == old(Abs())
      ensures interrupt ==> yieldOnReturn == (old(yieldOnReturn) || ReadyPreempts(old(Abs())))
      ensures !interrupt ==> Abs() == if ReadyPreempts(old(Abs())) then Yielded(old(Abs())) else old(Abs())
    {
      KnownThreads(Abs());
      assert current in allList;
      assert (readyList != [] && readyList[0].priority > current.priority) == ReadyPreempts(Abs());
      hide Abs, Core, OnlyCurrentRuns, Invariant, Yielded, ReadyPreempts;
      if readyList != [] && readyList[0].priority > current.priority {
        if interrupt {
          yieldOnReturn := true;
        } else {
          ThreadYield();
        }
      }
    }

    /** The preemption check that ends sema_up and thread_create. */
    method Preempt(interrupt: bool)
      requires Stable()
      modifies `readyList, `current, `threadTicks, `status, `yieldOnReturn, mlfqsList, allList`status
      ensures Stable() && allList == old(allList)
      ensures interrupt ==> Abs() == old(Abs())
      ensures interrupt ==> yieldOnReturn == (old(yieldOnReturn) || Preempts(old(Abs())))
      ensures !interrupt ==> Abs() == if Preempts(old(Abs())) then Yielded(old(Abs())) else old(Abs())
    {
      hide BucketPreempts, ReadyPreempts, Yielded;
      if mlfqs {
        MlfqsCheckPreemption(interrupt);
      } else {
        CheckReadyList(interrupt);
      }
    }

    /** The end of an interrupt handler: yield if it was asked for. */
    method ReturnFromInterrupt()
      requires Valid()
      modifies `readyList, `current, `threadTicks, `status, mlfqsList, allList`status
      ensures Abs() == (if yieldOnReturn then Step(old(Abs()), YieldCpu) else old(Abs())) && Valid()
    {
      YieldIsStep(Abs());
      InvariantFacts(Abs());
      hide Abs, Core, OnlyCurrentRuns, Invariant, Step, Yielded;
      if yieldOnReturn {
        ThreadYield();
      }
    }

    // ----- events in thread context -----

    ghost method Record(t: Thread)
      requires Synced() && t !in allList
      modifies `status, `priority, `base, `nice, `recentCpu, `wakeup
      ensures Synced() && Recorded(t) && base == old(base)[t := t.basePriority]
      ensures status == old(status)[t := t.status] && priority == old(priority)[t := t.priority]
      ensures nice == old(nice)[t := t.nice] && recentCpu == old(recentCpu)[t := t.recentCpu]
      ensures wakeup == old(wakeup)[t := t.wakeupTick]
    {
      status, priority, nice := status[t := t.status], priority[t := t.priority], nice[t := t.nice];
      recentCpu, wakeup, base := recentCpu[t := t.recentCpu], wakeup[t := t.wakeupTick], base[t := t.basePriority];
      forall u | u in allList
        ensures Recorded(u)
      {
        assert old(Recorded(u));
      }
    }

    /** list_push_back (&all_list, &t->allelem). */
    method Enroll(t: Thread)
      requires Synced() && t !in allList && t.status == Blocked && t.wakeupTick == 0
      modifies `allList, `status, `priority, `base, `nice, `recentCpu, `wakeup
      ensures Synced()
      ensures Abs() == old(Abs()).(
                status := old(status)[t := Blocked], priority := old(priority)[t := t.priority],
                base := old(base)[t := t.basePriority],
                nice := old(nice)[t := t.nice], recentCpu := old(recentCpu)[t := t.recentCpu],
                wakeup := old(wakeup)[t := 0], all := old(allList) + [t])
    {
      hide Recorded;
      Record(t);
      allList := allList + [t];
    }

    /** init_thread for a thread other than the first two. */
    method InitThread(newPriority: int) returns (t: Thread)
      requires Synced() && current in allList
      modifies `allList, `status, `priority, `base, `nice, `recentCpu, `wakeup
      ensures fresh(t) && t !in old(allList) && t != idle && t.status == Blocked && Synced()
      ensures Abs() == Scheduler.InitThread(old(Abs()), t, newPriority)
    {
      hide PriorityFor, Scheduler.InitThread;
      ghost var s := Abs();
      assert Recorded(current);
      t := new Thread(newPriority, if mlfqs then current.nice else 0, if mlfqs then current.recentCpu else 0);
      if mlfqs {
        t.priority := PriorityFor(t.recentCpu, t.nice);
      }
      InitThreadFields(s, t, newPriority, t.priority, t.nice, t.recentCpu);
      Enroll(t);
    }

    /** thread_create up to the allocation of the tid. */
    method ThreadCreate(newPriority: int) returns (t: Thread)
      requires Valid() && current != idle && PRI_MIN <= newPriority <= PRI_MAX
      modifies `allList, `status, `priority, `base, `nice, `recentCpu, `wakeup
      ensures fresh(t) && t !in old(allList) && Valid()
      ensures Abs() == Step(old(Abs()), Event.Enroll(t, newPriority))
    {
      ghost var s := Abs();
      hide Abs, Core, OnlyCurrentRuns, Invariant, Step, Scheduler.InitThread;
      InvariantFacts(s);
      t := InitThread(newPriority);
      EnrollFacts(s, t, newPriority);
    }

    /** The end of an uncontended lock_release, such as the one in allocate_tid:
        refresh_priority with nobody waiting, and thread_yield_if_necessary. */
    method RefreshCurrent()
      requires Valid() && current != idle
      modifies `readyList, `current, `threadTicks, `status, `priority, `yieldOnReturn, mlfqsList
      modifies allList`status, current`priority
      ensures Abs() == Step(old(Abs()), Refresh) && Valid()
    {
      hide Core, OnlyCurrentRuns, Invariant, Step, Effect, ReadyPreempts, Yielded;
      ghost var s := Abs();
      InvariantFacts(s);
      assert Recorded(current);
      SetPriorityField(current, current.basePriority);
      RefreshFacts(s);
      hide Abs;
      CheckReadyList(false);
      PreemptingStep(s, Refresh);
    }

    /** thread_unblock as an event. */
    method WakeThread(t: Thread)
      requires Valid() && Enabled(Abs(), Wake(t))
      modifies `readyList, `priority, `status, mlfqsList, allList`status, allList`priority
      ensures Abs() == Step(old(Abs()), Wake(t)) && Valid()
    {
      UnblockIsWake(Abs(), t);
      assert Recorded(t);
      hide Step, Unblock, Enabled;
      ThreadUnblock(t);
    }

    /** The end of thread_create: the new thread becomes ready and may preempt. */
    method LaunchThread(t: Thread)
      requires Valid() && Enabled(Abs(), Wake(t))
      modifies `readyList, `current, `threadTicks, `status, `priority, `yieldOnReturn
      modifies mlfqsList, allList`status, allList`priority
      ensures Abs() == Step(Step(old(Abs()), Wake(t)), CheckPreemption) && Valid()
    {
      hide *;
      WakeThread(t);
      CheckPreemptionEvent();
    }

    method ThreadExit()
      requires Valid() && current != idle
      modifies `allList, `readyList, `current, `threadTicks, `status, `priority, `base, `nice, `recentCpu, `wakeup
      modifies mlfqsList, allList`status
      ensures Abs() == Step(old(Abs()), Exit) && Valid()
    {
      hide Core, OnlyCurrentRuns, Invariant, Step, Effect, NextThread, Scheduler.Schedule;
      ghost var s := Abs();
      ExitFacts(s);
      RemoveCurrent();
      assert forall i :: 0 <= i < |allList| ==> allList[i] in old(allList);
      Schedule();
    }

    ghost method Unrecord(t: Thread)
      requires Synced() && t !in allList
      modifies `status, `priority, `base, `nice, `recentCpu, `wakeup
      ensures Synced() && base == old(base) - {t}
      ensures status == old(status) - {t} && priority == old(priority) - {t} && nice == old(nice) - {t}
      ensures recentCpu == old(recentCpu) - {t} && wakeup == old(wakeup) - {t}
    {
      status, priority, nice := status - {t}, priority - {t}, nice - {t};
      recentCpu, wakeup, base := recentCpu - {t}, wakeup - {t}, base - {t};
      forall u | u in allList
        ensures Recorded(u)
      {
        assert old(Recorded(u));
      }
    }

    /** list_remove (&thread_current ()->allelem); status = THREAD_DYING. */
    method RemoveCurrent()
      requires Synced() && current in allList
      modifies `allList, `status, `priority, `base, `nice, `recentCpu, `wakeup, current`status
      ensures Abs() == Forget(old(Abs()), current) && Synced()
      ensures forall u :: u in allList ==> u in old(allList)
    {
      hide Recorded;
      forall u | u in Without(allList, current)
        ensures u in allList && u != current
      {
        WithoutMembers(allList, current, u);
      }
      allList := Without(allList, current);
      current.status := Dying;
      Unrecord(current);
    }

    /** The preemption check at the end of sema_up, as an event of its own. */
    method CheckPreemptionEvent()
      requires Valid()
      modifies `readyList, `current, `threadTicks, `status, `yieldOnReturn, mlfqsList, allList`status
      ensures Abs() == Step(old(Abs()), CheckPreemption) && Valid()
    {
      hide Abs, Core, OnlyCurrentRuns, Invariant, Step, Effect, Preempts, Yielded;
      ghost var s := Abs();
      InvariantFacts(s);
      NoEffect(s, CheckPreemption);
      Preempt(false);
      PreemptingStep(s, CheckPreemption);
    }

    method ThreadSetNice(newNice: int)
      requires Valid() && current != idle
      modifies `readyList, `current, `threadTicks, `status, `priority, `nice, `yieldOnReturn, mlfqsList
      modifies allList`status, current`nice, current`priority
      ensures Abs() == Step(old(Abs()), SetNice(newNice)) && Valid()
    {
      hide Core, OnlyCurrentRuns, Invariant, Step, Effect, BucketPreempts, Yielded, ClampNice, UpdatePriority;
      ghost var s, e := Abs(), SetNice(newNice);
      InvariantFacts(s);
      var clamped := ClampNice(newNice);
      current.nice, nice := clamped, nice[current := clamped];
      MlfqsUpdatePriority(current);
      SetNiceFacts(s, newNice);
      hide Abs;
      MlfqsCheckPreemption(false);
      PreemptingStep(s, e);
    }

    method SetPriorityField(t: Thread, p: int)
      requires Synced() && t in allList
      modifies `priority, t`priority
      ensures priority == old(priority)[t := p] && Synced()
    {
      assert Recorded(t);
      t.priority, priority := p, priority[t := p];
      assert forall u :: u in allList && u != t ==> old(Recorded(u));
    }

    method ThreadSetPriority(newPriority: int)
      requires Valid() && current != idle && HasBucket(mlfqs, newPriority)
      modifies `readyList, `current, `threadTicks, `status, `priority, `yieldOnReturn, mlfqsList
      modifies allList`status, current`priority
      ensures Abs() == Step(old(Abs()), SetPriority(newPriority)) && Valid()
    {
      hide Core, OnlyCurrentRuns, Invariant, Step, Effect, ReadyPreempts, Yielded;
      ghost var s, e := Abs(), SetPriority(newPriority);
      InvariantFacts(s);
      SetPriorityField(current, newPriority);
      SetPriorityFacts(s, newPriority);
      hide Abs;
      CheckReadyList(false);
      PreemptingStep(s, e);
    }

    /** list_insert_ordered with wakeup_less. */
    method InsertByDeadline(list: seq<Thread>, t: Thread) returns (r: seq<Thread>)
      requires Synced() && t in allList && forall u :: u in list ==> u in allList
      ensures r == Insert(list, Urgency(wakeup), t)
    {
      var i := 0;
      UrgencyIsNegated(wakeup, t);
      assert Recorded(t);
      while i < |list| && list[i].wakeupTick <= t.wakeupTick
        invariant 0 <= i <= |list|
        invariant forall j :: 0 <= j < i ==> Key(Urgency(wakeup), t) <= Key(Urgency(wakeup), list[j])
      {
        assert Recorded(list[i]);
        UrgencyIsNegated(wakeup, list[i]);
        i := i + 1;
      }
      if i < |list| {
        assert Recorded(list[i]);
        UrgencyIsNegated(wakeup, list[i]);
      }
      InsertAt(list, Urgency(wakeup), t, i);
      r := list[..i] + [t] + list[i..];
    }

    method SetDeadline(t: Thread, deadline: int)
      requires Synced() && t in allList
      modifies `wakeup, t`wakeupTick
      ensures wakeup == old(wakeup)[t := deadline] && Synced()
    {
      assert Recorded(t);
      t.wakeupTick, wakeup := deadline, wakeup[t := deadline];
      assert forall u :: u in allList && u != t ==> old(Recorded(u));
    }

    /** Set the deadline of the current thread and put it in the sleep list. */
    method EnterSleepList(deadline: int)
      requires Synced() && current in allList && forall t :: t in sleepList ==> t in allList
      modifies `sleepList, `wakeup, current`wakeupTick
      ensures Abs() == FallAsleep(old(Abs()), deadline) && Synced()
    {
      hide Insert, Urgency, FallAsleep, Recorded;
      FallAsleepFields(Abs(), deadline);
      SetDeadline(current, deadline);
      sleepList := InsertByDeadline(sleepList, current);
    }

    /** timer_sleep, from the moment interrupts are off; `start` was read before that. */
    method TimerSleep(start: int, n: int)
      requires Valid() && current != idle && start <= ticks
      modifies `readyList, `sleepList, `current, `threadTicks, `status, `wakeup, mlfqsList
      modifies allList`status, current`wakeupTick
      ensures Abs() == Step(old(Abs()), Sleep(start, n)) && Valid()
    {
      hide Core, OnlyCurrentRuns, Invariant, Step, Scheduler.Schedule, NextThread, Insert, Urgency, FallAsleep;
      ghost var s := Abs();
      SleepFacts(s, start, n);
      if n <= 0 {
        return;
      }
      EnterSleepList(start + n);
      hide Abs, SetStatus;
      SetThreadStatus(current, Blocked);
      Schedule();
    }

    // ----- the timer interrupt -----

    method SetRecentCpu(t: Thread, cpu: int)
      requires Synced() && t in allList
      modifies `recentCpu, t`recentCpu
      ensures recentCpu == old(recentCpu)[t := cpu] && Synced()
    {
      assert Recorded(t);
      t.recentCpu, recentCpu := cpu, recentCpu[t := cpu];
      assert forall u :: u in allList && u != t ==> old(Recorded(u));
    }

    /** thread_tick: charge the running thread and count down its slice. */
    method ThreadTickHandler()
      requires Synced() && current in allList
      modifies `threadTicks, `recentCpu, `yieldOnReturn, current`recentCpu
      ensures Abs() == ThreadTick(old(Abs())) && Synced()
      ensures yieldOnReturn == (old(yieldOnReturn) || threadTicks >= TIME_SLICE)
    {
      hide FixedPoint.FpAddInt, Key;
      assert Recorded(current);
      if mlfqs && current != idle {
        SetRecentCpu(current, FixedPoint.FpAddInt(current.recentCpu, 1));
      }
      threadTicks := threadTicks + 1;
      if threadTicks >= TIME_SLICE {
        yieldOnReturn := true;
      }
    }

    /** timer_wakeup. */
    method TimerWakeup()
      requires Stable()
      modifies `readyList, `sleepList, `priority, `status, mlfqsList, allList`status, allList`priority
      ensures Abs() == WakeHeads(old(Abs())) && Stable()
    {
      hide Core, OnlyCurrentRuns, WakeHeads, Unblock;
      ghost var s := Abs();
      ghost var roster := allList;
      while sleepList != [] && sleepList[0].wakeupTick <= ticks
        invariant Stable() && allList == roster
        invariant WakeHeads(Abs()) == WakeHeads(s)
        decreases |sleepList|
      {
        ghost var s1 := Abs();
        PopFacts(s1);
        assert Recorded(sleepList[0]);
        var t := sleepList[0];
        sleepList := sleepList[1..];
        UnblockIgnoresSleepers(Abs(), [], t);
        ThreadUnblock(t);
      }
      if sleepList != [] {
        SleepersOfCore(Abs());
        assert Recorded(sleepList[0]);
      }
      WakeStops(Abs());
    }

    /** mlfqs_update_priority over thread_foreach. */
    method ForeachUpdatePriority()
      requires Synced() && Distinct(allList)
      modifies allList`priority
      ensures forall j :: 0 <= j < |allList| ==> allList[j].priority == Key(NewPriorities(Abs()), allList[j])
    {
      hide PriorityFor, NewPriorities, Key;
      assert forall j :: 0 <= j < |allList| ==> Recorded(allList[j]);
      var i := 0;
      while i < |allList|
        invariant 0 <= i <= |allList|
        invariant forall j :: 0 <= j < i ==> allList[j].priority == Key(NewPriorities(Abs()), allList[j])
        invariant forall j :: i <= j < |allList| ==> allList[j].priority == Key(priority, allList[j])
        modifies allList`priority
      {
        var t := allList[i];
        assert old(Recorded(t));
        if t != idle {
          t.priority := PriorityFor(t.recentCpu, t.nice);
        }
        NewPrioritiesOf(Abs(), t);
        i := i + 1;
      }
    }

    method RecomputePriorities()
      requires Synced() && Distinct(allList)
      modifies `priority, allList`priority
      ensures Abs() == old(Abs()).(priority := NewPriorities(old(Abs()))) && Synced()
    {
      hide NewPriorities, Key;
      ghost var s := Abs();
      ForeachUpdatePriority();
      assert Abs() == s;
      priority := NewPriorities(s);
      forall u | u in allList
        ensures Recorded(u)
      {
        assert old(Recorded(u));
        var j :| 0 <= j < |allList| && allList[j] == u;
      }
    }

    method MlfqsUpdatePriorityAll()
      requires Synced() && Distinct(allList)
      requires forall t :: t in Flat(mlfqsList[..]) ==> t in allList && t != idle
      modifies `priority, mlfqsList, allList`priority
      ensures Abs() == Repriced(old(Abs())) && Synced()
    {
      hide PriorityFor, Rebucket;
      ghost var s := Abs();
      RecomputePriorities();
      forall t | t in Flat(mlfqsList[..])
        ensures PRI_MIN <= t.priority <= PRI_MAX && t in allList
      {
        assert t in Flat(s.buckets) && Recorded(t);
        assert Key(NewPriorities(s), t) == PriorityFor(Key(s.recentCpu, t), Key(s.nice, t));
      }
      MlfqsReorganizeQueues();
    }

    /** mlfqs_update_recent_cpu over thread_foreach: not idempotent, so it matters that
        nobody is enrolled twice. */
    method ForeachUpdateRecentCpu()
      requires Synced() && Distinct(allList)
      modifies allList`recentCpu
      ensures forall j :: 0 <= j < |allList| ==> allList[j].recentCpu == Key(DecayedCpus(Abs()), allList[j])
    {
      hide RecentCpuAfter, DecayedCpus, Key;
      assert forall j :: 0 <= j < |allList| ==> Recorded(allList[j]);
      var i := 0;
      while i < |allList|
        invariant 0 <= i <= |allList|
        invariant forall j :: 0 <= j < i ==> allList[j].recentCpu == Key(DecayedCpus(Abs()), allList[j])
        invariant forall j :: i <= j < |allList| ==> allList[j].recentCpu == Key(recentCpu, allList[j])
        modifies allList`recentCpu
      {
        var t := allList[i];
        assert old(Recorded(t));
        if t != idle {
          t.recentCpu := RecentCpuAfter(loadAvg, t.recentCpu, t.nice);
        }
        DecayedCpusOf(Abs(), t);
        i := i + 1;
      }
    }

    method DecayRecentCpus()
      requires Synced() && Distinct(allList)
      modifies `recentCpu, allList`recentCpu
      ensures Abs() == old(Abs()).(recentCpu := DecayedCpus(old(Abs()))) && Synced()
    {
      hide DecayedCpus, Key;
      ghost var s := Abs();
      ForeachUpdateRecentCpu();
      assert Abs() == s;
      recentCpu := DecayedCpus(s);
      forall u | u in allList
        ensures Recorded(u)
      {
        assert old(Recorded(u));
        var j :| 0 <= j < |allList| && allList[j] == u;
      }
    }

    /** mlfqs_update_rcpu_la: decay every recent_cpu by the old average, then update it. */
    method MlfqsUpdateRcpuLa()
      requires Synced() && Distinct(allList)
      modifies `recentCpu, `loadAvg, allList`recentCpu
      ensures Abs() == Decayed(old(Abs())) && Synced()
    {
      hide DecayedCpus, LoadAvgAfter;
      ghost var s := Abs();
      DecayRecentCpus();
      var ready := MlfqsReadyThreads();
      assert ready == ReadyThreads(s);
      hide ReadyThreads;
      loadAvg := LoadAvgAfter(loadAvg, ready);
    }

    /** Every fourth tick: new priorities, new buckets, and a preemption check. */
    method EveryFourthTick()
      requires Stable()
      modifies `readyList, `current, `threadTicks, `status, `priority, `yieldOnReturn
      modifies mlfqsList, allList`status, allList`priority
      ensures Abs() == Reprioritise(old(Abs())) && Stable()
      ensures yieldOnReturn == (old(yieldOnReturn) || (FourthTick(Abs()) && BucketPreempts(Abs())))
    {
      hide Core, OnlyCurrentRuns, Reprioritise, Repriced, BucketPreempts;
      ghost var s := Abs();
      FourthTickFacts(s);
      if mlfqs && ticks % PRIORITY_PERIOD == 0 {
        MlfqsUpdatePriorityAll();
        MlfqsCheckPreemption(true);
      }
    }

    /** Every second: recent_cpu and load_avg. */
    method EverySecond()
      requires Stable()
      modifies `recentCpu, `loadAvg, allList`recentCpu
      ensures Abs() == DecayEverySecond(old(Abs())) && Stable()
    {
      hide Core, OnlyCurrentRuns, DecayEverySecond, Decayed;
      SecondFacts(Abs());
      if mlfqs && ticks % TIMER_FREQ == 0 {
        MlfqsUpdateRcpuLa();
      }
    }

    /** Entering the handler: no yield requested yet, one more tick. */
    method ResetYield()
      requires Synced()
      modifies `yieldOnReturn, `ticks
      ensures Abs() == old(Abs()).(ticks := old(ticks) + 1) && Synced() && !yieldOnReturn
    {
      yieldOnReturn := false;
      ticks := ticks + 1;
    }

    /** timer_interrupt. */
    method TimerHandler()
      requires Valid()
      modifies `readyList, `sleepList, `current, `loadAvg, `ticks, `threadTicks, `yieldOnReturn
      modifies `status, `priority, `recentCpu, mlfqsList, allList`status, allList`priority, allList`recentCpu
      ensures var s1 := ThreadTick(old(Abs()).(ticks := old(ticks) + 1));
              var s3 := Reprioritise(WakeHeads(s1));
              && Abs() == DecayEverySecond(s3) && Stable()
              && yieldOnReturn == (WakeHeads(s1).threadTicks >= TIME_SLICE || (FourthTick(s3) && BucketPreempts(s3)))
    {
      hide Core, OnlyCurrentRuns, ThreadTick, WakeHeads, Reprioritise, DecayEverySecond, BucketPreempts, FourthTick;
      hide Abs, Synced, Invariant, Step, Yielded;
      TickFacts(Abs());
      ResetYield();
      ThreadTickHandler();
      ghost var s1 := Abs();
      SliceSurvivesWaking(s1);
      TimerWakeup();
      EveryFourthTick();
      EverySecond();
    }

    /** The whole interrupt: the handler, and the yield that intr_handler performs on return
        if it was asked to. */
    method TimerInterrupt()
      requires Valid()
      modifies this, mlfqsList, allList`status, allList`priority, allList`recentCpu
      ensures Abs() == Step(old(Abs()), Tick) && Valid()
    {
      hide Core, OnlyCurrentRuns, Invariant, Step, Effect, Interrupt, CountAndWake, ThreadTick;
      hide WakeHeads, Reprioritise, DecayEverySecond, Yielded, BucketPreempts, FourthTick, Abs;
      TickFacts(Abs());
      TimerHandler();
      if yieldOnReturn {
        ThreadYield();
      }
    }
  }
}
