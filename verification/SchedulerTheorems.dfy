/** What the scheduler promises over every run: who is dispatched, how soon, and that
    the MLFQS arithmetic stays within bounds. */
module SchedulerTheorems {
  import opened Objects
  import opened OrderedList
  import opened Buckets
  import opened MlfqsMath
  import opened Scheduler
  import opened SchedulerInvariant
  import opened Options
  import FixedPoint

  const PRI_DEFAULT := 31

  // ----- reachable states -----

  /** The machine when thread_start returns, or under MLFQS is about to find that the idle
      thread has introduced itself.  The lock_release in allocate_tid has left main at its
      base priority in both modes.  Under MLFQS idle starts at the highest priority and runs
      until it blocks; otherwise its sema_up yields to main, and idle stays ready, unqueued. */
  function Boot(mlfqs: bool, main: Thread, idle: Thread): State {
    State(mlfqs, false,
          map[main := Running, idle := if mlfqs then Blocked else Ready],
          map[main := PRI_DEFAULT, idle := if mlfqs then PriorityFor(0, 0) else PRI_MIN],
          map[main := PRI_DEFAULT, idle := PRI_MIN],
          map[main := 0, idle := 0], map[main := 0, idle := 0], map[main := 0, idle := 0],
          [main, idle], [], seq(BUCKETS, _ => []), [], main, idle, 0, 0, 0)
  }

  lemma BootIsFine(mlfqs: bool, main: Thread, idle: Thread)
    requires main != idle
    ensures Invariant(Boot(mlfqs, main, idle))
  {
    var s := Boot(mlfqs, main, idle);
    BootQueues(s, main, idle);
    hide Counted, Ordered;
    assert PRI_MIN <= PriorityFor(0, 0) <= PRI_MAX;
    hide PriorityFor;
    assert Shape(s) && InRange(s);
  }

  lemma BootQueues(s: State, main: Thread, idle: Thread)
    requires s.buckets == seq(BUCKETS, _ => []) && s.ready == [] && s.sleepers == []
    requires s.all == [main, idle] && main != idle && s.idle == idle
    requires StatusOf(s, main) == Running && StatusOf(s, idle) != Running
    ensures Counted(s) && Ordered(s)
  {
    AllEmpty(s.buckets);
    assert Queue(s) == [];
  }

  lemma ReachableStatesKeepInvariant(mlfqs: bool, main: Thread, idle: Thread, es: seq<Event>)
    requires main != idle && CanRun(Boot(mlfqs, main, idle), es)
    ensures Invariant(Run(Boot(mlfqs, main, idle), es))
  {
    BootIsFine(mlfqs, main, idle);
    RunKeepsInvariant(Boot(mlfqs, main, idle), es);
  }

  // ----- the count behind load_avg -----

  /** How many threads other than idle are ready or running. */
  ghost function Crowd(s: State): nat {
    |set t | t in s.all && t != s.idle && (StatusOf(s, t) == Ready || StatusOf(s, t) == Running)|
  }

  /** mlfqs_ready_threads counts exactly the threads other than idle that are ready or
      running. */
  lemma ReadyThreadsIsTheCrowd(s: State)
    requires Invariant(s) && s.mlfqs
    ensures ReadyThreads(s) == Crowd(s)
  {
    hide Invariant, Queue, StatusOf, ReadyThreads;
    var queued := set t | t in Queue(s);
    var crowd := set t | t in s.all && t != s.idle && (StatusOf(s, t) == Ready || StatusOf(s, t) == Running);
    QueuedCrowd(s);
    if s.cur == s.idle {
      assert crowd == queued;
    } else {
      assert crowd == queued + {s.cur};
    }
    ReadyThreadsIs(s);
  }

  /** The crowd is the queued threads and the running one. */
  lemma QueuedCrowd(s: State)
    requires Invariant(s)
    ensures (set t | t in Queue(s))
            == (set t | t in s.all && t != s.idle && (StatusOf(s, t) == Ready || StatusOf(s, t) == Running)) - {s.cur}
    ensures |set t | t in Queue(s)| == |Queue(s)| && s.cur in s.all && StatusOf(s, s.cur) == Running
  {
    CurrentRuns(s);
    forall t
      ensures t in Queue(s) ==> multiset(Queue(s))[t] == 1
      ensures t in Queue(s)
              <==> t in s.all && t != s.idle && t != s.cur && (StatusOf(s, t) == Ready || StatusOf(s, t) == Running)
    {
      CrowdMember(s, t);
    }
    hide Invariant, StatusOf, Core, OnlyCurrentRuns;
    SizeOfDistinct(Queue(s));
  }

  lemma CurrentRuns(s: State)
    requires Invariant(s)
    ensures s.cur in s.all && StatusOf(s, s.cur) == Running
  {}

  lemma ReadyThreadsIs(s: State)
    requires s.mlfqs
    ensures ReadyThreads(s) == |Queue(s)| + if s.cur == s.idle then 0 else 1
  {}

  lemma CrowdMember(s: State, t: Thread)
    requires Invariant(s)
    ensures t in Queue(s) ==> multiset(Queue(s))[t] == 1
    ensures t in Queue(s)
            <==> t in s.all && t != s.idle && t != s.cur && (StatusOf(s, t) == Ready || StatusOf(s, t) == Running)
  {
    if t in Queue(s) {
      QueuedThread(s, t);
    }
    if t in s.all {
      assert multiset(Queue(s))[t] == if t != s.idle && StatusOf(s, t) == Ready then 1 else 0;
    }
  }

  lemma {:induction false} SizeOfDistinct(q: seq<Thread>)
    requires forall t :: t in q ==> multiset(q)[t] == 1
    ensures |set t | t in q| == |q|
  {
    if q != [] {
      var rest := q[1..];
      assert q == [q[0]] + rest;
      assert multiset(q) == multiset{q[0]} + multiset(rest);
      forall t | t in rest
        ensures multiset(rest)[t] == 1 && t != q[0]
      {
        assert t in q && multiset(rest)[t] > 0;
      }
      SizeOfDistinct(rest);
      assert (set t | t in q) == {q[0]} + (set t | t in rest);
    }
  }

  // ----- who is dispatched -----

  /** The running thread is the idle thread or outranks everybody who is queued. */
  ghost predicate HighestRuns(s: State) {
    s.cur == s.idle || forall t :: t in Queue(s) ==> Key(s.priority, t) <= Key(s.priority, s.cur)
  }

  lemma NextIsHighest(s: State)
    requires Shape(s) && Ordered(s) && !s.scan
    ensures Queue(s) != [] ==> NextThread(s) in Queue(s)
    ensures forall t :: t in Queue(s) ==> Key(s.priority, t) <= Key(s.priority, NextThread(s))
  {
    if s.mlfqs {
      var p := Top(s.buckets);
      EmptyTop(s.buckets);
      if p >= 0 {
        assert s.buckets[p][0] in s.buckets[p];
        MemberOfFlat(s.buckets, s.buckets[p][0]);
      }
      forall t | t in Queue(s)
        ensures Key(s.priority, t) <= Key(s.priority, NextThread(s))
      {
        InPlaceMember(s.buckets, s.priority, t);
      }
    } else if s.ready != [] {
      HeadIsGreatest(s.ready, s.priority);
    }
  }

  /** Every dispatch takes a queued thread of maximum priority, or the idle thread when
      nobody is queued. */
  lemma DispatchTakesHighest(s: State)
    requires Core(s) && !s.scan
    ensures HighestRuns(Schedule(s))
    ensures Schedule(s).cur == s.idle <==> Queue(s) == []
  {
    NextIsHighest(s);
    DequeueCounts(s);
    DequeueFrame(s);
    var s1 := Schedule(s);
    assert Queue(s1) == Queue(Dequeue(s));
    forall t | t in Queue(s1)
      ensures t in Queue(s)
    {
      assert t in multiset(Queue(s1));
      assert t in multiset(Queue(s));
    }
    if Queue(s) != [] {
      QueuedThread(s, NextThread(s));
    }
  }

  lemma StepDispatchesHighest(s: State, e: Event)
    requires Invariant(s) && !s.scan && Enabled(s, e) && Dispatches(s, e)
    ensures HighestRuns(Step(s, e))
  {
    hide WantsYield, Effect, Leave, Schedule, Core, OnlyCurrentRuns, HighestRuns;
    SleepWantsNoYield(s, e);
    LeaveKeepsCore(s, e);
    LeaveFrame(s, e);
    DispatchTakesHighest(Leave(s, e));
  }

  /** In priority mode nobody of higher priority is kept waiting by a
      priority change, a preemption check, a yield, a block, an exit or a sleep. */
  lemma PriorityModeIsStrict(s: State, e: Event)
    requires Invariant(s) && !s.scan && !s.mlfqs && Enabled(s, e)
    requires e.SetPriority? || e.Refresh? || e.CheckPreemption? || Dispatches(s, e)
    ensures HighestRuns(Step(s, e))
  {
    if Dispatches(s, e) {
      StepDispatchesHighest(s, e);
    } else {
      EffectKeepsCore(s, e);
      NoPreemptionMeansHighest(s, e);
    }
  }

  lemma NoPreemptionMeansHighest(s: State, e: Event)
    requires !s.scan && !s.mlfqs && Core(Effect(s, e))
    requires (e.SetPriority? || e.Refresh? || e.CheckPreemption?) && !WantsYield(s, e)
    ensures HighestRuns(Effect(s, e))
  {
    EffectFrame(s, e);
    var s1 := Effect(s, e);
    assert !ReadyPreempts(s1);
    hide Effect;
    if s1.ready != [] {
      HeadIsGreatest(s1.ready, s1.priority);
    }
  }

  /** After every fourth timer interrupt, its yield included, no queued thread outranks
      the running one, whatever the recomputed priorities are. */
  lemma FourthTickRestoresOrder(s: State)
    requires Invariant(s) && !s.scan && s.mlfqs && (s.ticks + 1) % PRIORITY_PERIOD == 0
    ensures HighestRuns(Step(s, Tick))
    ensures InPlace(Step(s, Tick).buckets, Step(s, Tick).priority)
  {
    StepKeepsInvariant(s, Tick);
    StepModes(s);
    hide Step, Dispatches, Interrupt, Core, OnlyCurrentRuns, HighestRuns, YieldOnReturn;
    if Dispatches(s, Tick) {
      StepDispatchesHighest(s, Tick);
    } else {
      QuietFourthTick(s);
    }
  }

  lemma StepModes(s: State)
    requires Invariant(s)
    ensures Core(s) && OnlyCurrentRuns(s)
    ensures !Dispatches(s, Tick) ==> Step(s, Tick) == Interrupt(s) && !YieldOnReturn(s)
    ensures Invariant(Step(s, Tick)) ==> InPlace(Step(s, Tick).buckets, Step(s, Tick).priority)
  {
    hide Interrupt, YieldOnReturn;
  }

  lemma QuietFourthTick(s: State)
    requires Core(s) && OnlyCurrentRuns(s) && !s.scan && s.mlfqs
    requires (s.ticks + 1) % PRIORITY_PERIOD == 0 && !YieldOnReturn(s)
    ensures HighestRuns(Interrupt(s))
  {
    var s2 := Reprioritise(CountAndWake(s));
    CountAndWakeFrame(s);
    assert FourthTick(s2) && !BucketPreempts(s2);
    assert Interrupt(s) == DecayEverySecond(s2);
    hide CountAndWake, Reprioritise, Interrupt, YieldOnReturn, Core, OnlyCurrentRuns;
    CountAndWakeKeepsCore(s);
    ReprioritiseKeepsCore(CountAndWake(s));
    CalmBuckets(s2);
  }

  lemma CalmBuckets(s: State)
    requires Core(s) && s.mlfqs && !BucketPreempts(s)
    ensures HighestRuns(DecayEverySecond(s))
  {
    forall t | t in Flat(s.buckets)
      ensures Key(s.priority, t) <= Key(s.priority, s.cur)
    {
      InPlaceMember(s.buckets, s.priority, t);
    }
  }

  lemma CountAndWakeFrame(s: State)
    requires !s.scan
    ensures CountAndWake(s).ticks == s.ticks + 1 && CountAndWake(s).mlfqs == s.mlfqs
    ensures CountAndWake(s).cur == s.cur && CountAndWake(s).idle == s.idle
  {
    var s1 := ThreadTick(s.(ticks := s.ticks + 1));
    WakeHeadsFrame(s1);
    WakeHeadsTicks(s1);
    assert CountAndWake(s) == WakeHeads(s1);
  }

  lemma {:induction false} WakeHeadsTicks(s: State)
    ensures WakeHeads(s).ticks == s.ticks && WakeHeads(s).wakeup == s.wakeup && WakeHeads(s).all == s.all
    ensures WakeHeads(s).recentCpu == s.recentCpu && WakeHeads(s).nice == s.nice && WakeHeads(s).loadAvg == s.loadAvg
    decreases |s.sleepers|
  {
    if s.sleepers != [] && Key(s.wakeup, s.sleepers[0]) <= s.ticks {
      WakeHeadsTicks(Unblock(s.(sleepers := s.sleepers[1..]), s.sleepers[0]));
    }
  }

  // ----- how soon -----

  function TicksIn(es: seq<Event>): nat {
    if es == [] then 0 else (if es[0].Tick? then 1 else 0) + TicksIn(es[1..])
  }

  /** An undisturbed running thread accumulates its ticks. */
  lemma QuietStep(s: State, e: Event)
    requires !s.scan && !Dispatches(s, e)
    ensures Step(s, e).threadTicks == s.threadTicks + if e.Tick? then 1 else 0
    ensures e.Tick? ==> s.threadTicks + 1 < TIME_SLICE
  {
    hide Effect, Leave, WantsYield;
    EffectFrame(s, e);
    if e.Tick? {
      SliceNotOver(s, e);
    }
  }

  /** The k-th event of the run hands the processor out, and then the highest runs. */
  ghost predicate HandsOutAt(s: State, es: seq<Event>, k: nat) {
    k < |es| && Dispatches(Run(s, es[..k]), es[k]) && HighestRuns(Run(s, es[..k + 1]))
  }

  lemma HandsOutAtOnce(s: State, es: seq<Event>)
    requires Invariant(s) && !s.scan && es != [] && Enabled(s, es[0]) && Dispatches(s, es[0])
    ensures HandsOutAt(s, es, 0)
  {
    hide Dispatches, Step, Invariant, HighestRuns, Enabled;
    StepDispatchesHighest(s, es[0]);
    assert Run(s, es[..0]) == s;
    assert Run(s, es[..1]) == Run(Step(s, es[0]), es[..1][1..]) == Step(s, es[0]);
  }

  lemma HandsOutLater(s: State, es: seq<Event>, j: nat)
    requires es != [] && HandsOutAt(Step(s, es[0]), es[1..], j)
    ensures HandsOutAt(s, es, j + 1)
  {
    hide Dispatches, Step, HighestRuns;
    RunPrefix(s, es, j + 1);
    RunPrefix(s, es, j + 2);
  }

  /** Among any four timer interrupts the processor is handed out at least once, and then
      the highest priority runs: an inversion cannot outlast a time slice. */
  lemma {:induction false} DispatchWithinASlice(s: State, es: seq<Event>)
    requires Invariant(s) && !s.scan && CanRun(s, es)
    requires s.threadTicks + TicksIn(es) >= TIME_SLICE
    ensures exists k :: 0 <= k < |es| && HandsOutAt(s, es, k)
    decreases |es|
  {
    SliceBound(s);
    assert es != [];
    hide Dispatches, Step, Invariant, HighestRuns, HandsOutAt, Enabled;
    if Dispatches(s, es[0]) {
      HandsOutAtOnce(s, es);
    } else {
      QuietStep(s, es[0]);
      StepKeepsInvariant(s, es[0]);
      StepKeepsMode(s, es[0]);
      DispatchWithinASlice(Step(s, es[0]), es[1..]);
      var j :| 0 <= j < |es[1..]| && HandsOutAt(Step(s, es[0]), es[1..], j);
      HandsOutLater(s, es, j);
    }
  }

  lemma SliceBound(s: State)
    requires Invariant(s)
    ensures 0 <= s.threadTicks < TIME_SLICE
  {}

  lemma RunPrefix(s: State, es: seq<Event>, k: nat)
    requires 0 < k <= |es|
    ensures Run(s, es[..k]) == Run(Step(s, es[0]), es[1..][..k - 1])
  {
    assert es[..k][1..] == es[1..][..k - 1];
  }

  // ----- bounded arithmetic -----

  /** What the per-second decay maintains while at most `most` threads compete. */
  ghost predicate CpuBounded(s: State, most: nat) {
    && 0 <= s.loadAvg <= 16383 * most
    && forall t :: t in s.all && t != s.idle ==>
         CpuFloor(most) <= Key(s.recentCpu, t) <= CpuCeiling(most) + s.ticks % TIMER_FREQ * FixedPoint.F
  }

  /** At most `most` threads other than idle are ready or running, in every state. */
  ghost predicate Uncrowded(s: State, es: seq<Event>, most: nat)
    decreases |es|
  {
    ReadyThreads(s) <= most && (es == [] || Uncrowded(Step(s, es[0]), es[1..], most))
  }

  /** A yield moves one thread into the queue and one out of it. */
  lemma YieldKeepsCrowd(s: State)
    requires Core(s) && OnlyCurrentRuns(s) && s.mlfqs && !s.scan
    ensures ReadyThreads(Schedule(Requeue(s))) == ReadyThreads(s)
  {
    var s1 := Requeue(s);
    RequeueKeepsCore(s);
    RequeueCounts(s);
    DispatchTakesHighest(s1);
    DequeueCounts(s1);
    DequeueFrame(s1);
    assert Queue(Schedule(s1)) == Queue(Dequeue(s1));
    assert |multiset(Queue(s1))| == |Queue(s1)| && |multiset(Queue(s))| == |Queue(s)|;
    assert |multiset(Queue(Dequeue(s1)))| == |Queue(Dequeue(s1))|;
  }

  lemma RequeueCounts(s: State)
    requires Core(s) && OnlyCurrentRuns(s) && s.mlfqs
    ensures Requeue(s).mlfqs && Requeue(s).idle == s.idle
    ensures multiset(Queue(Requeue(s)))
            == multiset(Queue(s)) + if s.cur == s.idle then multiset{} else multiset{s.cur}
  {
    if s.cur != s.idle {
      EnqueueCounts(SetStatus(s, s.cur, Ready), s.cur);
      assert Queue(Requeue(s)) == Queue(MakeReady(s, s.cur));
    } else {
      assert Queue(Requeue(s)) == Queue(s);
    }
  }

  lemma InterruptCrowd(s: State)
    ensures ReadyThreads(Interrupt(s)) == ReadyThreads(Reprioritise(CountAndWake(s)))
  {
    hide CountAndWake, Reprioritise;
  }

  lemma TickKeepsCrowd(s: State)
    requires Core(s) && OnlyCurrentRuns(s) && s.mlfqs && !s.scan
    ensures ReadyThreads(Step(s, Tick)) == ReadyThreads(Reprioritise(CountAndWake(s)))
  {
    hide CountAndWake, Reprioritise, Interrupt, DecayEverySecond, ReadyThreads, WantsYield, Core, OnlyCurrentRuns;
    hide Schedule;
    hide Requeue;
    InterruptCrowd(s);
    InterruptKeepsCore(s);
    InterruptFrame(s);
    assert Effect(s, Tick) == Interrupt(s);
    if Dispatches(s, Tick) {
      LeaveCases(s, Tick);
      YieldKeepsCrowd(Interrupt(s));
    }
  }

  /** Only Enroll, Exit and Tick touch recent_cpu, load_avg, the clock or the roster. */
  lemma AccountingFrame(s: State, e: Event)
    requires !e.Tick?
    ensures Step(s, e).recentCpu == Effect(s, e).recentCpu && Step(s, e).loadAvg == s.loadAvg
    ensures Step(s, e).ticks == s.ticks && Step(s, e).all == Effect(s, e).all && Step(s, e).idle == s.idle
    ensures !e.Enroll? && !e.Exit? ==> Effect(s, e).recentCpu == s.recentCpu && Effect(s, e).all == s.all
  {
    hide Schedule, WantsYield, Leave, Effect;
    SleepWantsNoYield(s, e);
    EffectAccounting(s, e);
    if Dispatches(s, e) {
      LeaveAccounting(s, e);
      DequeueFrame(Leave(s, e));
    }
  }

  lemma EffectAccounting(s: State, e: Event)
    requires !e.Tick?
    ensures Effect(s, e).loadAvg == s.loadAvg && Effect(s, e).ticks == s.ticks && Effect(s, e).idle == s.idle
    ensures !e.Enroll? && !e.Exit? ==> Effect(s, e).recentCpu == s.recentCpu && Effect(s, e).all == s.all
  {
    hide Effect, PriorityFor, ClampNice, Insert, PushAt, Without, Urgency;
    EffectIs(s, e);
  }

  lemma LeaveAccounting(s: State, e: Event)
    requires !e.Tick? && (e.Sleep? ==> e.n > 0)
    ensures Leave(s, e).recentCpu == Effect(s, e).recentCpu && Leave(s, e).all == Effect(s, e).all
    ensures Leave(s, e).loadAvg == s.loadAvg && Leave(s, e).ticks == s.ticks && Leave(s, e).idle == s.idle
  {
    LeaveCases(s, e);
    hide Leave;
  }

  lemma CreationKeepsCpuBounded(s: State, e: Event, most: nat)
    requires CpuBounded(s, most) && Enabled(s, e) && e.Enroll? && s.cur in s.all
    ensures CpuBounded(Step(s, e), most)
  {
    AccountingFrame(s, e);
    var s1 := Effect(s, e);
    assert s1.all == s.all + [e.t];
    assert s1.recentCpu == s.recentCpu[e.t := if s.mlfqs then Key(s.recentCpu, s.cur) else 0];
    hide Step;
  }

  lemma ExitKeepsCpuBounded(s: State, most: nat)
    requires CpuBounded(s, most)
    ensures CpuBounded(Step(s, Exit), most)
  {
    AccountingFrame(s, Exit);
    var s1 := Effect(s, Exit);
    assert s1.recentCpu == s.recentCpu - {s.cur} && s1.all == Without(s.all, s.cur);
    hide Step;
    forall t | t in s1.all
      ensures t in s.all && t != s.cur
    {
      WithoutMembers(s.all, s.cur, t);
    }
  }

  lemma CountAndWakeAccounting(s: State)
    requires !s.scan
    ensures CountAndWake(s).nice == s.nice && CountAndWake(s).all == s.all && CountAndWake(s).loadAvg == s.loadAvg
    ensures CountAndWake(s).recentCpu
            == if s.mlfqs && s.cur != s.idle
               then s.recentCpu[s.cur := Key(s.recentCpu, s.cur) + FixedPoint.F]
               else s.recentCpu
  {
    var s1 := ThreadTick(s.(ticks := s.ticks + 1));
    WakeHeadsTicks(s1);
    assert CountAndWake(s) == WakeHeads(s1);
  }

  lemma TickAccounting(s: State)
    ensures Step(s, Tick).recentCpu == Interrupt(s).recentCpu && Step(s, Tick).loadAvg == Interrupt(s).loadAvg
    ensures Step(s, Tick).ticks == Interrupt(s).ticks && Step(s, Tick).all == Interrupt(s).all
    ensures Step(s, Tick).idle == Interrupt(s).idle
  {
    hide Schedule, WantsYield, Interrupt;
    assert Effect(s, Tick) == Interrupt(s);
    if Dispatches(s, Tick) {
      LeaveCases(s, Tick);
      DequeueFrame(Leave(s, Tick));
    }
  }

  /** recent_cpu after the tick has been charged and before it decays. */
  ghost predicate ChargedWithin(s: State, most: nat) {
    && s.mlfqs && s.ticks >= 1 && 0 <= s.loadAvg <= 16383 * most && ReadyThreads(s) <= most
    && forall t :: t in s.all && t != s.idle ==>
         && NICE_MIN <= Key(s.nice, t) <= NICE_MAX
         && CpuFloor(most) <= Key(s.recentCpu, t)
                           <= CpuCeiling(most) + ((s.ticks - 1) % TIMER_FREQ + 1) * FixedPoint.F
  }

  lemma DecayKeepsBounds(s: State, most: nat)
    requires ChargedWithin(s, most)
    ensures CpuBounded(DecayEverySecond(s), most)
  {
    var s1 := DecayEverySecond(s);
    if FullSecond(s) {
      LoadAvgStepBound(s.loadAvg, ReadyThreads(s), most);
      forall t | t in s.all && t != s.idle
        ensures CpuFloor(most) <= Key(s1.recentCpu, t) <= CpuCeiling(most)
      {
        assert Key(s1.recentCpu, t) == RecentCpuAfter(s.loadAvg, Key(s.recentCpu, t), Key(s.nice, t));
        hide RecentCpuAfter;
        DecayKeepsCpuBounded(s.loadAvg, Key(s.recentCpu, t), Key(s.nice, t), most);
      }
    } else {
      assert s.ticks % TIMER_FREQ == (s.ticks - 1) % TIMER_FREQ + 1;
    }
  }

  lemma ChargeFrame(s: State)
    requires Core(s) && s.mlfqs && !s.scan
    ensures var (s0, s1) := (CountAndWake(s), Reprioritise(CountAndWake(s)));
            && s1.recentCpu == s0.recentCpu && s1.nice == s.nice && s1.all == s.all && s1.loadAvg == s.loadAvg
            && s1.ticks == s.ticks + 1 >= 1 && s1.mlfqs && s1.idle == s.idle
    ensures forall t :: t in s.all ==> NICE_MIN <= Key(s.nice, t) <= NICE_MAX
  {
    CountAndWakeFrame(s);
    CountAndWakeAccounting(s);
    hide CountAndWake;
  }

  lemma ChargeStaysWithin(s: State, most: nat)
    requires Core(s) && OnlyCurrentRuns(s) && s.mlfqs && !s.scan && CpuBounded(s, most)
    requires ReadyThreads(Step(s, Tick)) <= most
    ensures ChargedWithin(Reprioritise(CountAndWake(s)), most)
  {
    hide CountAndWake, Reprioritise, Step, ReadyThreads, Core, OnlyCurrentRuns;
    TickKeepsCrowd(s);
    ChargeFrame(s);
    CountAndWakeAccounting(s);
    var s0 := CountAndWake(s);
    forall t | t in s.all && t != s.idle
      ensures CpuFloor(most) <= Key(s0.recentCpu, t) <= CpuCeiling(most) + (s.ticks % TIMER_FREQ + 1) * FixedPoint.F
    {
      assert Key(s.recentCpu, t) <= Key(s0.recentCpu, t) <= Key(s.recentCpu, t) + FixedPoint.F;
    }
  }

  lemma TickKeepsCpuBounded(s: State, most: nat)
    requires Core(s) && OnlyCurrentRuns(s) && s.mlfqs && !s.scan && CpuBounded(s, most)
    requires ReadyThreads(Step(s, Tick)) <= most
    ensures CpuBounded(Step(s, Tick), most)
  {
    var s1 := Reprioritise(CountAndWake(s));
    assert Interrupt(s) == DecayEverySecond(s1);
    TickAccounting(s);
    hide CountAndWake, Reprioritise, Step, Core, Interrupt, DecayEverySecond;
    ChargeStaysWithin(s, most);
    DecayKeepsBounds(s1, most);
  }

  lemma StepKeepsCpuBounded(s: State, e: Event, most: nat)
    requires Invariant(s) && s.mlfqs && !s.scan && Enabled(s, e) && CpuBounded(s, most)
    requires ReadyThreads(Step(s, e)) <= most
    ensures CpuBounded(Step(s, e), most)
  {
    hide Step, Effect, Core;
    match e
    case Tick => TickKeepsCpuBounded(s, most);
    case Enroll(_, _) => CreationKeepsCpuBounded(s, e, most);
    case Exit => ExitKeepsCpuBounded(s, most);
    case _ => AccountingFrame(s, e);
  }

  /** With at most `most` competitors load_avg and every recent_cpu stay within bounds
      that depend on `most` alone, through ticks, decay and inheritance, for ever. */
  lemma {:induction false} RunKeepsCpuBounded(s: State, es: seq<Event>, most: nat)
    requires Invariant(s) && s.mlfqs && !s.scan && CanRun(s, es)
    requires CpuBounded(s, most) && Uncrowded(s, es, most)
    ensures CpuBounded(Run(s, es), most)
    decreases |es|
  {
    if es != [] {
      hide Step, Invariant, CpuBounded;
      var next := Step(s, es[0]);
      assert ReadyThreads(next) <= most by {
        assert Uncrowded(next, es[1..], most);
      }
      StepKeepsCpuBounded(s, es[0], most);
      StepKeepsInvariant(s, es[0]);
      StepKeepsMode(s, es[0]);
      RunKeepsCpuBounded(next, es[1..], most);
    }
  }

  /** Every MLFQS computation about t, now or in the next tick, fits C's types.  The tick
      updates load_avg with the ready count that its wake-ups leave. */
  ghost predicate ArithmeticFits(s: State, t: Thread) {
    var cpu, nice := Key(s.recentCpu, t), Key(s.nice, t);
    var charged := FixedPoint.FpAddInt(cpu, 1);
    && FixedPoint.FpAddInt32(cpu, 1) == Some(charged)
    && RecentCpuAfter32(s.loadAvg, cpu, nice) == Some(RecentCpuAfter(s.loadAvg, cpu, nice))
    && RecentCpuAfter32(s.loadAvg, charged, nice) == Some(RecentCpuAfter(s.loadAvg, charged, nice))
    && PriorityFor32(cpu, nice) == Some(PriorityFor(cpu, nice))
    && PriorityFor32(charged, nice) == Some(PriorityFor(charged, nice))
    && LoadAvgFits(s.loadAvg, ReadyThreads(s))
    && (ReadyThreads(Step(s, Tick)) <= MOST_WITHOUT_OVERFLOW ==> LoadAvgFits(s.loadAvg, ReadyThreads(Step(s, Tick))))
  }

  ghost predicate LoadAvgFits(load: int, ready: nat) {
    LoadAvgAfter32(load, ready) == Some(LoadAvgAfter(load, ready))
  }

  lemma LoadAvgAlwaysFits(load: int, ready: nat, most: nat)
    requires 0 <= load <= 16383 * most && ready <= MOST_WITHOUT_OVERFLOW && most <= MOST_WITHOUT_OVERFLOW
    ensures LoadAvgFits(load, ready)
  {
    NoOverflow(load, 0, 0, ready, MOST_WITHOUT_OVERFLOW);
  }

  lemma BoundsOf(s: State, most: nat, t: Thread)
    requires InRange(s) && CpuBounded(s, most) && t in s.all && t != s.idle
    ensures CpuFloor(most) <= Key(s.recentCpu, t) <= CpuCeiling(most) + (TIMER_FREQ - 1) * FixedPoint.F
    ensures NICE_MIN <= Key(s.nice, t) <= NICE_MAX && 0 <= s.loadAvg <= 16383 * most
  {
    hide CpuFloor, CpuCeiling;
  }

  lemma BoundedMeansFits(s: State, most: nat, t: Thread)
    requires InRange(s) && CpuBounded(s, most) && ReadyThreads(s) <= most <= MOST_WITHOUT_OVERFLOW
    requires t in s.all && t != s.idle
    ensures ArithmeticFits(s, t)
  {
    hide PriorityFor, PriorityFor32, RecentCpuAfter, RecentCpuAfter32, LoadAvgAfter, LoadAvgAfter32;
    hide CpuFloor, CpuCeiling, ReadyThreads, FixedPoint.FpAddInt32, CpuBounded, InRange, Step, Key;
    var cpu, nice, ready := Key(s.recentCpu, t), Key(s.nice, t), ReadyThreads(s);
    BoundsOf(s, most, t);
    NoOverflow(s.loadAvg, cpu, nice, ready, most);
    NoOverflow(s.loadAvg, cpu + FixedPoint.F, nice, ready, most);
    if ReadyThreads(Step(s, Tick)) <= MOST_WITHOUT_OVERFLOW {
      LoadAvgAlwaysFits(s.loadAvg, ReadyThreads(Step(s, Tick)), most);
    }
  }

  /** From boot, with at most 545 competitors, no MLFQS update of any thread ever leaves
      the range of a C int: the kernel computes exactly the unbounded functions. */
  lemma NoRunOverflows(main: Thread, idle: Thread, es: seq<Event>, most: nat, t: Thread)
    requires main != idle && most <= MOST_WITHOUT_OVERFLOW
    requires CanRun(Boot(true, main, idle), es) && Uncrowded(Boot(true, main, idle), es, most)
    requires t in Run(Boot(true, main, idle), es).all && t != idle
    ensures ArithmeticFits(Run(Boot(true, main, idle), es), t)
  {
    var s0 := Boot(true, main, idle);
    assert CpuBounded(s0, most) && !s0.scan && s0.mlfqs && s0.idle == idle;
    BootIsFine(true, main, idle);
    hide Boot, CpuBounded, ArithmeticFits, Uncrowded, CanRun;
    RunKeepsMode(s0, es);
    RunEndsUncrowded(s0, es, most);
    RunKeepsInvariant(s0, es);
    RunKeepsCpuBounded(s0, es, most);
    BoundedMeansFits(Run(s0, es), most, t);
  }

  lemma {:induction false} RunKeepsMode(s: State, es: seq<Event>)
    requires !s.scan
    ensures !Run(s, es).scan && Run(s, es).mlfqs == s.mlfqs && Run(s, es).idle == s.idle
    decreases |es|
  {
    if es != [] {
      hide Step;
      StepKeepsMode(s, es[0]);
      RunKeepsMode(Step(s, es[0]), es[1..]);
    }
  }

  lemma {:induction false} RunEndsUncrowded(s: State, es: seq<Event>, most: nat)
    requires Uncrowded(s, es, most)
    ensures ReadyThreads(Run(s, es)) <= most
    decreases |es|
  {
    hide Step, ReadyThreads;
    if es != [] {
      RunEndsUncrowded(Step(s, es[0]), es[1..], most);
    }
  }
}
