/** The kernel, with its sorted ready and sleep lists, against the reference machine that
    keeps both in arrival order and scans: no run can tell them apart. */
module SchedulerRefinement {
  import opened Objects
  import opened OrderedList
  import opened MlfqsMath
  import opened Scheduler
  import opened SchedulerInvariant
  import opened AlarmClock

  /** r is the reference machine in the situation of the kernel s: everything agrees, and
      the kernel's lists are the stable sorts of the arrival queues. */
  ghost predicate Mirrors(s: State, r: State) {
    && !s.scan
    && r == s.(scan := true, ready := r.ready, sleepers := r.sleepers)
    && s.ready == StableSort(r.ready, s.priority)
    && s.sleepers == StableSort(r.sleepers, Urgency(s.wakeup))
    && (s.mlfqs ==> s.ready == [])
  }

  /** The reference machine that starts where the kernel boots. */
  lemma BootMirrors(s: State)
    requires Invariant(s) && !s.scan
    ensures Mirrors(s, s.(scan := true))
  {
    SortedIsItsOwnSort(s.ready, s.priority);
    SortedIsItsOwnSort(s.sleepers, Urgency(s.wakeup));
  }

  lemma MirrorsSame(s: State, r: State)
    requires Mirrors(s, r)
    ensures s.ready == [] <==> r.ready == []
    ensures s.sleepers == [] <==> r.sleepers == []
    ensures forall t :: t in s.ready <==> t in r.ready
    ensures forall t :: t in s.sleepers <==> t in r.sleepers
    ensures StatusesAgree(s, r)
  {
    StableSortSorts(r.ready, s.priority);
    StableSortSorts(r.sleepers, Urgency(s.wakeup));
    forall t
      ensures t in s.ready <==> t in r.ready
      ensures t in s.sleepers <==> t in r.sleepers
    {
      MemberOfSort(r.ready, s.priority, t);
      MemberOfSort(r.sleepers, Urgency(s.wakeup), t);
    }
  }

  ghost predicate StatusesAgree(s: State, r: State) {
    s.status == r.status && s.all == r.all && s.priority == r.priority && s.cur == r.cur && s.idle == r.idle
  }

  /** Twin changes that leave the lists, and the keys of those in them, alone. */
  lemma MirrorPrivate(s: State, r: State, s1: State, r1: State)
    requires Mirrors(s, r) && s1.ready == s.ready && s1.sleepers == s.sleepers
    requires !s1.scan && s1.mlfqs == s.mlfqs
    requires r1 == s1.(scan := true, ready := r.ready, sleepers := r.sleepers)
    requires Agree(s.ready, s.priority, s1.priority)
    requires Agree(s.sleepers, Urgency(s.wakeup), Urgency(s1.wakeup))
    ensures Mirrors(s1, r1)
  {
    MirrorsSame(s, r);
    StableSortAgrees(r.ready, s.priority, s1.priority);
    StableSortAgrees(r.sleepers, Urgency(s.wakeup), Urgency(s1.wakeup));
  }

  lemma MirrorStatus(s: State, r: State, t: Thread, status: Status)
    requires Mirrors(s, r)
    ensures Mirrors(SetStatus(s, t, status), SetStatus(r, t, status))
  {}

  lemma MirrorEnqueue(s: State, r: State, t: Thread)
    requires Mirrors(s, r)
    ensures Mirrors(Enqueue(s, t), Enqueue(r, t))
  {
    assert (r.ready + [t])[..|r.ready|] == r.ready;
    MirrorsSame(s, r);
  }

  lemma MirrorMakeReady(s: State, r: State, t: Thread)
    requires Mirrors(s, r)
    ensures Mirrors(MakeReady(s, t), MakeReady(r, t))
  {
    hide Mirrors, Enqueue;
    MirrorStatus(s, r, t, Ready);
    MirrorEnqueue(SetStatus(s, t, Ready), SetStatus(r, t, Ready), t);
  }

  lemma MirrorFront(s: State, r: State)
    requires Mirrors(s, r) && s.ready != []
    ensures r.ready != [] && s.ready[Front(s)] == r.ready[Front(r)]
    ensures RemoveAt(s.ready, Front(s)) == StableSort(RemoveAt(r.ready, Front(r)), s.priority)
  {
    MirrorsSame(s, r);
    FirstMaxHeadsTheSort(r.ready, s.priority);
    assert RemoveAt(s.ready, 0) == s.ready[1..];
  }

  lemma MirrorSchedule(s: State, r: State)
    requires Mirrors(s, r)
    ensures Mirrors(Schedule(s), Schedule(r))
  {
    hide RemoveAt, StableSort;
    MirrorsSame(s, r);
    DequeueFrame(s);
    DequeueFrame(r);
    if !s.mlfqs && s.ready != [] {
      MirrorFront(s, r);
    }
  }

  lemma MirrorRequeue(s: State, r: State)
    requires Mirrors(s, r)
    ensures Mirrors(Requeue(s), Requeue(r))
  {
    if s.cur == s.idle {
      assert Requeue(s) == SetStatus(s, s.cur, Ready) && Requeue(r) == SetStatus(r, r.cur, Ready);
      MirrorStatus(s, r, s.cur, Ready);
    } else {
      assert Requeue(s) == MakeReady(s, s.cur) && Requeue(r) == MakeReady(r, r.cur);
      MirrorMakeReady(s, r, s.cur);
    }
  }

  lemma MirrorUnblock(s: State, r: State, t: Thread)
    requires Mirrors(s, r)
    ensures Mirrors(Unblock(s, t), Unblock(r, t))
  {
    var p := if s.mlfqs && t != s.idle then Reprioritised(s, t) else s.priority;
    assert p == if r.mlfqs && t != r.idle then Reprioritised(r, t) else r.priority;
    hide Reprioritised;
    var s1, r1 := s.(priority := p), r.(priority := p);
    MirrorPrivate(s, r, s1, r1);
    MirrorMakeReady(s1, r1, t);
  }

  lemma {:induction false} MirrorUnblockAll(s: State, r: State, ts: seq<Thread>)
    requires Mirrors(s, r)
    ensures Mirrors(UnblockAll(s, ts), UnblockAll(r, ts))
    decreases |ts|
  {
    hide Mirrors, Unblock;
    if ts != [] {
      MirrorUnblock(s, r, ts[0]);
      MirrorUnblockAll(Unblock(s, ts[0]), Unblock(r, ts[0]), ts[1..]);
    }
  }

  lemma MirrorSplit(s: State, r: State)
    requires Mirrors(s, r)
    ensures Mirrors(s.(sleepers := NotDue(s)), r.(sleepers := NotDue(r)))
    ensures StableSort(Due(r), Urgency(r.wakeup)) == Due(s)
    ensures Sorted(s.sleepers, Urgency(s.wakeup))
  {
    hide StableSort, AtLeast, Below, Sorted, Urgency;
    StableSortSorts(r.sleepers, Urgency(s.wakeup));
    SplitCommutesWithSort(r.sleepers, Urgency(s.wakeup), -s.ticks);
  }

  lemma WakeCases(s: State)
    ensures s.scan ==> WakeSleepers(s)
                       == UnblockAll(s.(sleepers := NotDue(s)), StableSort(Due(s), Urgency(s.wakeup)))
    ensures !s.scan ==> WakeSleepers(s) == WakeHeads(s)
  {
    hide UnblockAll, WakeHeads, StableSort, Due, NotDue;
  }

  /** Popping the sorted list and scanning all sleepers wake the same threads in the same
      order and keep the same threads asleep. */
  lemma MirrorWake(s: State, r: State)
    requires Mirrors(s, r)
    ensures Mirrors(WakeSleepers(s), WakeSleepers(r))
  {
    assert !s.scan && r.scan;
    hide *;
    WakeCases(s);
    WakeCases(r);
    MirrorSplit(s, r);
    WakeHeadsIsSplit(s);
    MirrorUnblockAll(s.(sleepers := NotDue(s)), r.(sleepers := NotDue(r)), Due(s));
  }

  lemma MirrorThreadTick(s: State, r: State)
    requires Mirrors(s, r)
    ensures Mirrors(ThreadTick(s.(ticks := s.ticks + 1)), ThreadTick(r.(ticks := r.ticks + 1)))
  {
    hide StableSort, Urgency, FixedPoint.FpAddInt;
  }

  lemma MirrorCountAndWake(s: State, r: State)
    requires Mirrors(s, r)
    ensures Mirrors(CountAndWake(s), CountAndWake(r))
  {
    hide Mirrors, ThreadTick, WakeSleepers;
    MirrorThreadTick(s, r);
    MirrorWake(ThreadTick(s.(ticks := s.ticks + 1)), ThreadTick(r.(ticks := r.ticks + 1)));
  }

  lemma MirrorReprioritise(s: State, r: State)
    requires Mirrors(s, r)
    ensures Mirrors(Reprioritise(s), Reprioritise(r))
    ensures FourthTick(Reprioritise(s)) == FourthTick(Reprioritise(r))
    ensures BucketPreempts(Reprioritise(s)) == BucketPreempts(Reprioritise(r))
  {
    assert NewPriorities(s) == NewPriorities(r);
    hide NewPriorities;
    MirrorPrivate(s, r, Reprioritise(s), Reprioritise(r));
  }

  lemma MirrorDecay(s: State, r: State)
    requires Mirrors(s, r)
    ensures Mirrors(DecayEverySecond(s), DecayEverySecond(r))
  {
    assert DecayedCpus(s) == DecayedCpus(r) && ReadyThreads(s) == ReadyThreads(r);
    hide DecayedCpus, ReadyThreads;
    MirrorPrivate(s, r, DecayEverySecond(s), DecayEverySecond(r));
  }

  lemma MirrorInterrupt(s: State, r: State)
    requires Mirrors(s, r)
    ensures Mirrors(Interrupt(s), Interrupt(r))
    ensures YieldOnReturn(s) == YieldOnReturn(r)
  {
    assert s.threadTicks == r.threadTicks;
    hide Mirrors, CountAndWake, Reprioritise, DecayEverySecond, FourthTick, BucketPreempts;
    MirrorCountAndWake(s, r);
    MirrorReprioritise(CountAndWake(s), CountAndWake(r));
    MirrorDecay(Reprioritise(CountAndWake(s)), Reprioritise(CountAndWake(r)));
  }

  lemma MirrorSleep(s: State, r: State, deadline: int)
    requires Mirrors(s, r) && s.cur !in s.sleepers
    ensures Mirrors(FallAsleep(s, deadline), FallAsleep(r, deadline))
  {
    var wakeup := s.wakeup[s.cur := deadline];
    var s1, r1 := s.(wakeup := wakeup), r.(wakeup := wakeup);
    MirrorPrivate(s, r, s1, r1);
    assert (r.sleepers + [r.cur])[..|r.sleepers|] == r.sleepers;
  }

  lemma MirrorEnroll(s: State, r: State, t: Thread, p: int)
    requires Mirrors(s, r) && t !in s.ready && t !in s.sleepers
    ensures Mirrors(InitThread(s, t, p), InitThread(r, t, p))
  {
    MirrorPrivate(s, r, InitThread(s, t, p), InitThread(r, t, p));
  }

  lemma MirrorEffect(s: State, r: State, e: Event)
    requires Mirrors(s, r) && s.cur !in s.ready && s.cur !in s.sleepers
    requires e.Enroll? ==> e.t !in s.ready && e.t !in s.sleepers
    ensures Mirrors(Effect(s, e), Effect(r, e))
  {
    hide Mirrors, Unblock, InitThread, Interrupt, FallAsleep;
    match e
    case Enroll(t, p) => MirrorEnroll(s, r, t, p);
    case Wake(t) => MirrorUnblock(s, r, t);
    case Tick => MirrorInterrupt(s, r);
    case Sleep(start, n) => if n > 0 { MirrorSleep(s, r, start + n); }
    case _ => MirrorCurrentOnly(s, r, e);
  }

  lemma MirrorCurrentOnly(s: State, r: State, e: Event)
    requires Mirrors(s, r) && s.cur !in s.ready && s.cur !in s.sleepers
    requires !e.Enroll? && !e.Wake? && !e.Tick? && !e.Sleep?
    ensures Mirrors(Effect(s, e), Effect(r, e))
  {
    CurrentOnly(s, r, e);
    hide Effect, Mirrors;
    MirrorPrivate(s, r, Effect(s, e), Effect(r, e));
  }

  lemma CurrentOnly(s: State, r: State, e: Event)
    requires Mirrors(s, r) && s.cur !in s.ready && s.cur !in s.sleepers
    requires !e.Enroll? && !e.Wake? && !e.Tick? && !e.Sleep?
    ensures var (s1, r1) := (Effect(s, e), Effect(r, e));
            && s1.ready == s.ready && s1.sleepers == s.sleepers && !s1.scan && s1.mlfqs == s.mlfqs
            && r1 == s1.(scan := true, ready := r.ready, sleepers := r.sleepers)
            && Agree(s.ready, s.priority, s1.priority)
            && Agree(s.sleepers, Urgency(s.wakeup), Urgency(s1.wakeup))
  {
    hide Effect, StableSort, Urgency, Key;
    TwinEffect(s, r, e);
    QuietKeys(s, e);
  }

  lemma TwinEffect(s: State, r: State, e: Event)
    requires !s.scan && r == s.(scan := true, ready := r.ready, sleepers := r.sleepers)
    requires !e.Enroll? && !e.Wake? && !e.Tick? && !e.Sleep?
    ensures var (s1, r1) := (Effect(s, e), Effect(r, e));
            && s1.ready == s.ready && s1.sleepers == s.sleepers && !s1.scan && s1.mlfqs == s.mlfqs
            && r1 == s1.(scan := true, ready := r.ready, sleepers := r.sleepers)
  {
    hide Effect, PriorityFor, ClampNice, Without, Key;
    EffectIs(s, e);
    EffectIs(r, e);
  }

  lemma QuietKeys(s: State, e: Event)
    requires s.cur !in s.ready && s.cur !in s.sleepers
    requires !e.Enroll? && !e.Wake? && !e.Tick? && !e.Sleep?
    ensures Agree(s.ready, s.priority, Effect(s, e).priority)
    ensures Agree(s.sleepers, Urgency(s.wakeup), Urgency(Effect(s, e).wakeup))
  {
    hide Effect, PriorityFor, ClampNice, Without;
    EffectIs(s, e);
  }

  lemma MirrorPreempts(s: State, r: State)
    requires Mirrors(s, r)
    ensures ReadyPreempts(s) == ReadyPreempts(r) && BucketPreempts(s) == BucketPreempts(r)
    ensures Preempts(s) == Preempts(r)
  {
    MirrorsSame(s, r);
    if s.ready != [] {
      MirrorFront(s, r);
    }
  }

  lemma MirrorWantsYield(s: State, r: State, e: Event)
    requires Mirrors(s, r) && Mirrors(Effect(s, e), Effect(r, e))
    ensures WantsYield(s, e) == WantsYield(r, e) && Dispatches(s, e) == Dispatches(r, e)
  {
    hide Mirrors, Effect, Preempts, ReadyPreempts, BucketPreempts, YieldOnReturn;
    MirrorPreempts(s, r);
    MirrorPreempts(Effect(s, e), Effect(r, e));
    MirrorInterrupt(s, r);
  }

  lemma MirrorLeave(s: State, r: State, e: Event)
    requires Mirrors(s, r) && Mirrors(Effect(s, e), Effect(r, e)) && (e.Sleep? ==> e.n > 0)
    ensures Mirrors(Leave(s, e), Leave(r, e))
  {
    assert s.cur == r.cur;
    hide *;
    LeaveCases(s, e);
    LeaveCases(r, e);
    ExitOrSleepEffect(s, e);
    ExitOrSleepEffect(r, e);
    if e.Block? {
      MirrorStatus(s, r, s.cur, Blocked);
    } else if e.Sleep? {
      MirrorStatus(Effect(s, e), Effect(r, e), s.cur, Blocked);
    } else if !e.Exit? {
      MirrorRequeue(Effect(s, e), Effect(r, e));
    }
  }

  lemma ExitOrSleepEffect(s: State, e: Event)
    ensures e.Exit? ==> Effect(s, e) == Forget(s, s.cur)
    ensures e.Sleep? && e.n > 0 ==> Effect(s, e) == FallAsleep(s, e.start + e.n)
  {}

  lemma NewcomersAreInNoList(s: State, e: Event)
    requires Invariant(s) && Enabled(s, e)
    ensures s.cur !in s.ready && s.cur !in s.sleepers
    ensures e.Enroll? ==> e.t !in s.ready && e.t !in s.sleepers
  {
    NotQueued(s, s.cur);
    if e.Enroll? {
      NotQueued(s, e.t);
    }
  }

  lemma SameEvents(s: State, r: State, e: Event)
    requires Mirrors(s, r)
    ensures Enabled(s, e) <==> Enabled(r, e)
  {
    MirrorsSame(s, r);
  }

  lemma StepMirrors(s: State, r: State, e: Event)
    requires Invariant(s) && Mirrors(s, r) && Enabled(s, e)
    ensures Enabled(r, e) && Mirrors(Step(s, e), Step(r, e))
  {
    hide *;
    SameEvents(s, r, e);
    NewcomersAreInNoList(s, e);
    MirrorEffect(s, r, e);
    MirrorWantsYield(s, r, e);
    StepCases(s, e);
    StepCases(r, e);
    if Dispatches(s, e) {
      MirrorLeave(s, r, e);
      MirrorSchedule(Leave(s, e), Leave(r, e));
    }
  }

  lemma StepCases(s: State, e: Event)
    ensures Step(s, e) == if Dispatches(s, e) then Schedule(Leave(s, e)) else Effect(s, e)
    ensures e.Sleep? && Dispatches(s, e) ==> e.n > 0
  {
    SleepWantsNoYield(s, e);
    hide WantsYield, Leave, Effect, Schedule;
  }

  /** Along every run the kernel and the scanning reference enable the same events, run
      the same thread and hold every thread in the same state; the kernel's lists are
      always the stable sorts of the arrival queues.  So each dispatch in priority mode
      takes the longest-waiting thread of maximum priority, and sleepers with equal
      deadlines wake in the order in which they fell asleep. */
  lemma {:induction false} RunMirrors(s: State, r: State, es: seq<Event>)
    requires Invariant(s) && Mirrors(s, r) && CanRun(s, es)
    ensures CanRun(r, es) && Mirrors(Run(s, es), Run(r, es))
    ensures Run(s, es).cur == Run(r, es).cur && Run(s, es).status == Run(r, es).status
    decreases |es|
  {
    hide Step, Enabled, Invariant;
    if es != [] {
      StepMirrors(s, r, es[0]);
      StepKeepsInvariant(s, es[0]);
      StepKeepsMode(s, es[0]);
      RunMirrors(Step(s, es[0]), Step(r, es[0]), es[1..]);
    }
  }

  /** What the reference dispatches, in words: the first arrival among the most urgent. */
  lemma ReferenceTakesLongestWaiting(r: State, i: nat)
    requires r.scan && !r.mlfqs && i < |r.ready|
    ensures NextThread(r) == r.ready[i] && r.ready[i] !in r.ready[..i] <==>
            && (forall j :: 0 <= j < |r.ready| ==> Key(r.priority, r.ready[j]) <= Key(r.priority, r.ready[i]))
            && (forall j :: 0 <= j < i ==> Key(r.priority, r.ready[j]) < Key(r.priority, r.ready[i]))
  {
    var m := FirstMax(r.ready, r.priority);
    if m < i {
      assert r.ready[..i][m] == r.ready[m];
    }
  }
}
