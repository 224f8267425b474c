/** Exactly when an event takes the processor from the running thread.  Stated over the
    queued threads, whichever structure holds them. */
module Preemption {
  import opened Objects
  import opened OrderedList
  import opened Buckets
  import opened MlfqsMath
  import opened Scheduler
  import opened SchedulerInvariant
  import opened SchedulerTheorems

  /** Some queued thread has a strictly higher priority than the running one. */
  ghost predicate Outranked(s: State) {
    exists t :: t in Queue(s) && Key(s.priority, t) > Key(s.priority, s.cur)
  }

  lemma BucketsDecide(s: State)
    requires Core(s) && s.mlfqs && s.cur in s.all
    ensures BucketPreempts(s) <==> Outranked(s)
  {
    assert Key(s.priority, s.cur) >= 0;
    EmptyTop(s.buckets);
    var p := Top(s.buckets);
    if BucketPreempts(s) && p >= 0 {
      var t := s.buckets[p][0];
      MemberOfFlat(s.buckets, t);
      InPlaceMember(s.buckets, s.priority, t);
      assert t in s.buckets[p];
    }
    forall t | t in Queue(s)
      ensures Key(s.priority, t) <= p
    {
      InPlaceMember(s.buckets, s.priority, t);
    }
  }

  lemma ReadyListDecides(s: State)
    requires Core(s) && !s.mlfqs && !s.scan
    ensures ReadyPreempts(s) <==> Outranked(s)
  {
    if s.ready != [] {
      HeadIsGreatest(s.ready, s.priority);
    }
  }

  lemma CheckDecides(s: State)
    requires Core(s) && s.cur in s.all && !s.scan
    ensures Preempts(s) <==> Outranked(s)
  {
    hide Core, Outranked, BucketPreempts, ReadyPreempts;
    if s.mlfqs {
      BucketsDecide(s);
    } else {
      ReadyListDecides(s);
    }
  }

  /** The other structure is empty in either mode, and nothing in it preempts. */
  lemma OtherQueueIsEmpty(s: State)
    requires Core(s) && OnlyCurrentRuns(s) && !s.scan
    ensures s.mlfqs ==> !ReadyPreempts(s)
    ensures !s.mlfqs ==> Top(s.buckets) < 0
  {
    EmptyTop(s.buckets);
  }

  /** The events that end with a check of the run queue in use: sema_up and thread_create in
      both modes, thread_set_priority and lock_release in priority mode, thread_set_nice
      under MLFQS. */
  predicate Checks(s: State, e: Event) {
    e.CheckPreemption? || (if s.mlfqs then e.SetNice? else e.SetPriority? || e.Refresh?)
  }

  lemma ChecksAreCalls(s: State, e: Event)
    requires Core(Effect(s, e)) && OnlyCurrentRuns(Effect(s, e)) && !s.scan && Checks(s, e)
    ensures WantsYield(s, e) <==> Outranked(Effect(s, e))
    ensures e.CheckPreemption? ==> Effect(s, e) == s
  {
    EffectFrame(s, e);
    var s1 := Effect(s, e);
    if s1.mlfqs {
      BucketsDecide(s1);
    } else {
      ReadyListDecides(s1);
    }
    hide Effect, Core, Outranked, BucketPreempts, ReadyPreempts;
    EffectIs(s, e);
  }

  /** s1 is s after the running thread has been put back in the run queue and the highest
      queued thread dispatched. */
  ghost predicate Preempted(s: State, s1: State) {
    && s1.cur != s.cur && s1.cur in Queue(s) && Key(s.priority, s1.cur) > Key(s.priority, s.cur)
    && (forall t :: t in Queue(s) ==> Key(s.priority, t) <= Key(s.priority, s1.cur))
    && StatusOf(s1, s.cur) == Ready && (s.cur in Queue(s1) <==> s.cur != s.idle)
    && s1.priority == s.priority && s1.threadTicks == 0
  }

  lemma YieldPreempts(s: State)
    requires Core(s) && OnlyCurrentRuns(s) && !s.scan && Outranked(s)
    ensures Preempted(s, Schedule(Requeue(s)))
  {
    hide Core, Requeue, Schedule, Queue, OnlyCurrentRuns, StatusOf, Key;
    RequeueKeepsCore(s);
    RequeueMembers(s);
    NextIsHighestOf(Requeue(s));
    CurrentNotQueued(s);
    var w :| w in Queue(s) && Key(s.priority, w) > Key(s.priority, s.cur);
    assert w in Queue(Requeue(s));
    QueuedAfterYield(s);
    forall t | t in Queue(s)
      ensures Key(s.priority, t) <= Key(s.priority, Schedule(Requeue(s)).cur)
    {
      StaysQueued(s, t);
    }
  }

  lemma StaysQueued(s: State, t: Thread)
    requires Core(s) && OnlyCurrentRuns(s) && !s.scan && t in Queue(s)
    ensures t in Queue(Requeue(s)) && Requeue(s).priority == s.priority
  {
    RequeueMembers(s);
  }

  lemma CurrentNotQueued(s: State)
    requires Core(s) && OnlyCurrentRuns(s)
    ensures s.cur !in Queue(s)
  {
    NotQueued(s, s.cur);
  }

  lemma RequeueMembers(s: State)
    requires Core(s) && OnlyCurrentRuns(s) && !s.scan
    ensures forall t :: t in Queue(Requeue(s)) <==> t in Queue(s) || (t == s.cur && s.cur != s.idle)
    ensures Requeue(s).priority == s.priority && !Requeue(s).scan && Requeue(s).status == s.status[s.cur := Ready]
    ensures Requeue(s).idle == s.idle && Requeue(s).mlfqs == s.mlfqs
  {
    if s.cur == s.idle {
      assert Queue(Requeue(s)) == Queue(s);
    } else {
      EnqueueCounts(SetStatus(s, s.cur, Ready), s.cur);
      assert Queue(Requeue(s)) == Queue(MakeReady(s, s.cur));
      forall t
        ensures t in Queue(Requeue(s)) <==> t in Queue(s) || t == s.cur
      {
        assert t in Queue(Requeue(s)) <==> t in multiset(Queue(Requeue(s)));
        assert t in Queue(s) <==> t in multiset(Queue(s));
      }
    }
  }

  lemma NextIsHighestOf(s: State)
    requires Core(s) && !s.scan
    ensures Queue(s) != [] ==> Schedule(s).cur in Queue(s)
    ensures forall t :: t in Queue(s) ==> Key(s.priority, t) <= Key(s.priority, Schedule(s).cur)
  {
    NextIsHighest(s);
    DequeueFrame(s);
  }

  lemma QueuedAfterYield(s: State)
    requires Core(s) && OnlyCurrentRuns(s) && !s.scan && Schedule(Requeue(s)).cur != s.cur
    ensures var s1 := Schedule(Requeue(s));
            && StatusOf(s1, s.cur) == Ready && (s.cur in Queue(s1) <==> s.cur != s.idle)
            && s1.priority == s.priority && s1.threadTicks == 0
  {
    var s0 := Requeue(s);
    var s1 := Schedule(s0);
    RequeueKeepsCore(s);
    RequeueMembers(s);
    ScheduleKeepsCore(s0);
    DequeueFrame(s0);
    assert StatusOf(s1, s.cur) == Ready && s1.all == s0.all && s1.idle == s.idle;
    ReadyMeansQueued(s1, s.cur);
  }

  lemma ReadyMeansQueued(s: State, t: Thread)
    requires Core(s) && t in s.all && StatusOf(s, t) == Ready
    ensures t in Queue(s) <==> t != s.idle
  {
    assert t in Queue(s) <==> t in multiset(Queue(s));
  }

  /** A check takes the processor from the running thread if and only if a queued thread has
      a strictly higher priority; then the highest runs and the other is queued.  Otherwise
      nothing happens beyond the event's own effect. */
  lemma ChecksPreemptIff(s: State, e: Event)
    requires Invariant(s) && !s.scan && Enabled(s, e) && Checks(s, e)
    ensures Outranked(Effect(s, e)) ==> Preempted(Effect(s, e), Step(s, e)) && HighestRuns(Step(s, e))
    ensures !Outranked(Effect(s, e)) ==> Step(s, e) == Effect(s, e)
    ensures e.CheckPreemption? ==> Effect(s, e) == s
  {
    hide *;
    InvariantMeans(s);
    CheckCases(s, e);
    EffectKeepsCore(s, e);
    EffectFrame(s, e);
    ChecksAreCalls(s, e);
    if Outranked(Effect(s, e)) {
      YieldPreempts(Effect(s, e));
      StepDispatchesHighest(s, e);
    }
  }

  lemma CheckCases(s: State, e: Event)
    requires Checks(s, e)
    ensures !e.Exit? && !e.Sleep? && Dispatches(s, e) == WantsYield(s, e)
    ensures Step(s, e) == if WantsYield(s, e) then Schedule(Requeue(Effect(s, e))) else Effect(s, e)
  {
    hide Effect, Requeue, Schedule, WantsYield;
    LeaveCases(s, e);
  }

  /** The checks that look at the structure that is not in use never yield. */
  lemma OtherChecksDoNothing(s: State, e: Event)
    requires Invariant(s) && !s.scan && Enabled(s, e)
    requires if s.mlfqs then e.SetPriority? || e.Refresh? else e.SetNice?
    ensures Step(s, e) == Effect(s, e)
  {
    hide *;
    OtherChecksWantNothing(s, e);
    OtherCheckCases(s, e);
  }

  lemma OtherChecksWantNothing(s: State, e: Event)
    requires Invariant(s) && !s.scan && Enabled(s, e)
    requires if s.mlfqs then e.SetPriority? || e.Refresh? else e.SetNice?
    ensures !WantsYield(s, e)
  {
    assert e.SetNice? ==> s.cur != s.idle;
    hide *;
    InvariantMeans(s);
    OtherCheckCases(s, e);
    EffectKeepsCore(s, e);
    EffectFrame(s, e);
    OtherQueueIsEmpty(Effect(s, e));
    if e.SetNice? {
      EffectPriority(s, e);
    }
  }

  lemma OtherCheckCases(s: State, e: Event)
    requires e.SetPriority? || e.Refresh? || e.SetNice?
    ensures var s1 := Effect(s, e);
            WantsYield(s, e) == if e.SetNice? then Top(s1.buckets) > Key(s1.priority, s1.cur) else ReadyPreempts(s1)
    ensures !WantsYield(s, e) ==> Step(s, e) == Effect(s, e)
  {
    hide Effect, ReadyPreempts, Leave, Schedule;
  }

  lemma EffectPriority(s: State, e: Event)
    requires e.SetNice? && s.cur != s.idle
    ensures Effect(s, e).cur == s.cur && Key(Effect(s, e).priority, s.cur) >= 0
  {}

  // ----- timer interrupts -----

  /** The handler ends the slice after four ticks, and under MLFQS compares priorities at
      every fourth tick. */
  ghost predicate TickPreempts(s: State) {
    || s.threadTicks + 1 >= 4
    || (s.mlfqs && (s.ticks + 1) % 4 == 0 && Outranked(Effect(s, Tick)))
  }

  lemma DecayKeepsRanks(s: State)
    ensures Queue(DecayEverySecond(s)) == Queue(s) && DecayEverySecond(s).priority == s.priority
    ensures DecayEverySecond(s).cur == s.cur
  {}

  lemma SameRanks(s: State, s1: State)
    requires Queue(s1) == Queue(s) && s1.priority == s.priority && s1.cur == s.cur
    ensures Outranked(s1) <==> Outranked(s)
  {}

  lemma YieldOnReturnIff(s: State)
    requires Core(s) && OnlyCurrentRuns(s) && !s.scan
    ensures YieldOnReturn(s) <==> TickPreempts(s)
  {
    hide *;
    var s1 := Reprioritise(CountAndWake(s));
    TickPreemptsMeans(s);
    YieldCases(s);
    DecayKeepsRanks(s1);
    SameRanks(s1, Effect(s, Tick));
    CountAndWakeKeepsCore(s);
    ReprioritiseKeepsCore(CountAndWake(s));
    CurrentIsKnown(s1);
    if s.mlfqs {
      BucketsDecide(s1);
    }
  }

  lemma TickPreemptsMeans(s: State)
    ensures TickPreempts(s) <==>
              s.threadTicks + 1 >= 4 || (s.mlfqs && (s.ticks + 1) % 4 == 0 && Outranked(Effect(s, Tick)))
  {
    hide Effect, Outranked;
  }

  lemma CurrentIsKnown(s: State)
    requires OnlyCurrentRuns(s)
    ensures s.cur in s.all
  {}

  lemma YieldCases(s: State)
    requires !s.scan
    ensures var s1 := Reprioritise(CountAndWake(s));
            && Effect(s, Tick) == DecayEverySecond(s1) && s1.mlfqs == s.mlfqs
            && (YieldOnReturn(s) <==>
                  s.threadTicks + 1 >= 4 || (s.mlfqs && (s.ticks + 1) % 4 == 0 && BucketPreempts(s1)))
  {
    CountAndWakeFrame(s);
    hide CountAndWake, NewPriorities, Rebucket, BucketPreempts, DecayEverySecond;
  }

  /** A timer interrupt ends in a dispatch if and only if the slice of four ticks is over or,
      under MLFQS at every fourth tick, a queued thread has a strictly higher priority.
      Otherwise the running thread goes on with its slice. */
  lemma TickPreemptsIff(s: State)
    requires Invariant(s) && !s.scan
    ensures TickPreempts(s) ==> Step(s, Tick).threadTicks == 0 && HighestRuns(Step(s, Tick))
    ensures !TickPreempts(s) ==>
              Step(s, Tick) == Effect(s, Tick) && Step(s, Tick).cur == s.cur
              && Step(s, Tick).threadTicks == s.threadTicks + 1
  {
    InvariantMeans(s);
    YieldOnReturnIff(s);
    InterruptFrame(s);
    assert Effect(s, Tick) == Interrupt(s);
    hide Invariant, Core, OnlyCurrentRuns, Effect, Leave, YieldOnReturn, Interrupt, HighestRuns, TickPreempts;
    if TickPreempts(s) {
      StepDispatchesHighest(s, Tick);
      DequeueFrame(Leave(s, Tick));
    }
  }
}
