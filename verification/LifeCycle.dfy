/** Which events hand the processor out anew, to whom, and what status every thread has after
    every event. */
module LifeCycle {
  import opened Objects
  import opened OrderedList
  import opened Buckets
  import opened MlfqsMath
  import opened Scheduler
  import opened SchedulerInvariant
  import opened SchedulerTheorems
  import opened AlarmClock
  import opened MlfqsPriorities
  import opened Preemption
  import opened QueueOrder

  // ----- dispatches -----

  /** e ends in a dispatch: blocking, exiting, yielding and sleeping always do, an interrupt
      when it preempts, the checks when somebody queued outranks the running thread. */
  ghost predicate HandsOver(s: State, e: Event) {
    match e
    case Block => true
    case Exit => true
    case YieldCpu => true
    case Sleep(_, n) => n > 0
    case Tick => TickPreempts(s)
    case Enroll(_, _) => false
    case Wake(_) => false
    case _ => Checks(s, e) && Outranked(Effect(s, e))
  }

  /** The events that look at the run queue, if at all, by a check. */
  predicate MayCheck(e: Event) {
    e.CheckPreemption? || e.SetNice? || e.SetPriority? || e.Refresh?
  }

  lemma OthersHandOver(s: State, e: Event)
    requires !MayCheck(e) && !e.Tick?
    ensures Dispatches(s, e) <==> HandsOver(s, e)
  {}

  lemma ChecksHandOver(s: State, e: Event)
    requires MayCheck(e)
    ensures Dispatches(s, e) <==> WantsYield(s, e)
    ensures HandsOver(s, e) <==> Checks(s, e) && Outranked(Effect(s, e))
  {
    hide WantsYield, Effect, Outranked, Checks;
  }

  lemma TickHandsOver(s: State)
    ensures Dispatches(s, Tick) <==> YieldOnReturn(s)
    ensures HandsOver(s, Tick) <==> TickPreempts(s)
  {
    hide YieldOnReturn, TickPreempts;
  }

  lemma DispatchesIff(s: State, e: Event)
    requires Invariant(s) && !s.scan && Enabled(s, e)
    ensures Dispatches(s, e) <==> HandsOver(s, e)
  {
    NotCheckedMeans(s, e);
    hide *;
    InvariantMeans(s);
    if e.Tick? {
      TickHandsOver(s);
      YieldOnReturnIff(s);
    } else if MayCheck(e) {
      MayCheckMeans(e);
      ChecksHandOver(s, e);
      EffectKeepsCore(s, e);
      if Checks(s, e) {
        ChecksAreCalls(s, e);
      } else {
        OtherChecksWantNothing(s, e);
      }
    } else {
      OthersHandOver(s, e);
    }
  }

  lemma MayCheckMeans(e: Event)
    requires MayCheck(e)
    ensures !e.Exit? && !e.Sleep?
  {}

  lemma NotCheckedMeans(s: State, e: Event)
    ensures MayCheck(e) && !Checks(s, e) ==> if s.mlfqs then e.SetPriority? || e.Refresh? else e.SetNice?
  {}

  // ----- thread_yield -----

  lemma NextAfterYield(s: State)
    requires Core(s) && OnlyCurrentRuns(s) && !s.scan
    ensures var s1 := Schedule(Requeue(s));
            && (s1.cur == s.idle <==> Queue(Requeue(s)) == [])
            && (Queue(Requeue(s)) != [] ==> s1.cur in Queue(Requeue(s)))
            && forall t :: t in Queue(Requeue(s)) ==> Key(s.priority, t) <= Key(s.priority, s1.cur)
  {
    RequeueKeepsCore(s);
    RequeueMembers(s);
    hide *;
    SchedulesHighest(Requeue(s));
    NextIsHighestOf(Requeue(s));
  }

  /** A line that the running thread joins at its end has its old front dispatched first. */
  lemma EqualsGoFirst(s: State, t: Thread)
    requires Core(s) && OnlyCurrentRuns(s) && !s.scan && s.cur != s.idle
    requires t in Queue(s) && Key(s.priority, t) == Key(s.priority, s.cur)
    ensures Schedule(Requeue(s)).cur != s.cur
  {
    var k := Key(s.priority, s.cur);
    var s0 := Requeue(s);
    RequeueKeepsCore(s);
    RequeueMembers(s);
    CurrentNotQueued(s);
    hide *;
    DispatchFrame(s0);
    RequeueLine(s, k);
    DispatchLine(s0, k);
    LineMembers(s, k, t);
    LineMembers(s, k, s.cur);
    OfOne(s, s.cur, k);
    OfOne(s0, Schedule(s0).cur, k);
    if Key(s.priority, Schedule(s0).cur) == k {
      FrontOfOld(Line(s, k), s.cur, Schedule(s0).cur, Line(Schedule(s0), k));
    }
  }

  lemma FrontOfOld<T>(line: seq<T>, last: T, front: T, rest: seq<T>)
    requires line != [] && last !in line && line + [last] == [front] + rest
    ensures front != last
  {
    assert (line + [last])[0] == line[0];
  }

  lemma LineMembers(s: State, k: int, t: Thread)
    ensures t in Line(s, k) <==> t in Queue(s) && Key(s.priority, t) == k
  {
    ClassMembers(Queue(s), s.priority, k, t);
  }

  /** A queued thread that the running one does not strictly outrank. */
  ghost predicate Rivalled(s: State) {
    exists t :: t in Queue(s) && (s.cur == s.idle || Key(s.priority, t) >= Key(s.priority, s.cur))
  }

  lemma GivesWayIff(s: State)
    requires Core(s) && OnlyCurrentRuns(s) && !s.scan
    ensures Schedule(Requeue(s)).cur != s.cur <==> Rivalled(s)
  {
    var s0 := Requeue(s);
    var next := Schedule(s0).cur;
    RequeueMembers(s);
    CurrentNotQueued(s);
    NextAfterYield(s);
    hide Core, OnlyCurrentRuns, Queue, Requeue, Schedule, Key;
    if next != s.cur {
      if s.cur != s.idle {
        assert s.cur in Queue(s0);
      }
      assert next in Queue(s0) && next in Queue(s);
    }
    if Rivalled(s) {
      var t :| t in Queue(s) && (s.cur == s.idle || Key(s.priority, t) >= Key(s.priority, s.cur));
      StaysQueued(s, t);
      if s.cur != s.idle && Key(s.priority, t) == Key(s.priority, s.cur) {
        EqualsGoFirst(s, t);
      }
    }
  }

  /** Round robin: a thread that yields, or whose slice of four ticks is over, goes on running
      if and only if it strictly outranks every queued thread. */
  lemma YieldGivesWayIff(s: State, e: Event)
    requires Invariant(s) && !s.scan
    requires e.YieldCpu? || (e.Tick? && s.threadTicks + 1 >= 4)
    ensures Step(s, e).cur != s.cur <==> Rivalled(Effect(s, e))
    ensures e.YieldCpu? ==> Effect(s, e) == s
  {
    YieldCases(s);
    EffectIs(s, e);
    hide *;
    InvariantMeans(s);
    YieldEnabled(s, e);
    EffectKeepsCore(s, e);
    EffectKeepsCurrent(s, e);
    EffectFrame(s, e);
    YieldSteps(s, e);
    GivesWayIff(Effect(s, e));
  }

  lemma YieldEnabled(s: State, e: Event)
    requires e.YieldCpu? || e.Tick?
    ensures Enabled(s, e) && !e.Exit? && !e.Sleep?
  {}

  lemma YieldSteps(s: State, e: Event)
    requires e.YieldCpu? || (e.Tick? && YieldOnReturn(s))
    ensures Step(s, e) == Schedule(Requeue(Effect(s, e)))
  {
    hide Effect, Schedule, Requeue, YieldOnReturn;
  }

  // ----- statuses -----

  /** e makes t ready. */
  predicate Readies(s: State, e: Event, t: Thread) {
    e == Wake(t) || (e.Tick? && FallsDue(s, t))
  }

  lemma TickKeepsRoster(s: State)
    requires !s.scan
    ensures var (s1, s2) := (ThreadTick(s.(ticks := s.ticks + 1)), Effect(s, Tick));
            && s2.all == s.all && s2.idle == s.idle && s1.status == s.status
            && s2.status == WakeHeads(s1).status && s2.sleepers == WakeHeads(s1).sleepers
  {
    var s1 := ThreadTick(s.(ticks := s.ticks + 1));
    WakeHeadsTicks(s1);
    WakeHeadsFrame(s1);
    assert CountAndWake(s) == WakeHeads(s1);
    hide WakeHeads;
  }

  lemma WakeHeadsStatus(s: State, t: Thread)
    requires Sorted(s.sleepers, Urgency(s.wakeup))
    ensures StatusOf(WakeHeads(s), t)
            == if t in s.sleepers && Key(s.wakeup, t) <= s.ticks then Ready else StatusOf(s, t)
  {
    hide WakeHeads, UnblockAll, AtLeast, Below, Sorted, Urgency, Key;
    WakeHeadsIsSplit(s);
    UnblockAllStatuses(s.(sleepers := NotDue(s)), Due(s));
    SplitMembers(s.sleepers, Urgency(s.wakeup), -s.ticks, t);
    UrgencyIsNegated(s.wakeup, t);
  }

  lemma TickStatuses(s: State, t: Thread)
    requires Invariant(s) && !s.scan
    ensures StatusOf(Effect(s, Tick), t) == if FallsDue(s, t) then Ready else StatusOf(s, t)
    ensures Effect(s, Tick).all == s.all
  {
    hide Invariant, CountAndWake, ThreadTick, WakeHeads, Sorted, Urgency, Effect, Key;
    TickBegins(s);
    TickKeepsRoster(s);
    WakeHeadsStatus(ThreadTick(s.(ticks := s.ticks + 1)), t);
  }

  lemma EffectStatuses(s: State, e: Event, t: Thread)
    requires Invariant(s) && !s.scan
    ensures StatusOf(Effect(s, e), t)
            == if e.Enroll? && t == e.t then Blocked
               else if e.Exit? && t == s.cur then Dying
               else if Readies(s, e, t) then Ready
               else StatusOf(s, t)
    ensures t in Effect(s, e).all <==> (t in s.all || (e.Enroll? && t == e.t)) && !(e.Exit? && t == s.cur)
  {
    hide Invariant, Effect, PriorityFor, ClampNice, Insert, PushAt, Without, Urgency, FallsDue, Interrupt;
    EffectIs(s, e);
    if e.Tick? {
      TickStatuses(s, t);
    } else if e.Exit? {
      WithoutMembers(s.all, s.cur, t);
    }
  }

  /** The status in which e leaves the thread that it takes off the processor. */
  function StatusAfter(e: Event): Status {
    match e
    case Block => Blocked
    case Sleep(_, _) => Blocked
    case Exit => Dying
    case _ => Ready
  }

  lemma LeaveStatuses(s: State, e: Event, t: Thread)
    requires !s.scan && (e.Sleep? ==> e.n > 0)
    ensures StatusOf(Leave(s, e), t) == (if t == s.cur && !e.Exit? then StatusAfter(e) else StatusOf(Effect(s, e), t))
    ensures Leave(s, e).all == Effect(s, e).all
  {
    hide Effect, Leave, Requeue, FallAsleep, Forget, Interrupt;
    EffectKeepsCurrent(s, e);
    LeaveCases(s, e);
    EffectIs(s, e);
    RequeuedStatus(Effect(s, e));
    if e.Sleep? {
      AsleepStatus(s, e.start + e.n);
    }
  }

  lemma RequeuedStatus(s: State)
    ensures Requeue(s).status == s.status[s.cur := Ready] && Requeue(s).all == s.all
  {}

  lemma AsleepStatus(s: State, deadline: int)
    ensures FallAsleep(s, deadline).status == s.status && FallAsleep(s, deadline).all == s.all
  {}

  lemma ScheduleStatus(s: State, t: Thread)
    ensures StatusOf(Schedule(s), t) == if t == Schedule(s).cur then Running else StatusOf(s, t)
    ensures Schedule(s).all == s.all
  {
    DequeueFrame(s);
    hide NextThread, Dequeue;
  }

  /** The life of a thread: what every event makes of its status, and when it comes and goes.
      The thread that runs afterwards is running; one that loses the processor is ready again
      unless it has blocked itself, gone to sleep or exited; only a wake-up readies a blocked
      thread; all others stay as they were. */
  lemma StepStatus(s: State, e: Event, t: Thread)
    requires Invariant(s) && !s.scan && Enabled(s, e)
    ensures StatusOf(Step(s, e), t)
            == if t == Step(s, e).cur then Running
               else if t == s.cur then StatusAfter(e)
               else if e.Enroll? && t == e.t then Blocked
               else if Readies(s, e, t) then Ready
               else StatusOf(s, t)
    ensures t in Step(s, e).all <==> (t in s.all || (e.Enroll? && t == e.t)) && !(e.Exit? && t == s.cur)
  {
    StepKeepsInvariant(s, e);
    CurrentRuns(s);
    CurrentRuns(Step(s, e));
    DispatchCases(s, e);
    EffectKeepsCurrent(s, e);
    hide *;
    EffectStatuses(s, e, t);
    if Dispatches(s, e) {
      LeaveStatuses(s, e, t);
      ScheduleStatus(Leave(s, e), t);
      ExitedIsDying(e);
    }
  }

  lemma ExitedIsDying(e: Event)
    ensures e.Exit? ==> StatusAfter(e) == Dying
  {}
}
