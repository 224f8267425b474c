/** Which priority every thread has after every event.  q is always the value of the
    documented formula, pinned by a truncated quotient. */
module MlfqsPriorities {
  import opened Objects
  import opened OrderedList
  import opened MlfqsMath
  import opened Scheduler
  import opened SchedulerInvariant
  import opened SchedulerTheorems
  import opened AlarmClock
  import opened MlfqsAccounting
  import FixedPoint

  function Clamped(q: int): int {
    if q > 63 then 63 else if q < 0 then 0 else q
  }

  /** q is 63 - cpu / 4 - 2 * nice with cpu / 4 truncated to an integer. */
  predicate IsFormula(q: int, cpu: int, nice: int) {
    FixedPoint.IsTruncated(cpu, 4 * FixedPoint.F, (63 - 2 * nice - q) * (4 * FixedPoint.F))
  }

  lemma FormulaIsPriority(q: int, cpu: int, nice: int)
    requires IsFormula(q, cpu, nice)
    ensures PriorityFor(cpu, nice) == Clamped(q)
  {
    PriorityForIsTheFormula(cpu, nice, q);
    hide PriorityFor;
  }

  /** The dispatch that ends an event changes no thread's record but for statuses. */
  lemma StepRecords(s: State, e: Event)
    ensures Step(s, e).priority == Effect(s, e).priority && Step(s, e).base == Effect(s, e).base
    ensures Step(s, e).nice == Effect(s, e).nice
  {
    hide Schedule, WantsYield, Effect, Leave;
    SleepWantsNoYield(s, e);
    if Dispatches(s, e) {
      LeaveRecords(s, e);
      DequeueFrame(Leave(s, e));
    }
  }

  lemma LeaveRecords(s: State, e: Event)
    requires e.Sleep? ==> e.n > 0
    ensures Leave(s, e).priority == Effect(s, e).priority && Leave(s, e).base == Effect(s, e).base
    ensures Leave(s, e).nice == Effect(s, e).nice
  {
    hide Effect, Insert, PushAt;
    EffectIs(s, e);
  }

  /** thread_unblock: under MLFQS the thread gets the formula's priority, otherwise it keeps
      its own; all others keep theirs. */
  lemma WakePriorities(s: State, t: Thread, q: int, u: Thread)
    requires Enabled(s, Wake(t)) && IsFormula(q, Key(s.recentCpu, t), Key(s.nice, t))
    ensures Key(Step(s, Wake(t)).priority, u) == if s.mlfqs && u == t then Clamped(q) else Key(s.priority, u)
    ensures Step(s, Wake(t)).nice == s.nice && Step(s, Wake(t)).base == s.base
  {
    FormulaIsPriority(q, Key(s.recentCpu, t), Key(s.nice, t));
    StepRecords(s, Wake(t));
    EffectIs(s, Wake(t));
    hide Step, Effect, PriorityFor, Insert, PushAt, IsFormula, Clamped;
  }

  /** thread_set_nice: m is n brought into -20..20, and the priority follows from it. */
  lemma SetNicePriorities(s: State, n: int, m: int, q: int, u: Thread)
    requires Enabled(s, SetNice(n)) && m == (if n > 20 then 20 else if n < -20 then -20 else n)
    requires IsFormula(q, Key(s.recentCpu, s.cur), m)
    ensures var s1 := Step(s, SetNice(n));
            && Key(s1.nice, u) == (if u == s.cur then m else Key(s.nice, u))
            && Key(s1.priority, u) == (if u == s.cur then Clamped(q) else Key(s.priority, u))
            && s1.base == s.base
  {
    FormulaIsPriority(q, Key(s.recentCpu, s.cur), m);
    StepRecords(s, SetNice(n));
    EffectIs(s, SetNice(n));
    hide Step, Effect, PriorityFor, IsFormula, Clamped;
  }

  /** thread_set_priority and the refresh of lock_release write the running thread's priority
      and no other. */
  lemma WrittenPriorities(s: State, e: Event, u: Thread)
    requires e.SetPriority? || e.Refresh?
    ensures Key(Step(s, e).priority, u)
            == if u != s.cur then Key(s.priority, u) else if e.SetPriority? then e.p else Key(s.base, s.cur)
    ensures Step(s, e).nice == s.nice && Step(s, e).base == s.base
  {
    StepRecords(s, e);
    EffectIs(s, e);
    hide Step, Effect;
  }

  /** init_thread: the child of a thread inherits nice and recent_cpu under MLFQS, and its
      priority follows from them; otherwise it has the priority asked for. */
  lemma EnrollRecord(s: State, t: Thread, p: int, q: int)
    requires t != s.idle && IsFormula(q, Key(s.recentCpu, s.cur), Key(s.nice, s.cur))
    ensures var s1 := Step(s, Enroll(t, p));
            && s1.status == s.status[t := Blocked] && s1.all == s.all + [t] && s1.cur == s.cur
            && s1.base == s.base[t := p] && s1.wakeup == s.wakeup[t := 0]
            && s1.priority == s.priority[t := if s.mlfqs then Clamped(q) else p]
            && s1.nice == s.nice[t := if s.mlfqs then Key(s.nice, s.cur) else 0]
            && s1.recentCpu == s.recentCpu[t := if s.mlfqs then Key(s.recentCpu, s.cur) else 0]
            && s1.ready == s.ready && s1.buckets == s.buckets && s1.sleepers == s.sleepers
  {
    FormulaIsPriority(q, Key(s.recentCpu, s.cur), Key(s.nice, s.cur));
    hide PriorityFor, IsFormula, Clamped;
  }

  /** No other event but an interrupt touches a priority or a nice value of a thread that
      stays. */
  lemma OtherPriorities(s: State, e: Event, u: Thread)
    requires e.Block? || e.CheckPreemption? || e.YieldCpu? || e.Sleep? || (e.Exit? && u != s.cur)
    ensures Key(Step(s, e).priority, u) == Key(s.priority, u) && Key(Step(s, e).nice, u) == Key(s.nice, u)
    ensures Key(Step(s, e).base, u) == Key(s.base, u)
  {
    StepRecords(s, e);
    EffectIs(s, e);
    hide Step, Effect, Insert, Without;
  }

  // ----- timer interrupts -----

  /** The sleepers whose time has come get a fresh priority under MLFQS. */
  lemma {:induction false} WakeHeadsPriorities(s: State, t: Thread)
    requires Sorted(s.sleepers, Urgency(s.wakeup)) && s.idle !in s.sleepers
    ensures Key(WakeHeads(s).priority, t)
            == if s.mlfqs && t in s.sleepers && Key(s.wakeup, t) <= s.ticks
               then PriorityFor(Key(s.recentCpu, t), Key(s.nice, t)) else Key(s.priority, t)
    decreases |s.sleepers|
  {
    hide Urgency, PriorityFor;
    if s.sleepers == [] {
    } else if Key(s.wakeup, s.sleepers[0]) > s.ticks {
      NoneIsDue(s, t);
    } else {
      var first := s.sleepers[0];
      var popped := Unblock(s.(sleepers := s.sleepers[1..]), first);
      PopOneDue(s);
      HeadIsGreatest(s.sleepers, Urgency(s.wakeup));
      UnblockedPriority(s, first, t);
      hide Unblock, WakeHeads, Sorted, Key;
      WakeHeadsPriorities(popped, t);
    }
  }

  lemma NoneIsDue(s: State, t: Thread)
    requires Sorted(s.sleepers, Urgency(s.wakeup)) && s.sleepers != [] && Key(s.wakeup, s.sleepers[0]) > s.ticks
    ensures t in s.sleepers ==> Key(s.wakeup, t) > s.ticks
  {
    hide Urgency, Sorted;
    HeadIsGreatest(s.sleepers, Urgency(s.wakeup));
    UrgencyIsNegated(s.wakeup, t);
    UrgencyIsNegated(s.wakeup, s.sleepers[0]);
  }

  lemma UnblockedPriority(s: State, first: Thread, t: Thread)
    requires s.sleepers != [] && first == s.sleepers[0] && first != s.idle
    ensures var popped := Unblock(s.(sleepers := s.sleepers[1..]), first);
            && Key(popped.priority, t)
               == (if s.mlfqs && t == first then PriorityFor(Key(s.recentCpu, t), Key(s.nice, t))
                   else Key(s.priority, t))
            && popped.mlfqs == s.mlfqs && popped.idle == s.idle
            && popped.recentCpu == s.recentCpu && popped.nice == s.nice
    ensures t in s.sleepers <==> t == first || t in s.sleepers[1..]
  {
    hide PriorityFor, Insert, PushAt;
    assert s.sleepers == [first] + s.sleepers[1..];
  }

  /** t's time comes with the next interrupt. */
  predicate FallsDue(s: State, t: Thread) {
    t in s.sleepers && Key(s.wakeup, t) <= s.ticks + 1
  }

  lemma CountAndWakePriorities(s: State, t: Thread)
    requires Invariant(s) && !s.scan
    ensures Key(CountAndWake(s).priority, t)
            == if s.mlfqs && FallsDue(s, t) then PriorityFor(Key(s.recentCpu, t), Key(s.nice, t))
               else Key(s.priority, t)
  {
    var s1 := ThreadTick(s.(ticks := s.ticks + 1));
    TickBegins(s);
    TickBeginsWith(s, t);
    hide CountAndWake, ThreadTick, WakeHeads, Sorted, Urgency, Invariant, PriorityFor;
    WakeHeadsPriorities(s1, t);
  }

  lemma TickBeginsWith(s: State, t: Thread)
    requires Invariant(s)
    ensures var s1 := ThreadTick(s.(ticks := s.ticks + 1));
            && s1.idle == s.idle && s1.mlfqs == s.mlfqs && s1.nice == s.nice && s1.priority == s.priority
            && (t in s.sleepers ==> Key(s1.recentCpu, t) == Key(s.recentCpu, t))
    ensures s.idle !in s.sleepers
  {}

  lemma FourthTickPriorities(s: State, t: Thread)
    requires t in s.all
    ensures Key(Reprioritise(s).priority, t)
            == if s.mlfqs && s.ticks % 4 == 0 && t != s.idle then PriorityFor(Key(s.recentCpu, t), Key(s.nice, t))
               else Key(s.priority, t)
  {
    hide PriorityFor;
  }

  lemma InterruptPriority(s: State)
    ensures Interrupt(s).priority == Reprioritise(CountAndWake(s)).priority
    ensures Interrupt(s).nice == CountAndWake(s).nice
    ensures Interrupt(s).base == CountAndWake(s).base
  {
    hide CountAndWake, NewPriorities, DecayedCpus;
  }

  lemma TickIsInterrupt(s: State)
    ensures Effect(s, Tick) == Interrupt(s)
  {
    hide Interrupt;
  }

  /** A timer interrupt.  Under MLFQS, at every fourth tick each thread but idle gets the
      priority of the formula, with the recent_cpu that the tick has charged and not yet
      decayed; at other ticks only the threads that it wakes do. */
  lemma TickPriorities(s: State, t: Thread, q: int)
    requires Invariant(s) && !s.scan && t in s.all
    requires IsFormula(q, Key(s.recentCpu, t) + if s.mlfqs then Charge(s, t) else 0, Key(s.nice, t))
    ensures Key(Step(s, Tick).priority, t)
            == if s.mlfqs && t != s.idle && ((s.ticks + 1) % 4 == 0 || FallsDue(s, t)) then Clamped(q)
               else Key(s.priority, t)
    ensures Step(s, Tick).nice == s.nice
  {
    FormulaIsPriority(q, Key(s.recentCpu, t) + if s.mlfqs then Charge(s, t) else 0, Key(s.nice, t));
    SleeperIsNotCharged(s, t);
    hide *;
    TickIsInterrupt(s);
    StepRecords(s, Tick);
    InterruptPriority(s);
    CountAndWakeFrame(s);
    CountAndWakeAccounting(s);
    CountAndWakePriorities(s, t);
    if s.mlfqs {
      ChargedCpu(s, t);
    }
    FourthTickPriorities(CountAndWake(s), t);
  }

  lemma SleeperIsNotCharged(s: State, t: Thread)
    requires Invariant(s)
    ensures FallsDue(s, t) ==> Charge(s, t) == 0 && t != s.idle
  {}
}
