/** timer_sleep and timer_wakeup: a sleeper is woken at the right interrupt, exactly once. */
module AlarmClock {
  import opened Objects
  import opened OrderedList
  import opened MlfqsMath
  import opened Scheduler
  import opened SchedulerInvariant
  import opened SchedulerTheorems

  lemma UrgencyIsNegated(wakeup: map<Thread, int>, t: Thread)
    ensures Key(Urgency(wakeup), t) == -Key(wakeup, t)
  {}

  lemma UnblockIgnoresSleepers(s: State, sleepers: seq<Thread>, t: Thread)
    ensures Unblock(s.(sleepers := sleepers), t) == Unblock(s, t).(sleepers := sleepers)
    ensures Unblock(s, t).wakeup == s.wakeup && Unblock(s, t).ticks == s.ticks
    ensures Unblock(s, t).sleepers == s.sleepers
  {}

  lemma WakeOneDue(s: State)
    requires s.sleepers != [] && Key(s.wakeup, s.sleepers[0]) <= s.ticks
    ensures WakeHeads(s) == WakeHeads(Unblock(s.(sleepers := s.sleepers[1..]), s.sleepers[0]))
  {
    hide Unblock;
  }

  lemma PopOneDue(s: State)
    requires s.sleepers != [] && Key(s.wakeup, s.sleepers[0]) <= s.ticks
    ensures var popped := Unblock(s.(sleepers := s.sleepers[1..]), s.sleepers[0]);
            && WakeHeads(s) == WakeHeads(popped)
            && popped.sleepers == s.sleepers[1..] && popped.wakeup == s.wakeup
            && popped.ticks == s.ticks
            && Due(s) == [s.sleepers[0]] + Due(popped) && NotDue(s) == NotDue(popped)
            && popped.(sleepers := NotDue(s)) == Unblock(s.(sleepers := NotDue(s)), s.sleepers[0])
  {
    hide Unblock, Urgency, WakeHeads, AtLeast, Below, Key;
    WakeOneDue(s);
    UrgencyIsNegated(s.wakeup, s.sleepers[0]);
    UnblockIgnoresSleepers(s, s.sleepers[1..], s.sleepers[0]);
    UnblockIgnoresSleepers(s, NotDue(s), s.sleepers[0]);
    SplitOfHead(s.sleepers, Urgency(s.wakeup), -s.ticks);
  }

  lemma NothingToWake(s: State)
    requires s.sleepers == [] || Key(s.wakeup, s.sleepers[0]) > s.ticks
    ensures WakeHeads(s) == s
  {}

  lemma NobodyDue(s: State)
    requires Sorted(s.sleepers, Urgency(s.wakeup))
    requires s.sleepers == [] || Key(s.wakeup, s.sleepers[0]) > s.ticks
    ensures Due(s) == [] && NotDue(s) == s.sleepers && WakeHeads(s) == s
  {
    hide WakeHeads, Sorted, AtLeast, Below, Key, Urgency;
    NothingToWake(s);
    if s.sleepers != [] {
      UrgencyIsNegated(s.wakeup, s.sleepers[0]);
    }
    AllBelow(s.sleepers, Urgency(s.wakeup), -s.ticks);
  }

  /** Popping the head of the sorted list while it is due wakes exactly the sleepers whose
      time has come, in list order, and leaves the others in list order. */
  lemma {:induction false} WakeHeadsIsSplit(s: State)
    requires Sorted(s.sleepers, Urgency(s.wakeup))
    ensures WakeHeads(s) == UnblockAll(s.(sleepers := NotDue(s)), Due(s))
    decreases |s.sleepers|
  {
    if s.sleepers == [] || Key(s.wakeup, s.sleepers[0]) > s.ticks {
      NobodyDue(s);
    } else {
      var first := s.sleepers[0];
      var popped := Unblock(s.(sleepers := s.sleepers[1..]), first);
      PopOneDue(s);
      HeadIsGreatest(s.sleepers, Urgency(s.wakeup));
      hide Unblock, WakeHeads, Due, NotDue;
      WakeHeadsIsSplit(popped);
      assert Due(s)[0] == first && Due(s)[1..] == Due(popped);
    }
  }

  lemma {:induction false} UnblockAllStatuses(s: State, ts: seq<Thread>)
    ensures UnblockAll(s, ts).sleepers == s.sleepers
    ensures forall t :: StatusOf(UnblockAll(s, ts), t) == if t in ts then Ready else StatusOf(s, t)
    decreases |ts|
  {
    if ts != [] {
      UnblockIgnoresSleepers(s, [], ts[0]);
      UnblockAllStatuses(Unblock(s, ts[0]), ts[1..]);
    }
  }

  /** What one timer interrupt does to a sleeper: it wakes him if and only if his tick
      has come, making him ready; nobody falls asleep. */
  lemma TickWakesExactlyTheDue(s: State, t: Thread)
    requires Invariant(s) && !s.scan
    ensures t in Step(s, Tick).sleepers <==> t in s.sleepers && Key(s.wakeup, t) > s.ticks + 1
    ensures t in s.sleepers && Key(s.wakeup, t) <= s.ticks + 1 ==> StatusOf(Effect(s, Tick), t) == Ready
    ensures Step(s, Tick).wakeup == s.wakeup && Step(s, Tick).ticks == s.ticks + 1
  {
    hide Invariant, Step, Effect, CountAndWake, ThreadTick, WakeHeads, Sorted, Urgency;
    var s1 := ThreadTick(s.(ticks := s.ticks + 1));
    TickBegins(s);
    TickLeavesSleepers(s);
    WakeHeadsTicks(s1);
    WakeHeadsWakesTheDue(s1, t);
  }

  lemma TickBegins(s: State)
    requires Invariant(s) && !s.scan
    ensures var s1 := ThreadTick(s.(ticks := s.ticks + 1));
            && s1.sleepers == s.sleepers && s1.wakeup == s.wakeup && s1.ticks == s.ticks + 1
            && Sorted(s1.sleepers, Urgency(s1.wakeup)) && CountAndWake(s) == WakeHeads(s1)
  {
    hide WakeHeads;
  }

  lemma WakeHeadsWakesTheDue(s: State, t: Thread)
    requires Sorted(s.sleepers, Urgency(s.wakeup))
    ensures t in WakeHeads(s).sleepers <==> t in s.sleepers && Key(s.wakeup, t) > s.ticks
    ensures t in s.sleepers && Key(s.wakeup, t) <= s.ticks ==> StatusOf(WakeHeads(s), t) == Ready
  {
    hide WakeHeads, UnblockAll, Unblock, AtLeast, Below, Sorted, Urgency;
    WakeHeadsIsSplit(s);
    UnblockAllStatuses(s.(sleepers := NotDue(s)), Due(s));
    SplitMembers(s.sleepers, Urgency(s.wakeup), -s.ticks, t);
    UrgencyIsNegated(s.wakeup, t);
  }

  /** After the wake-ups the handler leaves sleepers, deadlines and clock alone. */
  lemma TickLeavesSleepers(s: State)
    ensures Step(s, Tick).sleepers == CountAndWake(s).sleepers
    ensures Step(s, Tick).wakeup == CountAndWake(s).wakeup
    ensures Step(s, Tick).ticks == CountAndWake(s).ticks
    ensures Effect(s, Tick).status == CountAndWake(s).status
  {
    assert Effect(s, Tick) == Interrupt(s);
    assert Interrupt(s).sleepers == CountAndWake(s).sleepers && Interrupt(s).wakeup == CountAndWake(s).wakeup;
    assert Interrupt(s).ticks == CountAndWake(s).ticks && Interrupt(s).status == CountAndWake(s).status;
    hide CountAndWake, Interrupt, Schedule, WantsYield;
    if Dispatches(s, Tick) {
      LeaveCases(s, Tick);
      DequeueFrame(Leave(s, Tick));
    }
  }

  lemma SleeperIsNotCurrent(s: State, e: Event, t: Thread)
    requires Invariant(s) && Enabled(s, e) && t in s.sleepers
    ensures t != s.cur && t in s.all && (e.Enroll? ==> e.t !in s.all)
  {}

  /** No other event disturbs a sleeper. */
  lemma OthersLetSleep(s: State, e: Event, t: Thread)
    requires Invariant(s) && !s.scan && Enabled(s, e) && !e.Tick? && t in s.sleepers
    ensures t in Step(s, e).sleepers && Key(Step(s, e).wakeup, t) == Key(s.wakeup, t)
    ensures Step(s, e).ticks == s.ticks
  {
    hide Invariant, Enabled, Effect, Leave, Schedule, WantsYield;
    SleeperIsNotCurrent(s, e, t);
    EffectLetsSleep(s, e, t);
    LeaveLetsSleep(s, e, t);
    SleepWantsNoYield(s, e);
    if Dispatches(s, e) {
      DequeueFrame(Leave(s, e));
    }
  }

  lemma EffectLetsSleep(s: State, e: Event, t: Thread)
    requires !e.Tick? && t in s.sleepers && t != s.cur && t in s.all && (e.Enroll? ==> e.t !in s.all)
    requires !s.scan
    ensures t in Effect(s, e).sleepers && Key(Effect(s, e).wakeup, t) == Key(s.wakeup, t)
    ensures Effect(s, e).ticks == s.ticks
  {
    hide Effect, PriorityFor, ClampNice, Insert, PushAt, Without, Urgency;
    EffectIs(s, e);
    if e.Sleep? {
      MemberOfInsert(s.sleepers, Urgency(s.wakeup[s.cur := e.start + e.n]), s.cur, t);
    }
  }

  lemma LeaveLetsSleep(s: State, e: Event, t: Thread)
    requires !e.Tick? && t in Effect(s, e).sleepers && Effect(s, e).ticks == s.ticks
    ensures (e.Sleep? ==> e.n > 0) ==>
            && t in Leave(s, e).sleepers && Leave(s, e).ticks == s.ticks
            && Key(Leave(s, e).wakeup, t) == Key(Effect(s, e).wakeup, t)
  {
    BlockHasNoEffect(s);
    LeaveCases(s, e);
    hide Leave;
  }

  lemma BlockHasNoEffect(s: State)
    ensures Effect(s, Block) == s
  {}

  /** Whatever the others do, a sleeper stays asleep, and blocked, as long as no interrupt
      has reached his deadline. */
  lemma {:induction false} NeverWokenEarly(s: State, es: seq<Event>, t: Thread)
    requires Invariant(s) && !s.scan && CanRun(s, es) && t in s.sleepers
    requires TicksIn(es) == 0 || s.ticks + TicksIn(es) < Key(s.wakeup, t)
    ensures var s1 := Run(s, es);
            && t in s1.sleepers && StatusOf(s1, t) == Blocked
            && Key(s1.wakeup, t) == Key(s.wakeup, t) && s1.ticks == s.ticks + TicksIn(es)
    decreases |es|
  {
    if es != [] {
      var next := Step(s, es[0]);
      StepKeepsInvariant(s, es[0]);
      StepKeepsMode(s, es[0]);
      hide Invariant, Step;
      if es[0].Tick? {
        TickWakesExactlyTheDue(s, t);
      } else {
        OthersLetSleep(s, es[0], t);
      }
      NeverWokenEarly(next, es[1..], t);
    }
  }

  /** The current thread goes to sleep for n ticks counted from `start`, which it read
      before interrupts were disabled; es is whatever happens next, k interrupts in all.
      Until an interrupt reaches start + n it sleeps; the first one that does wakes it. */
  lemma AlarmIsExact(s: State, start: int, n: int, es: seq<Event>)
    requires Invariant(s) && !s.scan && n > 0 && Enabled(s, Sleep(start, n))
    requires CanRun(Step(s, Sleep(start, n)), es)
    ensures var (s1, k) := (Run(Step(s, Sleep(start, n)), es), TicksIn(es));
            && (k == 0 || s.ticks + k < start + n ==>
                  && s.cur in s1.sleepers && StatusOf(s1, s.cur) == Blocked
                  && (s.ticks + k + 1 < start + n ==> s.cur in Step(s1, Tick).sleepers)
                  && (s.ticks + k + 1 >= start + n ==>
                        && StatusOf(Effect(s1, Tick), s.cur) == Ready
                        && s.cur !in Step(s1, Tick).sleepers))
  {
    var e, t, k := Sleep(start, n), s.cur, TicksIn(es);
    var s0 := Step(s, e);
    StepKeepsInvariant(s, e);
    StepKeepsMode(s, e);
    EnterSleep(s, start, n);
    hide Invariant, Step, Effect;
    if k == 0 || s.ticks + k < start + n {
      NeverWokenEarly(s0, es, t);
      RunKeepsInvariant(s0, es);
      TickWakesExactlyTheDue(Run(s0, es), t);
    }
  }

  lemma EnterSleep(s: State, start: int, n: int)
    requires n > 0 && !s.scan
    ensures var s1 := Step(s, Sleep(start, n));
            s.cur in s1.sleepers && Key(s1.wakeup, s.cur) == start + n && s1.ticks == s.ticks
  {
    var e := Sleep(start, n);
    MemberOfInsert(s.sleepers, Urgency(s.wakeup[s.cur := start + n]), s.cur, s.cur);
    LeaveCases(s, e);
    hide Leave, Schedule, WantsYield;
    DequeueFrame(Leave(s, e));
  }
}
