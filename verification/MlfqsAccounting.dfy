/** What every run does to load_avg and recent_cpu: the machine follows the documented
    recurrences, at the documented ticks and with the documented ready counts. */
module MlfqsAccounting {
  import opened Objects
  import opened OrderedList
  import opened MlfqsMath
  import opened Scheduler
  import opened SchedulerInvariant
  import opened SchedulerTheorems
  import FixedPoint

  // ----- load_avg -----

  /** e is a timer interrupt that begins a full second. */
  predicate EndsSecond(s: State, e: Event) {
    e.Tick? && (s.ticks + 1) % 100 == 0
  }

  /** The clock counts the timer interrupts. */
  lemma StepCountsTicks(s: State, e: Event)
    requires !s.scan
    ensures Step(s, e).ticks == s.ticks + if e.Tick? then 1 else 0
  {
    hide Step, Interrupt, CountAndWake;
    if e.Tick? {
      TickAccounting(s);
      CountAndWakeFrame(s);
      InterruptAccounting(s);
    } else {
      AccountingFrame(s, e);
    }
  }

  lemma InterruptAccounting(s: State)
    ensures var s0 := CountAndWake(s);
            && Interrupt(s).ticks == s0.ticks && Interrupt(s).nice == s0.nice && Interrupt(s).all == s0.all
            && Interrupt(s).recentCpu == (if s0.mlfqs && s0.ticks % 100 == 0
                                          then DecayedCpus(Reprioritise(s0)) else s0.recentCpu)
            && Interrupt(s).loadAvg == if s0.mlfqs && s0.ticks % 100 == 0
                                       then LoadAvgAfter(s0.loadAvg, ReadyThreads(Reprioritise(s0)))
                                       else s0.loadAvg
  {
    hide CountAndWake, DecayedCpus, LoadAvgAfter, ReadyThreads, NewPriorities;
  }

  /** load_avg changes at full seconds only, with the count of the threads that are ready or
      running after the interrupt, its wake-ups included. */
  lemma StepLoad(s: State, e: Event)
    requires Invariant(s) && !s.scan && s.mlfqs && Enabled(s, e)
    ensures Step(s, e).loadAvg
            == if EndsSecond(s, e) then LoadAvgAfter(s.loadAvg, Crowd(Step(s, e))) else s.loadAvg
  {
    assert e.Tick? ==> e == Tick;
    assert EndsSecond(s, e) <==> e.Tick? && (s.ticks + 1) % 100 == 0;
    hide *;
    if e.Tick? {
      InvariantMeans(s);
      TickLoad(s);
      TickKeepsCrowd(s);
      StepKeepsInvariant(s, e);
      StepKeepsMode(s, e);
      ReadyThreadsIsTheCrowd(Step(s, e));
    } else {
      AccountingFrame(s, e);
    }
  }

  lemma TickLoad(s: State)
    requires !s.scan && s.mlfqs
    ensures Step(s, Tick).loadAvg
            == if (s.ticks + 1) % 100 == 0
               then LoadAvgAfter(s.loadAvg, ReadyThreads(Reprioritise(CountAndWake(s))))
               else s.loadAvg
  {
    hide *;
    TickAccounting(s);
    CountAndWakeFrame(s);
    CountAndWakeAccounting(s);
    InterruptAccounting(s);
  }

  /** The crowds at the full seconds of a run. */
  ghost function Readies(s: State, es: seq<Event>): seq<nat>
    decreases |es|
  {
    if es == [] then []
    else
      var next := Step(s, es[0]);
      (if EndsSecond(s, es[0]) then [Crowd(next)] else []) + Readies(next, es[1..])
  }

  lemma {:induction false} LoadRunFromFront(load: int, r: nat, readies: seq<nat>)
    ensures LoadRun(load, [r] + readies) == LoadRun(LoadAvgAfter(load, r), readies)
    decreases |readies|
  {
    hide LoadAvgAfter;
    var n := |readies|;
    if n == 0 {
      assert [r] + readies == [r] && [r][..0] == [];
      assert LoadRun(load, [r]) == LoadAvgAfter(LoadRun(load, []), r);
    } else {
      LoadRunFromFront(load, r, readies[..n - 1]);
      assert ([r] + readies)[..n] == [r] + readies[..n - 1];
    }
  }

  /** Over every run load_avg is the recurrence, fed with the crowds at the full seconds. */
  lemma {:induction false} RunFollowsLoad(s: State, es: seq<Event>)
    requires Invariant(s) && !s.scan && s.mlfqs && CanRun(s, es)
    ensures Run(s, es).loadAvg == LoadRun(s.loadAvg, Readies(s, es))
    decreases |es|
  {
    hide Step, Invariant, Enabled, LoadAvgAfter, Crowd, EndsSecond;
    if es != [] {
      var next := Step(s, es[0]);
      StepLoad(s, es[0]);
      StepKeepsInvariant(s, es[0]);
      StepKeepsMode(s, es[0]);
      RunFollowsLoad(next, es[1..]);
      if EndsSecond(s, es[0]) {
        LoadRunFromFront(s.loadAvg, Crowd(next), Readies(next, es[1..]));
      } else {
        assert [] + Readies(next, es[1..]) == Readies(next, es[1..]);
      }
    }
  }

  lemma {:induction false} ReadiesAreBounded(s: State, es: seq<Event>, most: nat)
    requires Invariant(s) && !s.scan && s.mlfqs && CanRun(s, es) && Uncrowded(s, es, most)
    ensures forall i :: 0 <= i < |Readies(s, es)| ==> Readies(s, es)[i] <= most
    decreases |es|
  {
    hide Step, Invariant, Enabled, Crowd, EndsSecond, ReadyThreads;
    if es != [] {
      var next := Step(s, es[0]);
      StepKeepsInvariant(s, es[0]);
      StepKeepsMode(s, es[0]);
      ReadiesAreBounded(next, es[1..], most);
      ReadyThreadsIsTheCrowd(next);
      assert Uncrowded(next, es[1..], most);
    }
  }

  /** From boot, the machine's load_avg is the recurrence from 0, and with at most `most`
      competitors it never exceeds the documented average over the reals and lags it by at
      most 60 * (most + 1) units, however long the run. */
  lemma MachineTracksLoad(main: Thread, idle: Thread, es: seq<Event>, most: nat)
    requires main != idle && CanRun(Boot(true, main, idle), es)
    ensures var s := Boot(true, main, idle);
            && Run(s, es).loadAvg == LoadRun(0, Readies(s, es))
            && (Uncrowded(s, es, most) ==>
                  0.0 <= FixedPoint.F as real * ExactLoadRun(0.0, Readies(s, es)) - Run(s, es).loadAvg as real
                      <= 60.0 * (most + 1) as real)
  {
    var s := Boot(true, main, idle);
    BootIsFine(true, main, idle);
    assert s.mlfqs && !s.scan && s.loadAvg == 0;
    hide *;
    RunFollowsLoad(s, es);
    if Uncrowded(s, es, most) {
      ReadiesAreBounded(s, es, most);
      LoadAvgTracksExact(Readies(s, es), most);
    }
  }

  // ----- recent_cpu -----

  /** What a timer interrupt charges t. */
  function Charge(s: State, t: Thread): int {
    if t == s.cur && t != s.idle then FixedPoint.F else 0
  }

  /** At full seconds recent_cpu decays by the load_avg from before the interrupt, after the
      charge; otherwise only the running thread is charged.  Nice values stay. */
  lemma TickRecentCpu(s: State, t: Thread)
    requires Invariant(s) && !s.scan && s.mlfqs && t in s.all
    ensures var charged := Key(s.recentCpu, t) + Charge(s, t);
            Key(Step(s, Tick).recentCpu, t)
            == if EndsSecond(s, Tick) && t != s.idle then RecentCpuAfter(s.loadAvg, charged, Key(s.nice, t))
               else charged
  {
    assert EndsSecond(s, Tick) <==> (s.ticks + 1) % 100 == 0;
    hide *;
    InvariantMeans(s);
    TickCpus(s);
    CountAndWakeFrame(s);
    CountAndWakeAccounting(s);
    ChargedCpu(s, t);
    DecayedCpusAre(CountAndWake(s), t);
  }

  lemma TickCpus(s: State)
    requires !s.scan && s.mlfqs
    ensures Step(s, Tick).recentCpu
            == if (s.ticks + 1) % 100 == 0 then DecayedCpus(Reprioritise(CountAndWake(s)))
               else CountAndWake(s).recentCpu
  {
    hide *;
    TickAccounting(s);
    CountAndWakeFrame(s);
    InterruptAccounting(s);
  }

  lemma ChargedCpu(s: State, t: Thread)
    requires !s.scan && s.mlfqs
    ensures Key(CountAndWake(s).recentCpu, t) == Key(s.recentCpu, t) + Charge(s, t)
  {
    hide CountAndWake;
    CountAndWakeAccounting(s);
  }

  lemma DecayedCpusAre(s: State, t: Thread)
    requires t in s.all
    ensures Key(DecayedCpus(Reprioritise(s)), t)
            == if t == s.idle then Key(s.recentCpu, t)
               else RecentCpuAfter(s.loadAvg, Key(s.recentCpu, t), Key(s.nice, t))
  {
    hide RecentCpuAfter, NewPriorities;
  }

  /** The same in the terms of the formula. */
  lemma FullSecondDecays(s: State, t: Thread, c: int, q: int)
    requires Invariant(s) && !s.scan && s.mlfqs && t in s.all && t != s.idle
    requires (s.ticks + 1) % 100 == 0 && s.loadAvg >= 0
    requires FixedPoint.IsTruncated(2 * s.loadAvg * FixedPoint.F, 2 * s.loadAvg + FixedPoint.F,
                                    c * (2 * s.loadAvg + FixedPoint.F))
    requires FixedPoint.IsTruncated(c * (Key(s.recentCpu, t) + Charge(s, t)), FixedPoint.F,
                                    (q - Key(s.nice, t) * FixedPoint.F) * FixedPoint.F)
    ensures Key(Step(s, Tick).recentCpu, t) == q
  {
    hide Step, Invariant, RecentCpuAfter;
    TickRecentCpu(s, t);
    RecentCpuIsTheFormula(s.loadAvg, Key(s.recentCpu, t) + Charge(s, t), Key(s.nice, t), c, q);
  }

  /** Apart from timer interrupts, recent_cpu changes only by inheritance: a new thread takes
      that of its creator. */
  lemma StepRecentCpu(s: State, e: Event, t: Thread)
    requires Invariant(s) && !s.scan && s.mlfqs && Enabled(s, e) && !e.Tick? && t in Step(s, e).all
    ensures t in s.all ==> Key(Step(s, e).recentCpu, t) == Key(s.recentCpu, t)
    ensures t !in s.all ==> e.Enroll? && t == e.t && Key(Step(s, e).recentCpu, t) == Key(s.recentCpu, s.cur)
  {
    hide Step, Invariant, PriorityFor;
    AccountingFrame(s, e);
    if e.Exit? {
      WithoutMembers(s.all, s.cur, t);
    }
  }
}
