/** The run queue as one FIFO line for each priority, in both modes: threads join a line at
    its end and are dispatched from its front. */
module QueueOrder {
  import opened Objects
  import opened OrderedList
  import opened Buckets
  import opened MlfqsMath
  import opened Scheduler
  import opened SchedulerInvariant
  import opened SchedulerTheorems
  import opened AlarmClock
  import opened MlfqsPriorities

  /** The queued threads of priority k, in the order in which they will be dispatched. */
  function Line(s: State, k: int): seq<Thread> {
    Class(Queue(s), s.priority, k)
  }

  /** ts, filtered for priority k. */
  function OfPriority(ts: seq<Thread>, s: State, k: int): seq<Thread> {
    Class(ts, s.priority, k)
  }

  lemma BucketLine(s: State, k: int)
    requires Shape(s) && Ordered(s) && s.mlfqs
    ensures Line(s, k) == if 0 <= k < BUCKETS then s.buckets[k] else []
  {
    if k >= 0 {
      ClassOfFlat(s.buckets, s.priority, k);
    } else {
      forall t | t in Queue(s)
        ensures Key(s.priority, t) != k
      {
        InPlaceMember(s.buckets, s.priority, t);
      }
      ClassIsEmpty(Queue(s), s.priority, k);
    }
  }

  lemma MakeReadyLine(s: State, x: Thread, k: int)
    requires Shape(s) && Ordered(s) && !s.scan && HasBucket(s.mlfqs, Key(s.priority, x))
    ensures Line(MakeReady(s, x), k) == Line(s, k) + OfPriority([x], s, k)
  {
    hide *;
    OfOne(s, x, k);
    if s.mlfqs {
      PushLine(s, x, k);
    } else {
      InsertLine(s, x, k);
    }
  }

  lemma PushedBuckets(s: State, x: Thread)
    requires Shape(s) && Ordered(s) && !s.scan && s.mlfqs && HasBucket(s.mlfqs, Key(s.priority, x))
    ensures var (p, s1) := (Key(s.priority, x), MakeReady(s, x));
            && 0 <= p < BUCKETS == |s.buckets| && s1.buckets == s.buckets[p := s.buckets[p] + [x]]
            && Shape(s1) && Ordered(s1) && s1.mlfqs
  {
    var s0 := SetStatus(s, x, Ready);
    assert Shape(s0) && Ordered(s0);
    EnqueueCounts(s0, x);
    EnqueueOrders(s0, x);
  }

  lemma PushLine(s: State, x: Thread, k: int)
    requires Shape(s) && Ordered(s) && !s.scan && s.mlfqs && HasBucket(s.mlfqs, Key(s.priority, x))
    ensures Line(MakeReady(s, x), k) == Line(s, k) + if Key(s.priority, x) == k then [x] else []
  {
    hide *;
    PushedBuckets(s, x);
    BucketLine(s, k);
    BucketLine(MakeReady(s, x), k);
    FrontOfSeq([x]);
    assert Line(s, k) + [] == Line(s, k);
  }

  lemma InsertLine(s: State, x: Thread, k: int)
    requires Ordered(s) && !s.scan && !s.mlfqs
    ensures Line(MakeReady(s, x), k) == Line(s, k) + if Key(s.priority, x) == k then [x] else []
  {
    assert Sorted(s.ready, s.priority);
    hide Class, Insert, Key, Sorted, Ordered;
    InsertIsFifo(s.ready, s.priority, x, k);
  }

  /** The front of the line of the highest priority is the next thread. */
  lemma ReadyFront(s: State, k: int)
    requires !s.mlfqs && !s.scan && s.ready != []
    ensures Line(s, k) == OfPriority([NextThread(s)], s, k) + Line(Dequeue(s), k)
  {
    hide Key, Class;
    assert s.ready == [s.ready[0]] + s.ready[1..];
    assert RemoveAt(s.ready, 0) == s.ready[1..];
    ClassOfConcat([s.ready[0]], s.ready[1..], s.priority, k);
  }

  lemma TopBucket(s: State)
    requires Shape(s) && Ordered(s) && s.mlfqs && Queue(s) != []
    ensures var p := Top(s.buckets);
            && 0 <= p < BUCKETS && s.buckets[p] != [] && NextThread(s) == s.buckets[p][0]
            && Key(s.priority, s.buckets[p][0]) == p && Dequeue(s).mlfqs && Dequeue(s).priority == s.priority
            && Dequeue(s).buckets == s.buckets[p := s.buckets[p][1..]]
  {
    EmptyTop(s.buckets);
  }

  lemma BucketFront(s: State, k: int)
    requires Shape(s) && Ordered(s) && s.mlfqs && Queue(s) != []
    ensures Line(s, k) == OfPriority([NextThread(s)], s, k) + Line(Dequeue(s), k)
  {
    hide *;
    TopBucket(s);
    DequeueOrders(s);
    var p := Top(s.buckets);
    OfOne(s, NextThread(s), k);
    BucketLine(s, k);
    BucketLine(Dequeue(s), k);
    FrontOfSeq(s.buckets[p]);
    BucketCount(s);
  }

  lemma BucketCount(s: State)
    requires Shape(s)
    ensures |s.buckets| == BUCKETS
  {}

  lemma OfOne(s: State, t: Thread, k: int)
    ensures OfPriority([t], s, k) == if Key(s.priority, t) == k then [t] else []
  {
    ClassOfOne(t, s.priority, k);
  }

  lemma FrontOfSeq<T>(ts: seq<T>)
    requires ts != []
    ensures ts == [ts[0]] + ts[1..]
    ensures forall us: seq<T> :: [] + us == us
  {}

  /** A dispatch takes the front of the line of the highest priority. */
  lemma DispatchLine(s: State, k: int)
    requires Core(s) && !s.scan
    ensures Line(s, k) == (if Queue(s) == [] then [] else OfPriority([Schedule(s).cur], s, k)) + Line(Schedule(s), k)
  {
    DispatchFrame(s);
    CoreShape(s);
    hide *;
    PrivateLine(Dequeue(s), Schedule(s), k);
    DequeueCounts(s);
    if Queue(s) == [] {
      FrontOfSeq([s.idle]);
    } else if s.mlfqs {
      BucketFront(s, k);
    } else {
      ReadyFront(s, k);
    }
  }

  lemma CoreShape(s: State)
    requires Core(s)
    ensures Shape(s) && Ordered(s) && (!s.mlfqs ==> Queue(s) == s.ready)
  {}

  lemma DispatchFrame(s: State)
    ensures Schedule(s).cur == NextThread(s) && Schedule(s).priority == s.priority == Dequeue(s).priority
    ensures Queue(Schedule(s)) == Queue(Dequeue(s))
  {
    DequeueFrame(s);
  }

  lemma PrivateLine(s: State, s1: State, k: int)
    requires Queue(s1) == Queue(s) && forall t :: t in Queue(s) ==> Key(s1.priority, t) == Key(s.priority, t)
    ensures Line(s1, k) == Line(s, k)
  {
    ClassAgrees(Queue(s), s.priority, s1.priority, k);
  }

  lemma UnblockLine(s: State, t: Thread, k: int)
    requires Core(s) && !s.scan
    requires t in s.all && t != s.idle && StatusOf(s, t) == Blocked && t !in s.sleepers
    ensures Line(Unblock(s, t), k) == Line(s, k) + OfPriority([t], Unblock(s, t), k)
  {
    var s1 := s.(priority := if s.mlfqs then Reprioritised(s, t) else s.priority);
    assert Unblock(s, t) == MakeReady(s1, t);
    NotQueued(s, t);
    NewPriorityKeepsCore(s, t);
    MakeReadyFrame(s1, t);
    CoreMeans(s1, t);
    PrivateLine(s, s1, k);
    hide Core, Unblock, MakeReady, Line;
    MakeReadyLine(s1, t, k);
  }

  lemma CoreMeans(s: State, t: Thread)
    requires Core(s) && t in s.all
    ensures Shape(s) && Ordered(s) && HasBucket(s.mlfqs, Key(s.priority, t))
  {}

  // ----- wake-ups -----

  /** The sleepers that a pass of timer_wakeup pops join their lines in its order. */
  lemma {:induction false} WakeHeadsLine(s: State, k: int)
    requires Core(s) && OnlyCurrentRuns(s) && !s.scan
    ensures Line(WakeHeads(s), k) == Line(s, k) + OfPriority(Due(s), WakeHeads(s), k)
    decreases |s.sleepers|
  {
    SleepersMean(s);
    hide *;
    if s.sleepers == [] || Key(s.wakeup, s.sleepers[0]) > s.ticks {
      NobodyDue(s);
      OfNobody(s, k);
    } else {
      var first := s.sleepers[0];
      var s0 := s.(sleepers := s.sleepers[1..]);
      var popped := Unblock(s0, first);
      PopSleeperKeepsCore(s);
      QueueIgnoresSleepers(s, s.sleepers[1..], k);
      UnblockKeepsCore(s0, first);
      UnblockLine(s0, first, k);
      PopOneDue(s);
      SleepersMean(popped);
      WakeHeadsLine(popped, k);
      WakeHeadsPriorities(popped, first);
      OfOne(popped, first, k);
      OfOne(WakeHeads(popped), first, k);
      OfConcat([first], Due(popped), WakeHeads(s), k);
      Associates(Line(s, k), OfPriority([first], popped, k), OfPriority(Due(popped), WakeHeads(s), k));
    }
  }

  lemma Associates<T>(a: seq<T>, b: seq<T>, c: seq<T>)
    ensures a + b + c == a + (b + c)
  {}

  lemma OfConcat(a: seq<Thread>, b: seq<Thread>, s: State, k: int)
    ensures OfPriority(a + b, s, k) == OfPriority(a, s, k) + OfPriority(b, s, k)
  {
    ClassOfConcat(a, b, s.priority, k);
  }

  lemma OfNobody(s: State, k: int)
    ensures OfPriority([], s, k) == [] && Line(s, k) + [] == Line(s, k)
  {}

  lemma SleepersMean(s: State)
    requires Core(s) && !s.scan
    ensures Sorted(s.sleepers, Urgency(s.wakeup)) && s.idle !in s.sleepers
    ensures s.sleepers != [] ==>
              var t := s.sleepers[0]; t in s.all && t != s.idle && StatusOf(s, t) == Blocked
    ensures OnlyCurrentRuns(s) ==> OnlyCurrentRuns(s.(sleepers := if s.sleepers == [] then [] else s.sleepers[1..]))
  {}

  lemma QueueIgnoresSleepers(s: State, sleepers: seq<Thread>, k: int)
    ensures Line(s.(sleepers := sleepers), k) == Line(s, k)
    ensures StatusOf(s.(sleepers := sleepers), s.cur) == StatusOf(s, s.cur)
    ensures forall t :: StatusOf(s.(sleepers := sleepers), t) == StatusOf(s, t)
  {}

  // ----- events -----

  /** e re-forms the lines: the fourth tick under MLFQS, which changes priorities. */
  predicate Reforms(s: State, e: Event) {
    s.mlfqs && e.Tick? && (s.ticks + 1) % 4 == 0
  }

  /** The threads that e makes ready, in the order in which it does. */
  function Woken(s: State, e: Event): seq<Thread> {
    match e
    case Wake(t) => [t]
    case Tick => AtLeast(s.sleepers, Urgency(s.wakeup), -(s.ticks + 1))
    case _ => []
  }

  /** The running thread, if e puts it back in the queue. */
  function Requeued(s: State, e: Event): seq<Thread> {
    if Dispatches(s, e) && !e.Block? && !e.Exit? && !e.Sleep? && s.cur != s.idle then [s.cur] else []
  }

  function Joined(s: State, e: Event): seq<Thread> {
    Woken(s, e) + Requeued(s, e)
  }

  /** The thread that e takes out of the queue and dispatches. */
  function Taken(s: State, e: Event): seq<Thread> {
    if Dispatches(s, e) && Step(s, e).cur != s.idle then [Step(s, e).cur] else []
  }

  lemma TickBeginsLine(s: State, k: int)
    requires Core(s) && OnlyCurrentRuns(s) && !s.scan
    ensures var s1 := ThreadTick(s.(ticks := s.ticks + 1));
            && Core(s1) && OnlyCurrentRuns(s1) && !s1.scan && Line(s1, k) == Line(s, k)
            && Due(s1) == Woken(s, Tick) && CountAndWake(s) == WakeHeads(s1)
  {
    TickCountKeepsCore(s);
    ThreadTickKeepsCore(s.(ticks := s.ticks + 1));
    CountAndWakeIs(s);
    hide Core, OnlyCurrentRuns, WakeHeads, AtLeast;
  }

  lemma TickEnds(s: State, k: int)
    requires !s.scan && !Reforms(s, Tick)
    ensures Effect(s, Tick).priority == CountAndWake(s).priority
    ensures Line(Effect(s, Tick), k) == Line(CountAndWake(s), k)
  {
    CountAndWakeFrame(s);
    hide CountAndWake, Class, Flat, NewPriorities, DecayedCpus;
  }

  lemma TickLine(s: State, k: int)
    requires Core(s) && OnlyCurrentRuns(s) && !s.scan && !Reforms(s, Tick)
    ensures Line(Effect(s, Tick), k) == Line(s, k) + OfPriority(Woken(s, Tick), Effect(s, Tick), k)
  {
    var s1 := ThreadTick(s.(ticks := s.ticks + 1));
    hide Line, Core, OnlyCurrentRuns, Reforms, Woken, Effect, CountAndWake, WakeHeads, ThreadTick, Class;
    TickBeginsLine(s, k);
    WakeHeadsLine(s1, k);
    TickEnds(s, k);
  }

  /** Events in thread context that wake nobody change no queued thread's priority. */
  lemma QuietLine(s: State, e: Event, k: int)
    requires Core(s) && OnlyCurrentRuns(s) && !s.scan && Enabled(s, e) && !e.Wake? && !e.Tick?
    ensures Line(Effect(s, e), k) == Line(s, k) && Woken(s, e) == []
  {
    NotQueued(s, s.cur);
    if e.Enroll? {
      NotQueued(s, e.t);
    }
    EffectIs(s, e);
    hide Effect, Class, PriorityFor, ClampNice, Insert, Urgency, Core, OnlyCurrentRuns;
    PrivateLine(s, Effect(s, e), k);
  }

  lemma EffectLine(s: State, e: Event, k: int)
    requires Core(s) && OnlyCurrentRuns(s) && !s.scan && Enabled(s, e) && !Reforms(s, e)
    ensures Line(Effect(s, e), k) == Line(s, k) + OfPriority(Woken(s, e), Effect(s, e), k)
  {
    EffectIs(s, e);
    hide Effect, Line, Class, Core, OnlyCurrentRuns, Unblock, Interrupt;
    if e.Tick? {
      TickLine(s, k);
    } else if e.Wake? {
      UnblockLine(s, e.t, k);
    } else {
      QuietLine(s, e, k);
      OfNobody(Effect(s, e), k);
    }
  }

  lemma RequeueLine(s: State, k: int)
    requires Core(s) && OnlyCurrentRuns(s) && !s.scan
    ensures Line(Requeue(s), k) == Line(s, k) + OfPriority(if s.cur == s.idle then [] else [s.cur], s, k)
  {
    OfNobody(s, k);
    CoreMeans(s, s.cur);
    if s.cur != s.idle {
      assert Requeue(s) == MakeReady(s, s.cur);
      hide Core, OnlyCurrentRuns, Requeue, MakeReady, Line, Class;
      MakeReadyLine(s, s.cur, k);
    }
  }

  lemma BlockedLine(s: State, k: int)
    ensures Line(SetStatus(s, s.cur, Blocked), k) == Line(s, k)
  {}

  /** At the dispatch the current thread has joined its line, or left altogether. */
  lemma LeaveLine(s: State, e: Event, k: int)
    requires Core(s) && OnlyCurrentRuns(s) && !s.scan && Enabled(s, e) && Dispatches(s, e)
    ensures Line(Leave(s, e), k) == Line(Effect(s, e), k) + OfPriority(Requeued(s, e), Leave(s, e), k)
    ensures Leave(s, e).priority == Effect(s, e).priority && Leave(s, e).idle == s.idle
  {
    LeaveCases(s, e);
    EffectIs(s, e);
    SleepWantsNoYield(s, e);
    LeaveRecords(s, e);
    LeaveFrame(s, e);
    EffectFrame(s, e);
    OfNobody(Effect(s, e), k);
    OfNobody(Leave(s, e), k);
    hide Core, OnlyCurrentRuns, Requeue, Line, Class, Effect, Leave, FallAsleep, Forget, WantsYield, Enabled;
    if e.Block? {
      BlockedLine(s, k);
    } else if e.Sleep? {
      BlockedLine(FallAsleep(s, e.start + e.n), k);
    } else if !e.Exit? {
      EffectKeepsCore(s, e);
      EffectKeepsCurrent(s, e);
      RequeueLine(Effect(s, e), k);
      SamePriorities([s.cur], Effect(s, e), Leave(s, e), k);
    }
  }

  lemma SamePriorities(ts: seq<Thread>, s: State, s1: State, k: int)
    requires s1.priority == s.priority
    ensures OfPriority(ts, s1, k) == OfPriority(ts, s, k)
  {}

  lemma SchedulesHighest(s: State)
    requires Core(s) && !s.scan
    ensures Schedule(s).cur == s.idle <==> Queue(s) == []
    ensures Schedule(s).priority == s.priority
  {
    DispatchTakesHighest(s);
    DispatchFrame(s);
  }

  lemma DispatchCases(s: State, e: Event)
    ensures Dispatches(s, e) ==> Step(s, e) == Schedule(Leave(s, e)) && (e.Sleep? ==> e.n > 0)
    ensures e.Exit? || e.Sleep? ==> Enabled(s, e) ==> s.cur != s.idle
    ensures !Dispatches(s, e) ==> Step(s, e) == Effect(s, e)
    ensures Taken(s, e) == if Dispatches(s, e) && Step(s, e).cur != s.idle then [Step(s, e).cur] else []
    ensures !Dispatches(s, e) ==> Requeued(s, e) == []
    ensures Joined(s, e) == Woken(s, e) + Requeued(s, e)
  {
    SleepWantsNoYield(s, e);
    hide Schedule, Leave, Effect, WantsYield, Woken;
  }

  /** Each line is a FIFO queue: whatever joins goes to its end, and a dispatch takes the front
      of the line of the highest priority. */
  lemma StepLine(s: State, e: Event, k: int)
    requires Invariant(s) && !s.scan && Enabled(s, e) && !Reforms(s, e)
    ensures Line(s, k) + OfPriority(Joined(s, e), Step(s, e), k)
            == OfPriority(Taken(s, e), Step(s, e), k) + Line(Step(s, e), k)
  {
    InvariantMeans(s);
    hide *;
    var s1 := Effect(s, e);
    DispatchCases(s, e);
    EffectLine(s, e, k);
    if Dispatches(s, e) {
      var s2 := Leave(s, e);
      LeaveLine(s, e, k);
      LeaveKeepsCore(s, e);
      LeaveFrame(s, e);
      SchedulesHighest(s2);
      DispatchLine(s2, k);
      SamePriorities(Woken(s, e), s1, Step(s, e), k);
      SamePriorities(Requeued(s, e), s2, Step(s, e), k);
      SamePriorities([Step(s, e).cur], s2, Step(s, e), k);
      OfConcat(Woken(s, e), Requeued(s, e), Step(s, e), k);
      OfNobody(Step(s, e), k);
      Associates(Line(s, k), OfPriority(Woken(s, e), Step(s, e), k), OfPriority(Requeued(s, e), Step(s, e), k));
    } else {
      OfConcat(Woken(s, e), Requeued(s, e), Step(s, e), k);
      OfNobody(Step(s, e), k);
      NothingInFront(Line(Step(s, e), k), OfPriority(Woken(s, e), Step(s, e), k));
    }
  }

  lemma NothingInFront<T>(a: seq<T>, b: seq<T>)
    ensures [] + a == a && b + [] == b
  {}

  // ----- runs -----

  /** No event of the run re-forms the lines. */
  predicate Steady(s: State, es: seq<Event>)
    decreases |es|
  {
    es == [] || (!Reforms(s, es[0]) && Steady(Step(s, es[0]), es[1..]))
  }

  /** The threads that join line k during the run, in order. */
  function AllJoined(s: State, es: seq<Event>, k: int): seq<Thread>
    decreases |es|
  {
    if es == [] then []
    else
      var next := Step(s, es[0]);
      OfPriority(Joined(s, es[0]), next, k) + AllJoined(next, es[1..], k)
  }

  /** The threads dispatched from line k during the run, in order. */
  function AllTaken(s: State, es: seq<Event>, k: int): seq<Thread>
    decreases |es|
  {
    if es == [] then []
    else
      var next := Step(s, es[0]);
      OfPriority(Taken(s, es[0]), next, k) + AllTaken(next, es[1..], k)
  }

  /** First come, first served: over any run, in priority mode or between two re-orderings of
      the buckets, the threads of a priority are dispatched in exactly the order in which they
      were queued. */
  lemma {:induction false} RunLine(s: State, es: seq<Event>, k: int)
    requires Invariant(s) && !s.scan && CanRun(s, es) && Steady(s, es)
    ensures Line(s, k) + AllJoined(s, es, k) == AllTaken(s, es, k) + Line(Run(s, es), k)
    decreases |es|
  {
    hide Step, Invariant, Enabled, Line, OfPriority, Joined, Taken, Reforms;
    if es == [] {
      NothingInFront(Line(s, k), Line(s, k));
    } else {
      var next := Step(s, es[0]);
      StepLine(s, es[0], k);
      StepKeepsInvariant(s, es[0]);
      StepKeepsMode(s, es[0]);
      RunLine(next, es[1..], k);
      var (j, t) := (OfPriority(Joined(s, es[0]), next, k), OfPriority(Taken(s, es[0]), next, k));
      Associates(Line(s, k), j, AllJoined(next, es[1..], k));
      Associates(t, Line(next, k), AllJoined(next, es[1..], k));
      Associates(t, AllTaken(next, es[1..], k), Line(Run(s, es), k));
    }
  }

  /** The fourth tick under MLFQS: each new line holds its threads in the order in which the
      old lines had them, the lowest line first. */
  lemma ReformedLine(s: State, k: int)
    requires Core(s) && s.mlfqs && s.ticks % 4 == 0 && 0 <= k < BUCKETS
    ensures Line(Reprioritise(s), k) == OfPriority(Flat(s.buckets), Reprioritise(s), k)
  {
    RebucketedQueue(s);
    NewPrioritiesInRange(s);
    assert forall t :: t in Flat(s.buckets) ==> t in Queue(s);
    hide NewPriorities, Rebucket;
    RebucketIsSound(s.buckets, NewPriorities(s));
  }
}
