/** Semaphores and the scheduler together: sema_down blocks through thread_block, sema_up
    readies through thread_unblock and may yield.  Whatever else the kernel does, the
    threads queued on a semaphore stay blocked, so thread_unblock's assertion holds. */
module SemaKernel {
  import opened Objects
  import opened OrderedList
  import opened MlfqsMath
  import opened Buckets
  import opened Scheduler
  import opened SchedulerInvariant
  import opened SchedulerTheorems
  import opened AlarmClock
  import opened Semaphores
  import opened Synch
  import opened Machine
  import opened Options
  import opened Preemption
  import LifeCycle

  /** w is blocked on something other than the clock. */
  ghost predicate Parked(s: State, w: Thread) {
    w in s.all && w != s.idle && StatusOf(s, w) == Blocked && w !in s.sleepers
  }

  // ----- a parked thread stays parked -----

  lemma ScheduleLeavesParked(s: State, w: Thread)
    requires Core(s) && !s.scan && Parked(s, w)
    ensures Parked(Schedule(s), w)
  {
    assert NextThread(s) != w by {
      NextIsHighest(s);
      if Queue(s) != [] {
        QueuedThread(s, NextThread(s));
      } else {
        EmptyQueueMeansIdle(s);
      }
    }
    hide Core, NextThread;
    DequeueFrame(s);
  }

  lemma EmptyQueueMeansIdle(s: State)
    requires Shape(s) && Queue(s) == []
    ensures NextThread(s) == s.idle
  {
    EmptyTop(s.buckets);
  }

  lemma TickLeavesParked(s: State, w: Thread)
    requires Invariant(s) && !s.scan && Parked(s, w)
    ensures Parked(Effect(s, Tick), w)
  {
    hide Invariant, Step, CountAndWake, ThreadTick, WakeHeads, Sorted, Urgency;
    var s1 := ThreadTick(s.(ticks := s.ticks + 1));
    TickBegins(s);
    LifeCycle.TickKeepsRoster(s);
    WakeHeadsIsSplit(s1);
    hide Effect, UnblockAll, AtLeast, Below;
    UnblockAllStatuses(s1.(sleepers := NotDue(s1)), Due(s1));
    SplitMembers(s1.sleepers, Urgency(s1.wakeup), -s1.ticks, w);
  }

  lemma QuietEffectLeavesParked(s: State, e: Event, w: Thread)
    requires Parked(s, w) && w != s.cur && !s.scan && !e.Tick? && e != Wake(w)
    requires e.Enroll? ==> e.t !in s.all
    ensures Parked(Effect(s, e), w)
  {
    hide Effect, PriorityFor, ClampNice, Insert, PushAt, Without, Urgency;
    EffectIs(s, e);
    if e.Exit? {
      WithoutMembers(s.all, s.cur, w);
    } else if e.Sleep? {
      MemberOfInsert(s.sleepers, Urgency(s.wakeup[s.cur := e.start + e.n]), s.cur, w);
    }
  }

  lemma EffectLeavesParked(s: State, e: Event, w: Thread)
    requires Invariant(s) && !s.scan && Enabled(s, e) && e != Wake(w) && Parked(s, w) && w != s.cur
    ensures Parked(Effect(s, e), w)
  {
    hide Invariant, Effect, Parked;
    if e.Tick? {
      TickLeavesParked(s, w);
    } else {
      QuietEffectLeavesParked(s, e, w);
    }
  }

  lemma RequeueLeavesParked(s: State, w: Thread)
    requires Parked(s, w) && w != s.cur
    ensures Parked(Requeue(s), w)
  {}

  lemma LeaveLeavesParked(s: State, e: Event, w: Thread)
    requires Parked(Effect(s, e), w) && w != s.cur && !s.scan && (e.Sleep? ==> e.n > 0)
    ensures Parked(Leave(s, e), w)
  {
    EffectKeepsCurrent(s, e);
    LeaveCases(s, e);
    BlockHasNoEffect(s);
    SleepEffect(s, e);
    hide Effect, Leave, Requeue;
    if !e.Block? && !e.Exit? && !e.Sleep? {
      RequeueLeavesParked(Effect(s, e), w);
    }
  }

  lemma SleepEffect(s: State, e: Event)
    ensures e.Exit? ==> Effect(s, e) == Forget(s, s.cur)
    ensures e.Sleep? && e.n > 0 ==> Effect(s, e) == FallAsleep(s, e.start + e.n)
  {}

  /** No event but its own wake-up unblocks a parked thread, puts it to sleep, or ends it. */
  lemma ParkedStays(s: State, e: Event, w: Thread)
    requires Invariant(s) && !s.scan && Enabled(s, e) && e != Wake(w) && Parked(s, w)
    ensures Parked(Step(s, e), w)
  {
    assert w != s.cur;
    hide WantsYield, Effect, Leave, Schedule, Core, OnlyCurrentRuns, Parked, Enabled;
    SleepWantsNoYield(s, e);
    EffectLeavesParked(s, e, w);
    if Dispatches(s, e) {
      DispatchingNeedsThread(s, e);
      LeaveKeepsCore(s, e);
      LeaveFrame(s, e);
      LeaveLeavesParked(s, e, w);
      ScheduleLeavesParked(Leave(s, e), w);
    }
  }

  lemma DispatchingNeedsThread(s: State, e: Event)
    requires Enabled(s, e)
    ensures e.Exit? || e.Sleep? ==> s.cur != s.idle
  {}

  // ----- the joint machine -----

  datatype Joint = Joint(s: State, q: Sema)

  /** DownPass is one pass of the current thread through the loop of sema_down, UpCall one
      call of sema_up by a thread, UpInInterrupt one by an interrupt handler, Other any event
      of the scheduler that does not wake a thread queued on this semaphore. */
  datatype JointEvent = DownPass | UpCall | UpInInterrupt | Other(e: Event)

  predicate JointEnabled(j: Joint, e: JointEvent) {
    match e
    case DownPass => j.s.cur != j.s.idle
    case UpCall => true
    case UpInInterrupt => true
    case Other(o) => Enabled(j.s, o) && (o.Wake? ==> o.t !in j.q.waiters)
  }

  function Woken(j: Joint): State {
    if j.q.waiters == [] then j.s else Step(j.s, Wake(j.q.waiters[0]))
  }

  function JointStep(j: Joint, e: JointEvent): Joint {
    match e
    case DownPass => Joint(if j.q.value > 0 then j.s else Step(j.s, Block), Attempt(j.q, j.s.cur, j.s.priority))
    case UpCall => Joint(Step(Woken(j), CheckPreemption), Post(j.q))
    case UpInInterrupt => Joint(Woken(j), Post(j.q))
    case Other(o) => Joint(Step(j.s, o), j.q)
  }

  ghost predicate JointInvariant(j: Joint) {
    && Invariant(j.s) && !j.s.scan && NoLostWakeup(j.q)
    && (forall w :: w in j.q.waiters ==> Parked(j.s, w))
  }

  /** The thread that blocks is parked.  The idle thread downs no semaphore. */
  lemma BlockParks(s: State)
    requires Invariant(s) && !s.scan && s.cur != s.idle
    ensures Parked(Step(s, Block), s.cur)
  {
    var s1 := SetStatus(s, s.cur, Blocked);
    BlockFacts(s);
    BlockedCurrentKeepsCore(s);
    CurrentDoesNotSleep(s);
    assert Parked(s1, s.cur);
    hide Schedule, Step, Core, Parked, OnlyCurrentRuns;
    ScheduleLeavesParked(s1, s.cur);
  }

  lemma CurrentDoesNotSleep(s: State)
    requires Invariant(s)
    ensures s.cur !in s.sleepers && s.cur in s.all
  {}

  lemma CurrentIsNotParked(j: Joint)
    requires JointInvariant(j)
    ensures j.s.cur !in j.q.waiters
  {}

  lemma DownKeeps(j: Joint)
    requires JointInvariant(j) && JointEnabled(j, DownPass)
    ensures JointInvariant(JointStep(j, DownPass))
  {
    CurrentIsNotParked(j);
    var j1 := JointStep(j, DownPass);
    hide Invariant, Step, NoLostWakeup, Parked;
    AttemptKeepsWakeups(j.q, j.s.cur, j.s.priority);
    if j.q.value == 0 {
      StepKeepsInvariant(j.s, Block);
      StepKeepsMode(j.s, Block);
      BlockParks(j.s);
      forall w | w in j1.q.waiters
        ensures Parked(j1.s, w)
      {
        MemberOfInsert(j.q.waiters, j.s.priority, j.s.cur, w);
        if w != j.s.cur {
          ParkedStays(j.s, Block, w);
        }
      }
    }
  }

  /** What sema_up needs: thread_unblock's assertion, for the first waiter. */
  lemma FirstWaiterCanWake(j: Joint)
    requires JointInvariant(j) && j.q.waiters != []
    ensures Enabled(j.s, Wake(j.q.waiters[0]))
    ensures j.q.waiters[0] !in j.q.waiters[1..]
  {
    var first, rest := j.q.waiters[0], j.q.waiters[1..];
    assert Parked(j.s, first);
    assert j.q.waiters == [first] + rest;
    assert multiset(j.q.waiters)[first] == 1 && multiset(rest)[first] == 0;
  }

  lemma WokenKeeps(j: Joint)
    requires JointInvariant(j)
    ensures Invariant(Woken(j)) && !Woken(j).scan
    ensures forall w :: w in Post(j.q).waiters ==> Parked(Woken(j), w)
  {
    if j.q.waiters != [] {
      FirstWaiterCanWake(j);
      hide Invariant, Step, NoLostWakeup, Parked, Enabled;
      var wake := Wake(j.q.waiters[0]);
      StepKeepsInvariant(j.s, wake);
      StepKeepsMode(j.s, wake);
      forall w | w in j.q.waiters[1..]
        ensures Parked(Woken(j), w)
      {
        ParkedStays(j.s, wake, w);
      }
    }
  }

  lemma UpKeeps(j: Joint)
    requires JointInvariant(j)
    ensures JointInvariant(JointStep(j, UpCall))
  {
    hide Invariant, Step, NoLostWakeup, Parked, Woken, Post;
    PostKeepsWakeups(j.q);
    WokenKeeps(j);
    StepKeepsInvariant(Woken(j), CheckPreemption);
    StepKeepsMode(Woken(j), CheckPreemption);
    forall w | w in Post(j.q).waiters
      ensures Parked(Step(Woken(j), CheckPreemption), w)
    {
      ParkedStays(Woken(j), CheckPreemption, w);
    }
  }

  lemma UpInInterruptKeeps(j: Joint)
    requires JointInvariant(j)
    ensures JointInvariant(JointStep(j, UpInInterrupt))
  {
    hide Invariant, NoLostWakeup, Parked, Woken, Post;
    PostKeepsWakeups(j.q);
    WokenKeeps(j);
  }

  lemma OtherKeeps(j: Joint, e: Event)
    requires JointInvariant(j) && JointEnabled(j, Other(e))
    ensures JointInvariant(JointStep(j, Other(e)))
  {
    hide Invariant, Step, NoLostWakeup, Parked, Enabled;
    StepKeepsInvariant(j.s, e);
    StepKeepsMode(j.s, e);
    forall w | w in j.q.waiters
      ensures Parked(Step(j.s, e), w)
    {
      ParkedStays(j.s, e, w);
    }
  }

  predicate JointCanRun(j: Joint, es: seq<JointEvent>)
    decreases |es|
  {
    es == [] || (JointEnabled(j, es[0]) && JointCanRun(JointStep(j, es[0]), es[1..]))
  }

  function JointRun(j: Joint, es: seq<JointEvent>): Joint
    decreases |es|
  {
    if es == [] then j else JointRun(JointStep(j, es[0]), es[1..])
  }

  /** Over every run of scheduler events and semaphore calls: the scheduler invariant
      holds, no wake-up is lost, and every queued thread is blocked, so the next sema_up
      meets thread_unblock's assertion. */
  lemma {:induction false} WaitersStayBlocked(j: Joint, es: seq<JointEvent>)
    requires JointInvariant(j) && JointCanRun(j, es)
    ensures JointInvariant(JointRun(j, es))
    ensures var j1 := JointRun(j, es); j1.q.waiters != [] ==> Enabled(j1.s, Wake(j1.q.waiters[0]))
    decreases |es|
  {
    hide JointInvariant, JointStep, Enabled;
    if es == [] {
      if j.q.waiters != [] {
        FirstWaiterCanWake(j);
      }
    } else {
      match es[0] {
        case DownPass => DownKeeps(j);
        case UpCall => UpKeeps(j);
        case UpInInterrupt => UpInInterruptKeeps(j);
        case Other(e) => OtherKeeps(j, e);
      }
      WaitersStayBlocked(JointStep(j, es[0]), es[1..]);
    }
  }

  // ----- the code -----

  /** One pass of sema_down, from the test of the value to the dispatch of another thread. */
  method SemaDown(k: Kernel, sema: Semaphore, ghost woken: set<Thread>) returns (success: bool)
    requires k.Valid() && k.current != k.idle
    requires forall t :: t in sema.waiters ==> t in k.allList
    modifies sema, k`readyList, k`current, k`threadTicks, k`status, k.mlfqsList, k.allList`status
    ensures success == (old(sema.value) > 0)
    ensures Joint(k.Abs(), View(sema, woken - {old(k.current)}))
            == JointStep(Joint(old(k.Abs()), old(View(sema, woken))), DownPass)
    ensures k.Valid()
  {
    ghost var s := k.Abs();
    CurrentDoesNotSleep(s);
    assert k.Recorded(k.current);
    forall u | u in sema.waiters
      ensures u.priority == Key(s.priority, u)
    {
      assert k.Recorded(u);
    }
    hide Invariant, Step, Attempt, View;
    success := SemaDownPass(sema, k.current, s.priority, woken);
    if !success {
      k.ThreadBlock();
    }
  }

  lemma WokenCases(j: Joint)
    ensures j.q.waiters == [] ==> Woken(j) == j.s
    ensures j.q.waiters != [] ==> Woken(j) == Step(j.s, Wake(j.q.waiters[0]))
    ensures JointStep(j, UpCall) == Joint(Step(Woken(j), CheckPreemption), Post(j.q))
  {}

  lemma ViewOf(sema: Semaphore, woken: set<Thread>)
    ensures View(sema, woken).waiters == sema.waiters
  {}

  /** The part of sema_up that runs with interrupts disabled. */
  method SemaUpQuietly(k: Kernel, sema: Semaphore, ghost woken: set<Thread>) returns (first: Option<Thread>)
    requires k.Valid() && (sema.waiters != [] ==> Enabled(k.Abs(), Wake(sema.waiters[0])))
    modifies sema, k`readyList, k`status, k`priority, k.mlfqsList, k.allList`status, k.allList`priority
    ensures k.Abs() == Woken(Joint(old(k.Abs()), old(View(sema, woken)))) && k.Valid()
    ensures View(sema, woken + if first.Some? then {first.value} else {}) == Post(old(View(sema, woken)))
  {
    hide *;
    ViewOf(sema, woken);
    WokenCases(Joint(k.Abs(), View(sema, woken)));
    first := SemaPost(sema, woken);
    if first.Some? {
      k.WakeThread(first.value);
    }
  }

  /** sema_up with the preemption check at its end.  The requirement is thread_unblock's
      assertion; WaitersStayBlocked shows that it always holds. */
  method SemaUp(k: Kernel, sema: Semaphore, ghost woken: set<Thread>) returns (first: Option<Thread>)
    requires k.Valid() && (sema.waiters != [] ==> Enabled(k.Abs(), Wake(sema.waiters[0])))
    modifies sema, k`readyList, k`current, k`threadTicks, k`status, k`priority, k`yieldOnReturn
    modifies k.mlfqsList, k.allList`status, k.allList`priority
    ensures Joint(k.Abs(), View(sema, woken + if first.Some? then {first.value} else {}))
            == JointStep(Joint(old(k.Abs()), old(View(sema, woken))), UpCall)
    ensures k.Valid()
  {
    hide *;
    WokenCases(Joint(k.Abs(), View(sema, woken)));
    first := SemaUpQuietly(k, sema, woken);
    k.CheckPreemptionEvent();
  }

  /** sema_up called by an interrupt handler: a yield on return is asked for instead, exactly
      when a queued thread outranks the running one. */
  method SemaUpInInterrupt(k: Kernel, sema: Semaphore, ghost woken: set<Thread>) returns (first: Option<Thread>)
    requires k.Valid() && (sema.waiters != [] ==> Enabled(k.Abs(), Wake(sema.waiters[0])))
    modifies sema, k`readyList, k`current, k`threadTicks, k`status, k`priority, k`yieldOnReturn
    modifies k.mlfqsList, k.allList`status, k.allList`priority
    ensures Joint(k.Abs(), View(sema, woken + if first.Some? then {first.value} else {}))
            == JointStep(Joint(old(k.Abs()), old(View(sema, woken))), UpInInterrupt)
    ensures k.Valid() && k.yieldOnReturn == (old(k.yieldOnReturn) || Outranked(k.Abs()))
  {
    hide *;
    InterruptCases(Joint(k.Abs(), View(sema, woken)));
    first := SemaUpQuietly(k, sema, woken);
    RequestPreemption(k);
  }

  lemma InterruptCases(j: Joint)
    ensures JointStep(j, UpInInterrupt) == Joint(Woken(j), Post(j.q))
  {}

  method RequestPreemption(k: Kernel)
    requires k.Valid()
    modifies k`readyList, k`current, k`threadTicks, k`status, k`yieldOnReturn, k.mlfqsList, k.allList`status
    ensures k.Abs() == old(k.Abs()) && k.Valid()
    ensures k.yieldOnReturn == (old(k.yieldOnReturn) || Outranked(k.Abs()))
  {
    hide Preempts, Core, OnlyCurrentRuns, Outranked;
    InvariantMeans(k.Abs());
    CheckDecides(k.Abs());
    k.Preempt(true);
  }
}
