/** The life of one lock under every interleaving of lock_acquire, lock_try_acquire and
    lock_release, including the windows in which interrupts are on between taking the
    semaphore and recording the holder. */
module Locks {
  import opened Objects
  import opened OrderedList
  import opened Semaphores
  import opened Options

  /** Where a thread stands in the code of the lock.
      Outside: neither acquiring nor holding.
      FreeDown: asleep in sema_down, or woken there, on the path that found no holder.
      Arriving: on the path that found a holder, about to enter sema_down.
      HeldDown: asleep in sema_down, or woken there, on that path.
      Taken: has decremented the semaphore but not yet written `holder`.
      Owner: has written `holder`. */
  datatype Stage = Outside | FreeDown | Arriving | HeldDown | Taken | Owner

  datatype LockState = LockState(sema: Sema, holder: Option<Thread>, stage: map<Thread, Stage>)

  datatype LockEvent =
    | AcquireFree(t: Thread, key: map<Thread, int>)
    | AcquireHeld(t: Thread)
    | DownHeld(t: Thread, key: map<Thread, int>)
    | Resume(t: Thread, key: map<Thread, int>)
    | RecordHolder(t: Thread)
    | TryAcquire(t: Thread)
    | Release(t: Thread)

  function StageOf(s: LockState, t: Thread): Stage {
    if t in s.stage then s.stage[t] else Outside
  }

  predicate Owns(s: LockState, t: Thread) {
    StageOf(s, t) == Taken || StageOf(s, t) == Owner
  }

  /** What the program point and the kernel's assertions guarantee. */
  predicate LockEnabled(s: LockState, e: LockEvent) {
    match e
    case AcquireFree(t, _) => StageOf(s, t) == Outside && s.holder == None
    case AcquireHeld(t) => StageOf(s, t) == Outside && s.holder != None && s.holder != Some(t)
    case DownHeld(t, _) => StageOf(s, t) == Arriving
    case Resume(t, _) => t in s.sema.woken
    case RecordHolder(t) => StageOf(s, t) == Taken
    case TryAcquire(t) => StageOf(s, t) == Outside && s.holder != Some(t)
    case Release(t) => s.holder == Some(t)
  }

  function AttemptFree(s: LockState, t: Thread, key: map<Thread, int>): LockState {
    var took := s.sema.value > 0;
    LockState(Attempt(s.sema, t, key),
              if took then Some(t) else s.holder,
              s.stage[t := if took then Owner else FreeDown])
  }

  function AttemptHeld(s: LockState, t: Thread, key: map<Thread, int>): LockState {
    LockState(Attempt(s.sema, t, key), s.holder, s.stage[t := if s.sema.value > 0 then Taken else HeldDown])
  }

  function LockStep(s: LockState, e: LockEvent): LockState {
    match e
    case AcquireFree(t, key) => AttemptFree(s, t, key)
    case AcquireHeld(t) => s.(stage := s.stage[t := Arriving])
    case DownHeld(t, key) => AttemptHeld(s, t, key)
    case Resume(t, key) => if StageOf(s, t) == FreeDown then AttemptFree(s, t, key) else AttemptHeld(s, t, key)
    case RecordHolder(t) => s.(holder := Some(t), stage := s.stage[t := Owner])
    case TryAcquire(t) =>
      LockState(TakeIfPositive(s.sema), s.holder, s.stage[t := if s.sema.value > 0 then Taken else Outside])
    case Release(t) => LockState(Post(s.sema), None, s.stage[t := Outside])
  }

  predicate LockCanRun(s: LockState, es: seq<LockEvent>)
    decreases |es|
  {
    es == [] || (LockEnabled(s, es[0]) && LockCanRun(LockStep(s, es[0]), es[1..]))
  }

  function LockRun(s: LockState, es: seq<LockEvent>): LockState
    decreases |es|
  {
    if es == [] then s else LockRun(LockStep(s, es[0]), es[1..])
  }

  /** o owns the lock, alone; the holder is recorded unless o is still in its window. */
  ghost predicate SoleOwner(s: LockState, o: Thread) {
    && o in s.stage && Owns(s, o)
    && (forall t :: t in s.stage && Owns(s, t) ==> t == o)
    && s.holder == if StageOf(s, o) == Owner then Some(o) else None
  }

  ghost predicate Unowned(s: LockState) {
    s.holder == None && forall t :: t in s.stage ==> !Owns(s, t)
  }

  /** Either the semaphore is at 1, nobody owns the lock and no holder is recorded, or it
      is at 0 and exactly one thread owns the lock. */
  ghost predicate Exclusive(s: LockState) {
    || (s.sema.value == 1 && Unowned(s))
    || (s.sema.value == 0 && exists o :: o in s.stage && SoleOwner(s, o))
  }

  /** t has gone to sleep in sema_down and not yet taken the semaphore. */
  predicate Inside(s: LockState, t: Thread) {
    StageOf(s, t) == FreeDown || StageOf(s, t) == HeldDown
  }

  /** The threads inside sema_down are those queued on or woken from the semaphore: nobody
      who has gone to sleep is forgotten. */
  ghost predicate QueuesAreInside(s: LockState) {
    && (forall t :: t in s.sema.waiters ==> Inside(s, t))
    && (forall t :: t in s.sema.woken ==> Inside(s, t))
    && (forall t :: t in s.stage && Inside(s, t) ==> t in s.sema.waiters || t in s.sema.woken)
  }

  ghost predicate LockInvariant(s: LockState) {
    Exclusive(s) && QueuesAreInside(s) && NoLostWakeup(s.sema)
  }

  function Attempted(s: LockState, t: Thread, key: map<Thread, int>, free: bool): LockState {
    if free then AttemptFree(s, t, key) else AttemptHeld(s, t, key)
  }

  lemma AttemptFields(s: LockState, t: Thread, key: map<Thread, int>, free: bool)
    ensures var s1 := Attempted(s, t, key, free);
            && s1.sema == Attempt(s.sema, t, key)
            && s1.holder == (if free && s.sema.value > 0 then Some(t) else s.holder)
            && s1.stage == s.stage[t := if s.sema.value > 0 then (if free then Owner else Taken)
                                        else if free then FreeDown else HeldDown]
  {
    hide Attempt;
  }

  lemma AttemptMembers(q: Sema, t: Thread, key: map<Thread, int>, u: Thread)
    ensures u in Attempt(q, t, key).waiters <==> u in q.waiters || (u == t && q.value == 0)
    ensures u in Attempt(q, t, key).woken <==> u in q.woken && u != t
  {
    MemberOfInsert(q.waiters, key, t, u);
    hide Insert;
  }

  lemma AttemptKeepsQueues(s: LockState, t: Thread, key: map<Thread, int>, free: bool)
    requires QueuesAreInside(s) && t !in s.sema.waiters
    ensures QueuesAreInside(Attempted(s, t, key, free))
  {
    hide Attempted, Attempt;
    AttemptFields(s, t, key, free);
    var s1 := Attempted(s, t, key, free);
    forall u | u in s1.sema.waiters
      ensures Inside(s1, u)
    {
      AttemptMembers(s.sema, t, key, u);
    }
    forall u | u in s1.sema.woken
      ensures Inside(s1, u)
    {
      AttemptMembers(s.sema, t, key, u);
    }
    forall u | u in s1.stage && Inside(s1, u)
      ensures u in s1.sema.waiters || u in s1.sema.woken
    {
      AttemptMembers(s.sema, t, key, u);
    }
  }

  lemma AttemptKeepsExclusive(s: LockState, t: Thread, key: map<Thread, int>, free: bool)
    requires Exclusive(s) && !Owns(s, t)
    ensures Exclusive(Attempted(s, t, key, free))
  {
    var s1 := Attempted(s, t, key, free);
    AttemptFields(s, t, key, free);
    assert s1.sema.value == if s.sema.value > 0 then s.sema.value - 1 else 0;
    hide Attempted, Attempt;
    if s.sema.value > 0 {
      assert SoleOwner(s1, t);
    } else {
      var o :| o in s.stage && SoleOwner(s, o);
      assert SoleOwner(s1, o);
    }
  }

  lemma AttemptKeepsLock(s: LockState, t: Thread, key: map<Thread, int>, free: bool)
    requires LockInvariant(s) && !Owns(s, t) && t !in s.sema.waiters
    ensures LockInvariant(Attempted(s, t, key, free))
  {
    hide Attempted, Attempt, NoLostWakeup, QueuesAreInside, Exclusive, Owns;
    AttemptFields(s, t, key, free);
    AttemptKeepsWakeups(s.sema, t, key);
    AttemptKeepsQueues(s, t, key, free);
    AttemptKeepsExclusive(s, t, key, free);
  }

  /** The thread that may release, by the kernel's assertion, is the unique owner. */
  lemma HolderIsOwner(s: LockState, t: Thread)
    requires Exclusive(s) && s.holder == Some(t)
    ensures s.sema.value == 0 && StageOf(s, t) == Owner && SoleOwner(s, t)
  {
    var o :| o in s.stage && SoleOwner(s, o);
  }

  lemma PostMoves(q: Sema)
    ensures forall u :: u in Post(q).waiters ==> u in q.waiters
    ensures forall u :: u in Post(q).woken ==> u in q.waiters || u in q.woken
    ensures forall u :: u in q.waiters || u in q.woken ==> u in Post(q).waiters || u in Post(q).woken
  {
    if q.waiters != [] {
      assert q.waiters == [q.waiters[0]] + q.waiters[1..];
    }
  }

  lemma ReleaseKeepsLock(s: LockState, t: Thread)
    requires LockInvariant(s) && s.holder == Some(t)
    ensures LockInvariant(LockStep(s, Release(t)))
  {
    hide Exclusive, QueuesAreInside, NoLostWakeup, Post, StageOf;
    HolderIsOwner(s, t);
    PostKeepsWakeups(s.sema);
    ReleaseKeepsExclusive(s, t);
    ReleaseKeepsQueues(s, t);
  }

  lemma ReleaseKeepsExclusive(s: LockState, t: Thread)
    requires s.sema.value == 0 && SoleOwner(s, t)
    ensures Exclusive(LockStep(s, Release(t)))
  {
    var s1 := LockStep(s, Release(t));
    assert forall u :: u in s1.stage ==> !Owns(s1, u);
  }

  lemma ReleaseKeepsQueues(s: LockState, t: Thread)
    requires QueuesAreInside(s) && StageOf(s, t) == Owner
    ensures QueuesAreInside(LockStep(s, Release(t)))
  {
    PostMoves(s.sema);
    hide Post;
    assert forall u :: u != t ==> StageOf(LockStep(s, Release(t)), u) == StageOf(s, u);
  }

  lemma WindowKeepsLock(s: LockState, e: LockEvent)
    requires LockInvariant(s) && LockEnabled(s, e) && (e.AcquireHeld? || e.RecordHolder? || e.TryAcquire?)
    ensures LockInvariant(LockStep(s, e))
  {
    var s1 := LockStep(s, e);
    if e.TryAcquire? && s.sema.value > 0 {
      assert SoleOwner(s1, e.t);
    } else if s.sema.value == 0 {
      var o :| o in s.stage && SoleOwner(s, o);
      assert SoleOwner(s1, o);
    }
  }

  lemma LockStepKeepsInvariant(s: LockState, e: LockEvent)
    requires LockInvariant(s) && LockEnabled(s, e)
    ensures LockInvariant(LockStep(s, e))
  {
    match e
    case AcquireFree(t, key) => AttemptKeepsLock(s, t, key, true);
    case DownHeld(t, key) => AttemptKeepsLock(s, t, key, false);
    case Resume(t, key) =>
      assert t !in s.sema.waiters;
      AttemptKeepsLock(s, t, key, StageOf(s, t) == FreeDown);
    case Release(t) => ReleaseKeepsLock(s, t);
    case _ => WindowKeepsLock(s, e);
  }

  /** lock_init. */
  const NEW_LOCK := LockState(Sema(1, [], {}), None, map[])

  /** Mutual exclusion, and no lost wake-up, in every state of every interleaving. */
  lemma {:induction false} MutualExclusion(s: LockState, es: seq<LockEvent>)
    requires LockInvariant(s) && LockCanRun(s, es)
    ensures LockInvariant(LockRun(s, es))
    ensures forall t, u :: Owns(LockRun(s, es), t) && Owns(LockRun(s, es), u) ==> t == u
    decreases |es|
  {
    if es != [] {
      LockStepKeepsInvariant(s, es[0]);
      MutualExclusion(LockStep(s, es[0]), es[1..]);
    }
  }

  lemma NewLockIsFine()
    ensures LockInvariant(NEW_LOCK)
  {}

  /** A free lock with threads queued on it always has a woken thread about to try: the
      lock cannot be left idle while somebody waits. */
  lemma FreeLockHasATaker(es: seq<LockEvent>)
    requires LockCanRun(NEW_LOCK, es)
    ensures var s := LockRun(NEW_LOCK, es);
            s.sema.value == 1 && s.sema.waiters != [] ==> s.sema.woken != {}
  {
    NewLockIsFine();
    MutualExclusion(NEW_LOCK, es);
  }

  // ----- the semaphore inside -----

  /** A thread that has gone to sleep in lock_acquire, on either path, is always queued or
      woken until it has taken the lock. */
  lemma NobodyIsForgotten(es: seq<LockEvent>, t: Thread)
    requires LockCanRun(NEW_LOCK, es)
    ensures var s := LockRun(NEW_LOCK, es);
            Inside(s, t) <==> t in s.sema.waiters || t in s.sema.woken
  {
    NewLockIsFine();
    MutualExclusion(NEW_LOCK, es);
    hide LockRun, LockCanRun;
  }

  /** Whoever has called lock_acquire owns the lock, or is on its way to it, until its own
      lock_release. */
  lemma {:induction false} NobodyDropsOut(s: LockState, es: seq<LockEvent>, t: Thread)
    requires LockCanRun(s, es) && Release(t) !in es
    requires StageOf(s, t) != Outside || (es != [] && (es[0].AcquireFree? || es[0].AcquireHeld?) && es[0].t == t)
    requires LockInvariant(s)
    ensures StageOf(LockRun(s, es), t) != Outside
    decreases |es|
  {
    hide LockInvariant;
    if es != [] {
      LockStepKeepsInvariant(s, es[0]);
      hide Attempt, Post;
      NobodyDropsOut(LockStep(s, es[0]), es[1..], t);
    }
  }

  /** lock_release wakes the first waiter, if there is one, and keeps the others in order. */
  lemma ReleaseWakesTheFirst(s: LockState, t: Thread)
    requires LockInvariant(s) && LockEnabled(s, Release(t))
    ensures var (q, q1) := (s.sema, LockStep(s, Release(t)).sema);
            && (q.waiters != [] ==> q1.woken == q.woken + {q.waiters[0]} && q.waiters == [q.waiters[0]] + q1.waiters)
            && (q.waiters == [] ==> q1.woken == q.woken && q1.waiters == [])
            && q.value == 0 && q1.value == 1
  {
    HolderIsOwner(s, t);
    if s.sema.waiters != [] {
      assert s.sema.waiters == [s.sema.waiters[0]] + s.sema.waiters[1..];
    }
  }

  /** What an event of the lock is to its semaphore. */
  function OnSemaphore(e: LockEvent): seq<SemaEvent> {
    match e
    case AcquireFree(t, key) => [Down(t, key)]
    case DownHeld(t, key) => [Down(t, key)]
    case Resume(t, key) => [Recheck(t, key)]
    case TryAcquire(t) => [TryDown(t)]
    case Release(_) => [Up]
    case _ => []
  }

  function Projected(es: seq<LockEvent>): seq<SemaEvent> {
    if es == [] then [] else OnSemaphore(es[0]) + Projected(es[1..])
  }

  lemma StepIsOnSemaphore(s: LockState, e: LockEvent)
    requires LockInvariant(s) && LockEnabled(s, e)
    ensures SemaCanRun(s.sema, OnSemaphore(e)) && LockStep(s, e).sema == SemaRun(s.sema, OnSemaphore(e))
  {
    hide Exclusive, NoLostWakeup, Attempt, Post;
    var fs := OnSemaphore(e);
    if fs != [] {
      assert SemaEnabled(s.sema, fs[0]) && fs[1..] == [];
      assert SemaRun(s.sema, fs) == SemaRun(SemaStep(s.sema, fs[0]), fs[1..]);
    }
  }

  lemma {:induction false} SemaRunsCompose(q: Sema, es: seq<SemaEvent>, fs: seq<SemaEvent>)
    requires SemaCanRun(q, es) && SemaCanRun(SemaRun(q, es), fs)
    ensures SemaCanRun(q, es + fs) && SemaRun(q, es + fs) == SemaRun(SemaRun(q, es), fs)
    decreases |es|
  {
    hide SemaStep, SemaEnabled;
    if es == [] {
      assert es + fs == fs;
    } else {
      assert (es + fs)[1..] == es[1..] + fs;
      SemaRunsCompose(SemaStep(q, es[0]), es[1..], fs);
    }
  }

  /** Over every run the lock's semaphore goes through the run of its own events, so that
      every theorem about semaphores holds of it. */
  lemma {:induction false} LockRunsItsSemaphore(s: LockState, es: seq<LockEvent>)
    requires LockInvariant(s) && LockCanRun(s, es)
    ensures SemaCanRun(s.sema, Projected(es)) && LockRun(s, es).sema == SemaRun(s.sema, Projected(es))
    decreases |es|
  {
    hide LockInvariant, LockStep, LockEnabled, OnSemaphore, SemaStep, SemaEnabled;
    if es != [] {
      var next := LockStep(s, es[0]);
      StepIsOnSemaphore(s, es[0]);
      LockStepKeepsInvariant(s, es[0]);
      LockRunsItsSemaphore(next, es[1..]);
      SemaRunsCompose(s.sema, OnSemaphore(es[0]), Projected(es[1..]));
    }
  }

  /** With fixed priorities, the wait queue of the lock is at all times the stable sort of
      the arrival queue from which the first maximum is taken, and the same threads are
      woken; units are conserved. */
  lemma LockWakesMostUrgent(es: seq<LockEvent>, key: map<Thread, int>)
    requires LockCanRun(NEW_LOCK, es)
    ensures var (s, fs) := (LockRun(NEW_LOCK, es), Projected(es));
            && s.sema.value == 1 + UpCount(fs) - Successes(NEW_LOCK.sema, fs)
            && (FixedPriorities(fs, key) ==>
                  var r := ScanRun(NEW_LOCK.sema, fs, key);
                  s.sema.value == r.value && s.sema.woken == r.woken && s.sema.waiters == StableSort(r.waiters, key))
  {
    NewLockIsFine();
    LockRunsItsSemaphore(NEW_LOCK, es);
    UnitsAreConserved(NEW_LOCK.sema, Projected(es));
    if FixedPriorities(Projected(es), key) {
      UpWakesMostUrgent(NEW_LOCK.sema, NEW_LOCK.sema, Projected(es), key);
    }
  }
}
