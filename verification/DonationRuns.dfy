/** Runs of lock_acquire and lock_release with every window in which interrupts are on, or
    in which another thread may run: what donated priorities mean in every reachable
    state, and exactly when they are right. */
module DonationRuns {
  import opened Objects
  import opened OrderedList
  import opened Donation
  import opened DonationBooks

  /** `code` holds the fields the kernel records.  `owner` and `blocked` say what is the
      case: who has taken the unit of a lock's semaphore, whether or not it is recorded as
      the holder, and which lock a thread is waiting to get, whether or not it has set
      waiting_lock.  Threads in `releasing` are inside lock_release, between giving up the
      lock and refreshing their priority. */
  datatype Locking = Locking(
    code: Graph,
    owner: map<Lock, Thread?>,
    blocked: map<Thread, Lock?>,
    releasing: set<Thread>)

  /** Acquire: lock_acquire up to its first stop, which is at once if the lock is free,
        otherwise in sema_down, with a donation or, if no holder is recorded, without.
      TakeUnit: a thread that has stopped there finds the semaphore up and takes the unit.
      Record: the rest of lock_acquire after a contended wait.
      LetGo: lock_release up to and including sema_up, which may run other threads.
      RefreshPriority: the rest of lock_release.
      Overwrite: a write to t's priority that has nothing to do with locks, by
        thread_set_priority or mlfqs_update_priority. */
  datatype LockingEvent =
    | Start(t: Thread, base: int)
    | Acquire(t: Thread, l: Lock)
    | TakeUnit(t: Thread, l: Lock)
    | Record(t: Thread, l: Lock)
    | LetGo(t: Thread, l: Lock)
    | RefreshPriority(t: Thread)
    | Overwrite(t: Thread, p: int)

  /** The graph of who really waits for whom. */
  function Truth(s: Locking): Graph {
    s.code.(waiting := s.blocked, holder := s.owner)
  }

  function OwnerOf(s: Locking, l: Lock): Thread? {
    if l in s.owner then s.owner[l] else null
  }

  function BlockedOn(s: Locking, t: Thread): Lock? {
    if t in s.blocked then s.blocked[t] else null
  }

  /** t executes code outside the windows of the lock functions. */
  predicate Runs(s: Locking, t: Thread) {
    t in s.code.priority && WaitsFor(s.code, t) == null && BlockedOn(s, t) == null && t !in s.releasing
  }

  /** What the program point and the kernel's assertions guarantee. */
  predicate LockingEnabled(s: Locking, e: LockingEvent) {
    match e
    case Start(t, _) => t !in s.code.priority
    case Acquire(t, l) => Runs(s, t) && Holder(s.code, l) != t
    case TakeUnit(t, l) => BlockedOn(s, t) == l && OwnerOf(s, l) == null
    case Record(t, l) => WaitsFor(s.code, t) == l && OwnerOf(s, l) == t
    case LetGo(t, l) => Runs(s, t) && Holder(s.code, l) == t
    case RefreshPriority(t) => t in s.releasing
    case Overwrite(t, _) => t in s.code.priority
  }

  function Started(s: Locking, t: Thread, base: int): Locking {
    s.(code := Enter(s.code, t, base), blocked := s.blocked[t := null])
  }

  /** The lock is free: take it. */
  function Got(s: Locking, t: Thread, l: Lock): Locking {
    s.(code := Take(s.code, t, l), owner := s.owner[l := t])
  }

  /** The lock is taken and its holder not yet recorded: sleep, unnoticed. */
  function Asleep(s: Locking, t: Thread, l: Lock): Locking {
    s.(blocked := s.blocked[t := l])
  }

  /** The lock has a holder: queue and donate. */
  ghost function Queued(s: Locking, t: Thread, l: Lock, holder: Thread): Locking {
    s.(code := Contend(s.code, t, l, holder), blocked := s.blocked[t := l])
  }

  function Downed(s: Locking, t: Thread, l: Lock): Locking {
    s.(code := if WaitsFor(s.code, t) == null then Take(s.code, t, l) else s.code,
       owner := s.owner[l := t], blocked := s.blocked[t := null])
  }

  function Recorded(s: Locking, t: Thread, l: Lock): Locking {
    s.(code := Take(s.code, t, l))
  }

  function LetGone(s: Locking, t: Thread, l: Lock): Locking {
    s.(code := Drop(s.code, t, l), owner := s.owner[l := null], releasing := s.releasing + {t})
  }

  function RefreshedIn(s: Locking, t: Thread): Locking {
    s.(code := Refresh(s.code, t), releasing := s.releasing - {t})
  }

  function Overwritten(s: Locking, t: Thread, p: int): Locking {
    s.(code := s.code.(priority := s.code.priority[t := p]))
  }

  ghost function LockingStep(s: Locking, e: LockingEvent): Locking {
    match e
    case Start(t, base) => Started(s, t, base)
    case Acquire(t, l) =>
      if Holder(s.code, l) != null then Queued(s, t, l, Holder(s.code, l))
      else if OwnerOf(s, l) != null then Asleep(s, t, l)
      else Got(s, t, l)
    case TakeUnit(t, l) => Downed(s, t, l)
    case Record(t, l) => Recorded(s, t, l)
    case LetGo(t, l) => LetGone(s, t, l)
    case RefreshPriority(t) => RefreshedIn(s, t)
    case Overwrite(t, p) => Overwritten(s, t, p)
  }

  ghost function LockingRun(s: Locking, es: seq<LockingEvent>): Locking
    decreases |es|
  {
    if es == [] then s else LockingRun(LockingStep(s, es[0]), es[1..])
  }

  ghost predicate LockingCanRun(s: Locking, es: seq<LockingEvent>)
    decreases |es|
  {
    es == [] || (LockingEnabled(s, es[0]) && LockingCanRun(LockingStep(s, es[0]), es[1..]))
  }

  const NO_THREADS := Locking(Graph(map[], map[], map[], map[], map[], map[]), map[], map[], {})

  // ----- bookkeeping -----

  /** A recorded holder owns the lock; an unrecorded owner has stopped waiting and is about
      to record itself. */
  ghost predicate LockPhase(s: Locking, l: Lock) {
    && (Holder(s.code, l) != null ==> OwnerOf(s, l) == Holder(s.code, l))
    && (OwnerOf(s, l) != null ==>
          && OwnerOf(s, l) in s.code.priority
          && (Holder(s.code, l) == null ==>
                WaitsFor(s.code, OwnerOf(s, l)) == l && BlockedOn(s, OwnerOf(s, l)) == null))
  }

  /** A waiting thread waits for the lock it has recorded, or has recorded none; one that
      has recorded a lock waits for it or owns it unrecorded; a releasing one does neither. */
  ghost predicate ThreadPhase(s: Locking, t: Thread) {
    && (BlockedOn(s, t) != null ==>
          && OwnerOf(s, BlockedOn(s, t)) != t
          && (WaitsFor(s.code, t) == null || WaitsFor(s.code, t) == BlockedOn(s, t)))
    && (WaitsFor(s.code, t) != null && BlockedOn(s, t) == null ==>
          OwnerOf(s, WaitsFor(s.code, t)) == t && Holder(s.code, WaitsFor(s.code, t)) == null)
    && (t in s.releasing ==> WaitsFor(s.code, t) == null && BlockedOn(s, t) == null)
  }

  ghost predicate Phases(s: Locking) {
    && s.blocked.Keys == s.code.priority.Keys && s.releasing <= s.code.priority.Keys
    && (forall t {:trigger ThreadPhase(s, t)} :: t in s.code.priority ==> ThreadPhase(s, t))
    && (forall l {:trigger LockPhase(s, l)} :: l in s.code.holder.Keys + s.owner.Keys ==> LockPhase(s, l))
  }

  ghost predicate Coherent(s: Locking) {
    Consistent(s.code) && Phases(s)
  }

  lemma PhasesMean(s: Locking, t: Thread, l: Lock)
    requires Coherent(s)
    ensures ThreadPhase(s, t) && LockPhase(s, l)
    ensures t in s.releasing ==> t in s.code.priority
    ensures BlockedOn(s, t) != null || WaitsFor(s.code, t) != null ==> t in s.code.priority
  {
    assert t in s.code.priority ==> ThreadPhase(s, t);
    assert l in s.code.holder.Keys + s.owner.Keys ==> LockPhase(s, l);
  }

  /** s1 differs from s in what concerns t and, if it is not null, l only. */
  ghost predicate StepAt(s: Locking, s1: Locking, t: Thread, l: Lock?) {
    && s1.blocked.Keys == s1.code.priority.Keys == s.code.priority.Keys + {t}
    && UpdatedAt(s.code.waiting, s1.code.waiting, t) && UpdatedAt(s.blocked, s1.blocked, t)
    && (if l == null then s1.code.holder == s.code.holder && s1.owner == s.owner
        else UpdatedAt(s.code.holder, s1.code.holder, l) && UpdatedAt(s.owner, s1.owner, l))
    && s1.releasing <= s.releasing + {t}
  }

  lemma StepAtMeans(s: Locking, s1: Locking, t: Thread, l: Lock?, x: Thread, m: Lock)
    requires StepAt(s, s1, t, l) && s.blocked.Keys == s.code.priority.Keys == s.code.waiting.Keys
    requires s1.code.waiting.Keys == s1.code.priority.Keys
    ensures x != t ==> WaitsFor(s1.code, x) == WaitsFor(s.code, x) && BlockedOn(s1, x) == BlockedOn(s, x)
    ensures x != t && x in s1.releasing ==> x in s.releasing
    ensures m != l ==> Holder(s1.code, m) == Holder(s.code, m) && OwnerOf(s1, m) == OwnerOf(s, m)
    ensures x in s1.code.priority <==> x == t || x in s.code.priority
  {}

  /** Before the step t waits for no other lock than l, after it l is owned by nobody new
      but t, and the new phases of t and l are right. */
  lemma PhasesAfter(s: Locking, s1: Locking, t: Thread, l: Lock?)
    requires Coherent(s) && Consistent(s1.code) && StepAt(s, s1, t, l)
    requires ThreadPhase(s1, t) && (l != null ==> LockPhase(s1, l))
    requires WaitsFor(s.code, t) == null || WaitsFor(s.code, t) == l
    requires l != null ==> OwnerOf(s1, l) == OwnerOf(s, l) || OwnerOf(s1, l) == t || OwnerOf(s1, l) == null
    requires l != null && OwnerOf(s, l) != null && OwnerOf(s, l) != t ==>
               OwnerOf(s1, l) == OwnerOf(s, l) && Holder(s1.code, l) == Holder(s.code, l)
    ensures Coherent(s1)
  {
    forall x | x in s1.code.priority
      ensures ThreadPhase(s1, x)
    {
      if x != t {
        OtherThreadPhase(s, s1, t, l, x);
      }
    }
    forall m | m in s1.code.holder.Keys + s1.owner.Keys
      ensures LockPhase(s1, m)
    {
      if m != l {
        OtherLockPhase(s, s1, t, l, m);
      }
    }
    StepKeepsReleasing(s, s1, t, l);
  }

  lemma StepKeepsReleasing(s: Locking, s1: Locking, t: Thread, l: Lock?)
    requires Phases(s) && StepAt(s, s1, t, l)
    ensures s1.blocked.Keys == s1.code.priority.Keys && s1.releasing <= s1.code.priority.Keys
  {}

  lemma Domains(s: Locking)
    requires Coherent(s)
    ensures s.blocked.Keys == s.code.priority.Keys == s.code.waiting.Keys == s.code.base.Keys == s.code.held.Keys
  {
    DomainsAgree(s.code);
  }

  lemma OtherThreadPhase(s: Locking, s1: Locking, t: Thread, l: Lock?, x: Thread)
    requires Coherent(s) && Consistent(s1.code) && StepAt(s, s1, t, l) && x != t && x in s1.code.priority
    requires l != null ==> OwnerOf(s1, l) == OwnerOf(s, l) || OwnerOf(s1, l) == t || OwnerOf(s1, l) == null
    requires l != null && OwnerOf(s, l) != null && OwnerOf(s, l) != t ==>
               OwnerOf(s1, l) == OwnerOf(s, l) && Holder(s1.code, l) == Holder(s.code, l)
    ensures ThreadPhase(s1, x)
  {
    hide Coherent, Consistent, StepAt;
    Domains(s);
    DomainsAgree(s1.code);
    SameThread(s, s1, t, l, x);
    ThreadPhaseOf(s, x);
    if BlockedOn(s, x) != null {
      StepAtMeans(s, s1, t, l, x, BlockedOn(s, x));
    }
    if WaitsFor(s.code, x) != null {
      StepAtMeans(s, s1, t, l, x, WaitsFor(s.code, x));
    }
  }

  lemma SameThread(s: Locking, s1: Locking, t: Thread, l: Lock?, x: Thread)
    requires StepAt(s, s1, t, l) && x != t && x in s1.code.priority
    ensures WaitsFor(s1.code, x) == WaitsFor(s.code, x) && BlockedOn(s1, x) == BlockedOn(s, x)
    ensures x in s1.releasing ==> x in s.releasing
    ensures x in s.code.priority
  {}

  lemma ThreadPhaseOf(s: Locking, x: Thread)
    requires Coherent(s) && x in s.code.priority
    ensures ThreadPhase(s, x)
  {}

  lemma OtherLockPhase(s: Locking, s1: Locking, t: Thread, l: Lock?, m: Lock)
    requires Coherent(s) && Consistent(s1.code) && StepAt(s, s1, t, l) && m != l
    requires WaitsFor(s.code, t) == null || WaitsFor(s.code, t) == l
    ensures LockPhase(s1, m)
  {
    hide Coherent, Consistent, StepAt;
    Domains(s);
    DomainsAgree(s1.code);
    PhasesMean(s, t, m);
    StepAtMeans(s, s1, t, l, t, m);
    var o := OwnerOf(s, m);
    if o != null {
      StepAtMeans(s, s1, t, l, o, m);
    }
  }

  predicate Aligned(s: Locking) {
    s.blocked.Keys == s.code.priority.Keys == s.code.waiting.Keys == s.code.base.Keys == s.code.held.Keys
  }

  lemma StartIsLocal(s: Locking, t: Thread, base: int)
    requires Aligned(s) && t !in s.code.priority
    requires t !in s.releasing
    ensures StepAt(s, Started(s, t, base), t, null)
  {
  }

  lemma StartPhase(s: Locking, t: Thread, base: int)
    requires ThreadPhase(s, t)
    requires t !in s.releasing
    ensures ThreadPhase(Started(s, t, base), t)
  {
  }

  lemma GotIsLocal(s: Locking, t: Thread, l: Lock)
    requires Aligned(s) && t in s.code.priority
    requires Runs(s, t) && Holder(s.code, l) == null && OwnerOf(s, l) == null
    ensures StepAt(s, Got(s, t, l), t, l)
  {
  }

  lemma GotPhase(s: Locking, t: Thread, l: Lock)
    requires ThreadPhase(s, t) && LockPhase(s, l)
    requires Runs(s, t) && Holder(s.code, l) == null && OwnerOf(s, l) == null
    ensures ThreadPhase(Got(s, t, l), t) && LockPhase(Got(s, t, l), l)
  {
  }

  lemma AsleepIsLocal(s: Locking, t: Thread, l: Lock)
    requires Aligned(s) && t in s.code.priority
    requires Runs(s, t) && Holder(s.code, l) == null && OwnerOf(s, l) != null
    ensures StepAt(s, Asleep(s, t, l), t, l)
  {
  }

  lemma AsleepPhase(s: Locking, t: Thread, l: Lock)
    requires ThreadPhase(s, t) && LockPhase(s, l)
    requires Runs(s, t) && Holder(s.code, l) == null && OwnerOf(s, l) != null
    ensures ThreadPhase(Asleep(s, t, l), t) && LockPhase(Asleep(s, t, l), l)
  {
  }

  lemma QueuedIsLocal(s: Locking, t: Thread, l: Lock, holder: Thread)
    requires Aligned(s) && t in s.code.priority
    requires Runs(s, t) && Holder(s.code, l) == holder && holder != t
    requires Contend(s.code, t, l, holder).priority.Keys == s.code.priority.Keys
    ensures StepAt(s, Queued(s, t, l, holder), t, l)
  {
    hide Insert, Donate;
    var s1 := Queued(s, t, l, holder);
    assert s1.blocked == s.blocked[t := l] && s1.owner == s.owner && s1.releasing == s.releasing;
    assert s1.code.waiting == s.code.waiting[t := l] && s1.code.holder == s.code.holder;
  }

  lemma QueuedPhase(s: Locking, t: Thread, l: Lock, holder: Thread)
    requires ThreadPhase(s, t) && LockPhase(s, l)
    requires Runs(s, t) && Holder(s.code, l) == holder && holder != t
    requires Contend(s.code, t, l, holder).priority.Keys == s.code.priority.Keys
    ensures ThreadPhase(Queued(s, t, l, holder), t) && LockPhase(Queued(s, t, l, holder), l)
  {
    hide Insert, Donate;
  }

  lemma DownedIsLocal(s: Locking, t: Thread, l: Lock)
    requires Aligned(s) && t in s.code.priority
    requires BlockedOn(s, t) == l && OwnerOf(s, l) == null
    ensures StepAt(s, Downed(s, t, l), t, l)
  {
    var s1 := Downed(s, t, l);
    assert s1.blocked == s.blocked[t := null] && s1.owner == s.owner[l := t];
    assert s1.code.priority == s.code.priority && s1.releasing == s.releasing;
    if WaitsFor(s.code, t) == null {
      assert s1.code.waiting == s.code.waiting[t := null] && s1.code.holder == s.code.holder[l := t];
    } else {
      assert s1.code == s.code;
    }
  }

  lemma DownedPhase(s: Locking, t: Thread, l: Lock)
    requires ThreadPhase(s, t) && LockPhase(s, l) && t in s.code.priority
    requires BlockedOn(s, t) == l && OwnerOf(s, l) == null
    ensures ThreadPhase(Downed(s, t, l), t) && LockPhase(Downed(s, t, l), l)
  {
  }

  lemma RecordedIsLocal(s: Locking, t: Thread, l: Lock)
    requires Aligned(s) && t in s.code.priority
    requires WaitsFor(s.code, t) == l && OwnerOf(s, l) == t
    ensures StepAt(s, Recorded(s, t, l), t, l)
  {
  }

  lemma RecordedPhase(s: Locking, t: Thread, l: Lock)
    requires ThreadPhase(s, t) && LockPhase(s, l)
    requires WaitsFor(s.code, t) == l && OwnerOf(s, l) == t
    ensures ThreadPhase(Recorded(s, t, l), t) && LockPhase(Recorded(s, t, l), l)
  {
  }

  lemma LetGoneIsLocal(s: Locking, t: Thread, l: Lock)
    requires Aligned(s) && t in s.code.priority
    requires Runs(s, t) && Holder(s.code, l) == t
    ensures StepAt(s, LetGone(s, t, l), t, l)
  {
    hide Without;
  }

  lemma LetGonePhase(s: Locking, t: Thread, l: Lock)
    requires ThreadPhase(s, t) && LockPhase(s, l)
    requires Runs(s, t) && Holder(s.code, l) == t
    ensures ThreadPhase(LetGone(s, t, l), t) && LockPhase(LetGone(s, t, l), l)
  {
    hide Without;
  }

  lemma RefreshIsLocal(s: Locking, t: Thread)
    requires Aligned(s) && t in s.code.priority
    requires t in s.releasing
    ensures StepAt(s, RefreshedIn(s, t), t, null)
  {
    hide Refreshed;
  }

  lemma RefreshPhase(s: Locking, t: Thread)
    requires ThreadPhase(s, t)
    requires t in s.releasing
    ensures ThreadPhase(RefreshedIn(s, t), t)
  {
    hide Refreshed;
  }

  lemma StartKeepsPhases(s: Locking, t: Thread, base: int)
    requires Coherent(s) && LockingEnabled(s, Start(t, base))
    ensures Coherent(LockingStep(s, Start(t, base)))
  {
    hide Consistent, Phases, StepAt, Started, ThreadPhase, Enter, Aligned;
    CoherentMeans(s, t);
    PhasesOfStranger(s, t);
    StartIsConsistent(s.code, t, base);
    CodeOfStart(s, t, base);
    StartIsLocal(s, t, base);
    StrangerPhase(s, t);
    StartPhase(s, t, base);
    PhasesAfter(s, Started(s, t, base), t, null);
  }

  lemma CodeOfStart(s: Locking, t: Thread, base: int)
    ensures Started(s, t, base).code == Enter(s.code, t, base)
  {}

  lemma PhasesOfStranger(s: Locking, t: Thread)
    requires Coherent(s) && t !in s.code.priority
    ensures t !in s.releasing && WaitsFor(s.code, t) == null && BlockedOn(s, t) == null
  {
    CoherentMeans(s, t);
  }

  lemma StrangerPhase(s: Locking, t: Thread)
    requires t !in s.releasing && WaitsFor(s.code, t) == null && BlockedOn(s, t) == null
    ensures ThreadPhase(s, t)
  {}

  lemma CoherentMeans(s: Locking, t: Thread)
    requires Coherent(s)
    ensures Consistent(s.code) && Aligned(s)
    ensures t in s.releasing || BlockedOn(s, t) != null || WaitsFor(s.code, t) != null ==> t in s.code.priority
  {
    DomainsAgree(s.code);
  }

  lemma QueueKeepsPhases(s: Locking, t: Thread, l: Lock, holder: Thread)
    requires Coherent(s) && Runs(s, t) && Holder(s.code, l) == holder && holder != t
    ensures Coherent(Queued(s, t, l, holder))
  {
    OwnerUnchanged(s, t, l, holder);
    CodeOfQueue(s, t, l, holder);
    hide Consistent, Phases, StepAt, Queued, ThreadPhase, LockPhase, Contend, Aligned, Coherent, Holder, OwnerOf;
    RunsMeans(s, t);
    CoherentMeans(s, t);
    PhasesMean(s, t, l);
    ContendIsConsistent(s.code, t, l);
    QueuedIsLocal(s, t, l, holder);
    QueuedPhase(s, t, l, holder);
    PhasesAfter(s, Queued(s, t, l, holder), t, l);
  }

  lemma OwnerUnchanged(s: Locking, t: Thread, l: Lock, holder: Thread)
    requires Holder(s.code, l) == holder
    ensures OwnerOf(Queued(s, t, l, holder), l) == OwnerOf(s, l)
    ensures Holder(Queued(s, t, l, holder).code, l) == Holder(s.code, l)
  {}

  lemma CodeOfQueue(s: Locking, t: Thread, l: Lock, holder: Thread)
    ensures Queued(s, t, l, holder).code == Contend(s.code, t, l, holder)
    ensures Contend(s.code, t, l, holder).priority.Keys == s.code.priority.Keys
  {
    DonateKeepsKeys(Enlist(s.code, t, l), s.code.priority, Key(s.code.priority, t), holder);
  }

  lemma RunsMeans(s: Locking, t: Thread)
    requires Runs(s, t)
    ensures t in s.code.priority && WaitsFor(s.code, t) == null && BlockedOn(s, t) == null && t !in s.releasing
  {}

  lemma SleepKeepsPhases(s: Locking, t: Thread, l: Lock)
    requires Coherent(s) && Runs(s, t) && Holder(s.code, l) == null && OwnerOf(s, l) != null
    ensures Coherent(Asleep(s, t, l))
  {
    assert Asleep(s, t, l).code == s.code && Asleep(s, t, l).owner == s.owner;
    assert OwnerOf(Asleep(s, t, l), l) == OwnerOf(s, l);
    hide Consistent, Phases, StepAt, Asleep, ThreadPhase, LockPhase, Aligned, Coherent, Holder, OwnerOf;
    RunsMeans(s, t);
    CoherentMeans(s, t);
    PhasesMean(s, t, l);
    AsleepIsLocal(s, t, l);
    AsleepPhase(s, t, l);
    PhasesAfter(s, Asleep(s, t, l), t, l);
  }

  lemma GetKeepsPhases(s: Locking, t: Thread, l: Lock)
    requires Coherent(s) && Runs(s, t) && Holder(s.code, l) == null && OwnerOf(s, l) == null
    ensures Coherent(Got(s, t, l))
  {
    assert Got(s, t, l).code == Take(s.code, t, l) && OwnerOf(Got(s, t, l), l) == t;
    hide Consistent, Phases, StepAt, Got, ThreadPhase, LockPhase, Take, Aligned, Coherent, Holder, OwnerOf;
    RunsMeans(s, t);
    CoherentMeans(s, t);
    PhasesMean(s, t, l);
    TakeIsConsistent(s.code, t, l);
    GotIsLocal(s, t, l);
    GotPhase(s, t, l);
    PhasesAfter(s, Got(s, t, l), t, l);
  }

  lemma DownKeepsPhases(s: Locking, t: Thread, l: Lock)
    requires Coherent(s) && LockingEnabled(s, TakeUnit(t, l))
    ensures Coherent(Downed(s, t, l))
  {
    var s1 := Downed(s, t, l);
    assert OwnerOf(s1, l) == t;
    assert s1.code == if WaitsFor(s.code, t) == null then Take(s.code, t, l) else s.code;
    hide Consistent, Phases, StepAt, Downed, Take, Aligned, Coherent;
    CoherentMeans(s, t);
    PhasesMean(s, t, l);
    if WaitsFor(s.code, t) == null {
      TakeIsConsistent(s.code, t, l);
    }
    DownedIsLocal(s, t, l);
    DownedPhase(s, t, l);
    PhasesAfter(s, s1, t, l);
  }

  lemma RecordKeepsPhases(s: Locking, t: Thread, l: Lock)
    requires Coherent(s) && LockingEnabled(s, Record(t, l))
    ensures Coherent(Recorded(s, t, l)) && Holder(s.code, l) == null && BlockedOn(s, t) == null
  {
    var s1 := Recorded(s, t, l);
    assert s1.owner == s.owner && s1.code == Take(s.code, t, l);
    hide Consistent, Phases, StepAt, Recorded, Take, Aligned, Coherent;
    CoherentMeans(s, t);
    PhasesMean(s, t, l);
    ListsMatchPointers(s.code, l, t);
    TakeIsConsistent(s.code, t, l);
    RecordedIsLocal(s, t, l);
    RecordedPhase(s, t, l);
    PhasesAfter(s, s1, t, l);
  }

  lemma LetGoKeepsPhases(s: Locking, t: Thread, l: Lock)
    requires Coherent(s) && LockingEnabled(s, LetGo(t, l))
    ensures Coherent(LetGone(s, t, l))
  {
    var s1 := LetGone(s, t, l);
    assert OwnerOf(s1, l) == null && s1.code == Drop(s.code, t, l);
    hide Consistent, Phases, StepAt, LetGone, Drop, Aligned, Coherent;
    CoherentMeans(s, t);
    PhasesMean(s, t, l);
    DropIsConsistent(s.code, t, l);
    LetGoneIsLocal(s, t, l);
    LetGonePhase(s, t, l);
    PhasesAfter(s, s1, t, l);
  }

  lemma RefreshKeepsPhases(s: Locking, t: Thread)
    requires Coherent(s) && LockingEnabled(s, RefreshPriority(t))
    ensures Coherent(RefreshedIn(s, t))
  {
    var s1 := RefreshedIn(s, t);
    assert s1.code == Refresh(s.code, t);
    hide Consistent, Phases, StepAt, RefreshedIn, Refresh, Aligned, Coherent;
    CoherentMeans(s, t);
    ThreadPhaseOf(s, t);
    RefreshIsConsistent(s.code, t);
    RefreshIsLocal(s, t);
    RefreshPhase(s, t);
    PhasesAfter(s, s1, t, null);
  }

  lemma OverwriteKeepsPhase(s: Locking, t: Thread, p: int, x: Thread)
    requires ThreadPhase(s, x)
    ensures ThreadPhase(Overwritten(s, t, p), x)
  {}

  lemma OverwriteKeepsLock(s: Locking, t: Thread, p: int, l: Lock)
    requires LockPhase(s, l)
    ensures LockPhase(Overwritten(s, t, p), l)
  {}

  lemma OverwriteKeepsPhases(s: Locking, t: Thread, p: int)
    requires Coherent(s) && t in s.code.priority
    ensures Coherent(Overwritten(s, t, p))
  {
    hide Consistent, ThreadPhase, LockPhase;
    var s1 := Overwritten(s, t, p);
    assert s1.code.priority.Keys == s.code.priority.Keys;
    PriorityChangeIsConsistent(s.code, s1.code.priority);
    forall x | x in s1.code.priority
      ensures ThreadPhase(s1, x)
    {
      OverwriteKeepsPhase(s, t, p, x);
    }
    forall l | l in s1.code.holder.Keys + s1.owner.Keys
      ensures LockPhase(s1, l)
    {
      OverwriteKeepsLock(s, t, p, l);
    }
  }

  /** Lists, pointers and phases agree after every step. */
  lemma StepIsCoherent(s: Locking, e: LockingEvent)
    requires Coherent(s) && LockingEnabled(s, e)
    ensures Coherent(LockingStep(s, e))
  {
    hide Coherent, Started, Got, Asleep, Queued, Downed, Recorded, LetGone, RefreshedIn, Overwritten, Runs;
    match e
    case Start(t, base) => StartKeepsPhases(s, t, base);
    case Acquire(t, l) =>
      if Holder(s.code, l) != null {
        QueueKeepsPhases(s, t, l, Holder(s.code, l));
      } else if OwnerOf(s, l) != null {
        SleepKeepsPhases(s, t, l);
      } else {
        GetKeepsPhases(s, t, l);
      }
    case TakeUnit(t, l) => DownKeepsPhases(s, t, l);
    case Record(t, l) => RecordKeepsPhases(s, t, l);
    case LetGo(t, l) => LetGoKeepsPhases(s, t, l);
    case RefreshPriority(t) => RefreshKeepsPhases(s, t);
    case Overwrite(t, p) => OverwriteKeepsPhases(s, t, p);
  }

  // ----- taking and releasing -----

  /** e makes its thread the owner of l. */
  predicate Takes(s: Locking, e: LockingEvent, l: Lock) {
    || (e.Acquire? && e.l == l && Holder(s.code, l) == null && OwnerOf(s, l) == null)
    || (e.TakeUnit? && e.l == l)
  }

  predicate Releases(e: LockingEvent, l: Lock) {
    e.LetGo? && e.l == l
  }

  ghost function Takings(s: Locking, es: seq<LockingEvent>, l: Lock): nat
    decreases |es|
  {
    if es == [] then 0 else (if Takes(s, es[0], l) then 1 else 0) + Takings(LockingStep(s, es[0]), es[1..], l)
  }

  function Releasings(es: seq<LockingEvent>, l: Lock): nat {
    if es == [] then 0 else (if Releases(es[0], l) then 1 else 0) + Releasings(es[1..], l)
  }

  /** 1 while l has an owner, recorded or not. */
  function Owned(s: Locking, l: Lock): nat {
    if OwnerOf(s, l) == null then 0 else 1
  }

  lemma OwnedStep(s: Locking, e: LockingEvent, l: Lock)
    requires Coherent(s) && LockingEnabled(s, e)
    ensures Owned(s, l) + (if Takes(s, e, l) then 1 else 0)
            == Owned(LockingStep(s, e), l) + if Releases(e, l) then 1 else 0
  {
    if e.LetGo? {
      PhasesMean(s, e.t, e.l);
    }
    hide Coherent, Donate, Insert, Refreshed, Without;
  }

  /** Over every run each lock is taken and released in alternation: it has been taken as often
      as released, and once more while it has an owner. */
  lemma {:induction false} TakingsBalanceReleases(s: Locking, es: seq<LockingEvent>, l: Lock)
    requires Coherent(s) && LockingCanRun(s, es)
    ensures Owned(s, l) + Takings(s, es, l) == Releasings(es, l) + Owned(LockingRun(s, es), l)
    decreases |es|
  {
    hide Coherent, LockingEnabled, LockingStep, Takes, Releases, Owned;
    if es != [] {
      OwnedStep(s, es[0], l);
      StepIsCoherent(s, es[0]);
      TakingsBalanceReleases(LockingStep(s, es[0]), es[1..], l);
    }
  }
}
