/** Reachable runs on which donated priorities go wrong: each of the guards can fail
    though every step before met its own.  Four threads of base priority 1, 7, 5 and 9 start;
    the third takes the lock m, the first the lock l, and the third queues for l. */
module DonationFailures {
  import opened Objects
  import opened OrderedList
  import opened Donation
  import opened DonationBooks
  import opened DonationRuns
  import opened DonationExact
  import DonationRight

  datatype Four<+V> = Four(a: V, b: V, w: V, d: V)

  predicate Apart(t: Four<Thread>) {
    t.a != t.b && t.a != t.w && t.a != t.d && t.b != t.w && t.b != t.d && t.w != t.d
  }

  function At<V>(t: Four<Thread>, v: Four<V>): map<Thread, V> {
    map[t.a := v.a, t.b := v.b, t.w := v.w, t.d := v.d]
  }

  lemma AtReads<V>(t: Four<Thread>, v: Four<V>)
    requires Apart(t)
    ensures At(t, v).Keys == {t.a, t.b, t.w, t.d}
    ensures At(t, v)[t.a] == v.a && At(t, v)[t.b] == v.b && At(t, v)[t.w] == v.w && At(t, v)[t.d] == v.d
  {}

  lemma AtWrites<V>(t: Four<Thread>, v: Four<V>, x: V)
    requires Apart(t)
    ensures At(t, v)[t.a := x] == At(t, v.(a := x)) && At(t, v)[t.b := x] == At(t, v.(b := x))
    ensures At(t, v)[t.w := x] == At(t, v.(w := x)) && At(t, v)[t.d := x] == At(t, v.(d := x))
  {}

  const BASES := Four(1, 7, 5, 9)
  const NO_LOCK: Four<Lock?> := Four(null, null, null, null)
  const NONE_HELD: Four<seq<Lock>> := Four([], [], [], [])

  /** What differs between the states of the runs. */
  datatype Picture = Picture(
    priority: Four<int>,
    waiting: Four<Lock?>,
    held: Four<seq<Lock>>,
    holder: map<Lock, Thread?>,
    waiters: map<Lock, seq<Thread>>,
    owner: map<Lock, Thread?>,
    blocked: Four<Lock?>,
    releasing: set<Thread>)

  function Snap(t: Four<Thread>, p: Picture): Locking {
    Locking(Graph(At(t, BASES), At(t, p.priority), At(t, p.waiting), At(t, p.held), p.holder, p.waiters),
            p.owner, At(t, p.blocked), p.releasing)
  }

  lemma SnapReads(t: Four<Thread>, p: Picture)
    requires Apart(t)
    ensures var s := Snap(t, p);
            && s.blocked.Keys == s.code.priority.Keys == {t.a, t.b, t.w, t.d}
            && (forall x :: x in {t.a, t.b, t.w, t.d} ==>
                  && Key(s.code.priority, x) == Of(t, p.priority, x) && Key(s.code.base, x) == Of(t, BASES, x)
                  && WaitsFor(s.code, x) == Of(t, p.waiting, x) && Held(s.code, x) == Of(t, p.held, x)
                  && BlockedOn(s, x) == Of(t, p.blocked, x))
  {
    AtReads(t, BASES);
    AtReads(t, p.priority);
    AtReads(t, p.waiting);
    AtReads(t, p.held);
    AtReads(t, p.blocked);
    hide At;
  }

  function Of<V>(t: Four<Thread>, v: Four<V>, x: Thread): V {
    if x == t.a then v.a else if x == t.b then v.b else if x == t.w then v.w else v.d
  }

  // ----- the states -----

  function Begun(): Picture {
    Picture(BASES, NO_LOCK, NONE_HELD, map[], map[], map[], NO_LOCK, {})
  }

  function HoldsM(t: Four<Thread>, m: Lock): Picture {
    Begun().(held := NONE_HELD.(w := [m]), holder := map[m := t.w], owner := map[m := t.w])
  }

  function HoldsL(t: Four<Thread>, l: Lock, m: Lock): Picture {
    HoldsM(t, m).(held := NONE_HELD.(a := [l], w := [m]),
                  holder := map[m := t.w, l := t.a], owner := map[m := t.w, l := t.a])
  }

  function Queues(t: Four<Thread>, l: Lock, m: Lock): Picture {
    HoldsL(t, l, m).(priority := BASES.(a := 5), waiting := NO_LOCK.(w := l), waiters := map[l := [t.w]],
                     blocked := NO_LOCK.(w := l))
  }

  /** p after the first thread has let go of l. */
  function LetsGo(t: Four<Thread>, l: Lock, m: Lock, p: Picture): Picture {
    p.(held := NONE_HELD.(w := [m]), holder := map[m := t.w, l := null], owner := map[m := t.w, l := null],
       releasing := {t.a})
  }

  function Released(t: Four<Thread>, l: Lock, m: Lock, p: Picture): Picture {
    LetsGo(t, l, m, p).(priority := BASES, releasing := {})
  }

  /** es leads to s, and every step met its guard. */
  ghost predicate Leads(es: seq<LockingEvent>, s: Locking) {
    && LockingCanRun(NO_THREADS, es) && AlwaysGuarded(NO_THREADS, es) && LockingRun(NO_THREADS, es) == s
    && Coherent(s) && RightIn(s)
  }

  ghost predicate Goes(s: Locking, e: LockingEvent, s1: Locking) {
    LockingEnabled(s, e) && LockingStep(s, e) == s1 && Guard(s, e)
  }

  lemma {:induction false} RunsCompose(s: Locking, es: seq<LockingEvent>, fs: seq<LockingEvent>)
    requires LockingCanRun(s, es) && LockingCanRun(LockingRun(s, es), fs)
    ensures LockingCanRun(s, es + fs) && LockingRun(s, es + fs) == LockingRun(LockingRun(s, es), fs)
    ensures AlwaysGuarded(s, es) && AlwaysGuarded(LockingRun(s, es), fs) ==> AlwaysGuarded(s, es + fs)
    decreases |es|
  {
    hide LockingEnabled, LockingStep, Guard;
    if es == [] {
      assert es + fs == fs;
    } else {
      assert (es + fs)[1..] == es[1..] + fs;
      RunsCompose(LockingStep(s, es[0]), es[1..], fs);
    }
  }

  lemma OneStep(s: Locking, e: LockingEvent)
    requires LockingEnabled(s, e)
    ensures LockingCanRun(s, [e]) && LockingRun(s, [e]) == LockingStep(s, e)
    ensures Guard(s, e) ==> AlwaysGuarded(s, [e])
  {
    hide LockingEnabled, LockingStep, Guard;
    assert [e][1..] == [];
    assert AlwaysGuarded(LockingStep(s, e), [e][1..]);
    assert LockingCanRun(LockingStep(s, e), [e][1..]);
    assert LockingRun(LockingStep(s, e), [e][1..]) == LockingStep(s, e);
  }

  lemma GoOn(es: seq<LockingEvent>, s: Locking, e: LockingEvent, s1: Locking)
    requires Leads(es, s) && Goes(s, e, s1)
    ensures Leads(es + [e], s1)
  {
    hide LockingCanRun, LockingRun, AlwaysGuarded, LockingEnabled, LockingStep, Guard, Coherent, RightIn;
    OneStep(s, e);
    RunsCompose(NO_THREADS, es, [e]);
    StepIsCoherent(s, e);
    StepIsRightIff(s, e);
  }

  lemma HoldMStep(t: Four<Thread>, m: Lock)
    requires Apart(t)
    ensures Goes(Snap(t, Begun()), Acquire(t.w, m), Snap(t, HoldsM(t, m)))
  {
    hide At;
    SnapReads(t, Begun());
    AtWrites<seq<Lock>>(t, NONE_HELD, [m]);
    AtWrites<Lock?>(t, NO_LOCK, null);
    assert [] + [m] == [m];
  }

  lemma HoldLStep(t: Four<Thread>, l: Lock, m: Lock)
    requires Apart(t) && l != m
    ensures Goes(Snap(t, HoldsM(t, m)), Acquire(t.a, l), Snap(t, HoldsL(t, l, m)))
  {
    hide At;
    SnapReads(t, HoldsM(t, m));
    AtWrites<seq<Lock>>(t, NONE_HELD.(w := [m]), [l]);
    AtWrites<Lock?>(t, NO_LOCK, null);
    assert [] + [l] == [l];
  }

  // ----- donations to a thread that passes nothing on -----

  lemma ShortChain(s: Locking, t: Thread, l: Lock, holder: Thread)
    requires Next(Enlist(s.code, t, l), holder) == null == Next(Truth(s), holder)
    ensures PassesOn(s, t, l, holder)
  {
    hide Next, Truth, Reaches, Enlist;
    var c := Enlist(s.code, t, l);
    forall x | x in s.blocked
      ensures PassesAt(s, t, l, holder, x)
    {
      ReachesThroughNext(c, holder, x);
    }
  }

  lemma DonateOnce(g: Graph, priority: map<Thread, int>, v: int, to: Thread)
    requires to in priority && priority[to] < v && Next(g, to) == null
    ensures Donate(g, priority, v, to) == priority[to := v]
  {
    hide Next;
  }

  /** The contended step of t on l, if the donation ends at the holder. */
  lemma QueueOnce(s: Locking, t: Thread, l: Lock, holder: Thread, ws: seq<Thread>)
    requires Runs(s, t) && Holder(s.code, l) == holder && holder != t
    requires holder in s.code.priority && Key(s.code.priority, holder) < Key(s.code.priority, t)
    requires WaitsFor(s.code, holder) == null || Holder(s.code, WaitsFor(s.code, holder)) == null
    requires Insert(Waiters(s.code, l), s.code.priority, t) == ws
    ensures LockingEnabled(s, Acquire(t, l))
    ensures LockingStep(s, Acquire(t, l))
            == s.(code := s.code.(waiting := s.code.waiting[t := l], waiters := s.code.waiters[l := ws],
                                  priority := s.code.priority[holder := Key(s.code.priority, t)]),
                  blocked := s.blocked[t := l])
    ensures Next(Enlist(s.code, t, l), holder) == null
  {
    hide Insert, Donate;
    var c := Enlist(s.code, t, l);
    assert Next(c, holder) == null;
    DonateOnce(c, s.code.priority, Key(s.code.priority, t), holder);
  }

  lemma QueueStep(t: Four<Thread>, l: Lock, m: Lock)
    requires Apart(t) && l != m
    ensures Goes(Snap(t, HoldsL(t, l, m)), Acquire(t.w, l), Snap(t, Queues(t, l, m)))
  {
    hide At;
    var s := Snap(t, HoldsL(t, l, m));
    SnapReads(t, HoldsL(t, l, m));
    AtWrites<int>(t, BASES, 5);
    AtWrites<Lock?>(t, NO_LOCK, l);
    QueueOnce(s, t.w, l, t.a, [t.w]);
    ShortChain(s, t.w, l, t.a);
  }

  // ----- letting go of l -----

  lemma WithoutTwo<T>(x: T, y: T, z: T)
    ensures Without([x], z) == if x == z then [] else [x]
    ensures Without([x, y], z) == (if x == z then [] else [x]) + (if y == z then [] else [y])
  {
    assert [x][1..] == [] && [x, y][1..] == [y] && [y][1..] == [];
  }

  /** In p the first thread holds l, the third holds m, and others wait for l. */
  ghost predicate Contended(t: Four<Thread>, l: Lock, m: Lock, p: Picture) {
    && p.held == NONE_HELD.(a := [l], w := [m]) && p.releasing == {} && p.waiting.a == null == p.blocked.a
    && p.holder == map[m := t.w, l := t.a] == p.owner
    && (p.waiters == map[l := [t.w]] || p.waiters == map[l := [t.b, t.w]])
  }

  lemma LetGoStep(t: Four<Thread>, l: Lock, m: Lock, p: Picture)
    requires Apart(t) && l != m && Contended(t, l, m, p)
    ensures Goes(Snap(t, p), LetGo(t.a, l), Snap(t, LetsGo(t, l, m, p)))
  {
    hide At, Without;
    SnapReads(t, p);
    AtWrites<seq<Lock>>(t, p.held, []);
    WithoutTwo(l, l, l);
    WithoutTwo(t.w, t.w, t.a);
    WithoutTwo(t.b, t.w, t.a);
    var (s, p1) := (Snap(t, p), LetsGo(t, l, m, p));
    assert Without(Waiters(s.code, l), t.a) == Waiters(s.code, l);
    assert p.waiters[l := Waiters(s.code, l)] == p.waiters;
    assert LockingEnabled(s, LetGo(t.a, l));
    assert p1.holder == p.holder[l := null] && p1.owner == p.owner[l := null];
    assert Without(Held(s.code, t.a), l) == [];
    assert At(t, p1.held) == At(t, p.held)[t.a := []];
    assert Drop(s.code, t.a, l) == Snap(t, p1).code;
  }

  lemma RefreshResult(t: Four<Thread>, l: Lock, m: Lock, p: Picture)
    requires Apart(t) && l != m && Contended(t, l, m, p) && p.priority == BASES.(a := p.priority.a)
    ensures var s := Snap(t, LetsGo(t, l, m, p));
            && LockingEnabled(s, RefreshPriority(t.a))
            && LockingStep(s, RefreshPriority(t.a)) == Snap(t, Released(t, l, m, p))
  {
    hide At;
    var s := Snap(t, LetsGo(t, l, m, p));
    SnapReads(t, LetsGo(t, l, m, p));
    AtWrites<int>(t, p.priority, 1);
    assert Refreshed(s.code, t.a) == 1;
  }

  lemma RefreshStep(t: Four<Thread>, l: Lock, m: Lock, p: Picture)
    requires Apart(t) && l != m && Contended(t, l, m, p) && p.priority == BASES.(a := p.priority.a)
    ensures Goes(Snap(t, LetsGo(t, l, m, p)), RefreshPriority(t.a), Snap(t, Released(t, l, m, p)))
  {
    assert forall x :: x in Snap(t, LetsGo(t, l, m, p)).owner ==> Snap(t, LetsGo(t, l, m, p)).owner[x] != t.a;
    hide Snap, LetsGo, LockingStep, LockingEnabled, CoversSleepers;
    RefreshResult(t, l, m, p);
    NobodyOn(Snap(t, LetsGo(t, l, m, p)), t.a);
  }

  lemma NobodyOn(s: Locking, t: Thread)
    requires forall l :: l in s.owner ==> s.owner[l] != t
    ensures CoversSleepers(s, t)
  {
    hide Refreshed, Key;
    forall x
      ensures Next(Truth(s), x) != t
    {}
  }

  // ----- the opening -----

  lemma StartsAt(t: Four<Thread>)
    requires Apart(t)
    ensures var s1 := Started(NO_THREADS, t.a, 1);
            var s2 := Started(s1, t.b, 7);
            var s3 := Started(s2, t.w, 5);
            && t.a !in NO_THREADS.code.priority && t.b !in s1.code.priority
            && t.w !in s2.code.priority && t.d !in s3.code.priority
            && Started(s3, t.d, 9) == Snap(t, Begun())
  {}

  lemma StartGoes(s: Locking, t: Thread, base: int)
    requires t !in s.code.priority
    ensures Goes(s, Start(t, base), Started(s, t, base))
  {}

  function Opening(t: Four<Thread>, l: Lock, m: Lock): seq<LockingEvent> {
    [Start(t.a, 1), Start(t.b, 7), Start(t.w, 5), Start(t.d, 9), Acquire(t.w, m), Acquire(t.a, l), Acquire(t.w, l)]
  }

  lemma StartsLead(t: Four<Thread>)
    requires Apart(t)
    ensures Leads([] + [Start(t.a, 1)] + [Start(t.b, 7)] + [Start(t.w, 5)] + [Start(t.d, 9)], Snap(t, Begun()))
  {
    NoThreadsIsFine();
    assert Leads([], NO_THREADS);
    hide *;
    StartsAt(t);
    var s1 := Started(NO_THREADS, t.a, 1);
    var s2 := Started(s1, t.b, 7);
    var s3 := Started(s2, t.w, 5);
    StartGoes(NO_THREADS, t.a, 1);
    StartGoes(s1, t.b, 7);
    StartGoes(s2, t.w, 5);
    StartGoes(s3, t.d, 9);
    GoOn([], NO_THREADS, Start(t.a, 1), s1);
    GoOn([] + [Start(t.a, 1)], s1, Start(t.b, 7), s2);
    GoOn([] + [Start(t.a, 1)] + [Start(t.b, 7)], s2, Start(t.w, 5), s3);
    GoOn([] + [Start(t.a, 1)] + [Start(t.b, 7)] + [Start(t.w, 5)], s3, Start(t.d, 9), Snap(t, Begun()));
  }

  /** After the opening the third thread holds m and waits for l, which the first holds. */
  lemma OpeningLeads(t: Four<Thread>, l: Lock, m: Lock)
    requires Apart(t) && l != m
    ensures Leads(Opening(t, l, m), Snap(t, Queues(t, l, m)))
  {
    var es := [] + [Start(t.a, 1)] + [Start(t.b, 7)] + [Start(t.w, 5)] + [Start(t.d, 9)];
    assert Opening(t, l, m) == es + [Acquire(t.w, m)] + [Acquire(t.a, l)] + [Acquire(t.w, l)];
    hide *;
    StartsLead(t);
    HoldMStep(t, m);
    HoldLStep(t, l, m);
    QueueStep(t, l, m);
    GoOn(es, Snap(t, Begun()), Acquire(t.w, m), Snap(t, HoldsM(t, m)));
    GoOn(es + [Acquire(t.w, m)], Snap(t, HoldsM(t, m)), Acquire(t.a, l), Snap(t, HoldsL(t, l, m)));
    GoOn(es + [Acquire(t.w, m)] + [Acquire(t.a, l)], Snap(t, HoldsL(t, l, m)), Acquire(t.w, l),
         Snap(t, Queues(t, l, m)));
  }

  /** Let go of l and refresh. */
  function Release(t: Four<Thread>, l: Lock): seq<LockingEvent> {
    [LetGo(t.a, l), RefreshPriority(t.a)]
  }

  lemma ReleaseLeads(t: Four<Thread>, l: Lock, m: Lock, es: seq<LockingEvent>, p: Picture)
    requires Apart(t) && l != m && Contended(t, l, m, p) && p.priority == BASES.(a := p.priority.a)
    requires Leads(es, Snap(t, p))
    ensures Leads(es + Release(t, l), Snap(t, Released(t, l, m, p)))
  {
    assert es + Release(t, l) == es + [LetGo(t.a, l)] + [RefreshPriority(t.a)];
    hide *;
    LetGoStep(t, l, m, p);
    RefreshStep(t, l, m, p);
    GoOn(es, Snap(t, p), LetGo(t.a, l), Snap(t, LetsGo(t, l, m, p)));
    GoOn(es + [LetGo(t.a, l)], Snap(t, LetsGo(t, l, m, p)), RefreshPriority(t.a), Snap(t, Released(t, l, m, p)));
  }

  // ----- the failing steps -----

  /** Every step of es meets its guard and leaves all priorities right; then e can happen,
      misses its guard, and leaves them wrong. */
  ghost predicate Breaks(es: seq<LockingEvent>, e: LockingEvent) {
    && LockingCanRun(NO_THREADS, es + [e]) && AlwaysGuarded(NO_THREADS, es) && AlwaysRight(NO_THREADS, es)
    && !Guard(LockingRun(NO_THREADS, es), e) && !RightIn(LockingRun(NO_THREADS, es + [e]))
  }

  lemma EdgeOutOfOrder(s: Locking, u: Thread, t: Thread)
    requires Coherent(s) && Next(Truth(s), u) == t && Key(s.code.priority, u) > Key(s.code.priority, t)
    ensures !RightIn(s)
  {
    hide Coherent, Truth, Next, Key;
    if RightIn(s) {
      RightMeans(s);
      TruthIsTidy(s);
      TruthFields(s);
      DonationRight.RightEdge(Truth(s), s.releasing, u, t);
    }
  }

  /** u waits for l, which t owns, and is higher than t. */
  predicate KeptWaiting(s: Locking, u: Thread, l: Lock, t: Thread) {
    BlockedOn(s, u) == l && OwnerOf(s, l) == t && Key(s.code.priority, u) > Key(s.code.priority, t)
  }

  lemma BreaksAt(es: seq<LockingEvent>, s: Locking, e: LockingEvent, u: Thread, l: Lock, t: Thread)
    requires Leads(es, s) && LockingEnabled(s, e) && KeptWaiting(LockingStep(s, e), u, l, t)
    ensures Breaks(es, e) && LockingRun(NO_THREADS, es + [e]) == LockingStep(s, e)
  {
    TruthReads(LockingStep(s, e), u, l);
    hide LockingCanRun, LockingRun, AlwaysGuarded, LockingEnabled, LockingStep, Guard, Coherent, RightIn, Truth, Next;
    DonationIsRightIff(es);
    OneStep(s, e);
    RunsCompose(NO_THREADS, es, [e]);
    StepIsCoherent(s, e);
    StepIsRightIff(s, e);
    EdgeOutOfOrder(LockingStep(s, e), u, t);
  }

  lemma QueuesIsContended(t: Four<Thread>, l: Lock, m: Lock)
    ensures var p := Queues(t, l, m); Contended(t, l, m, p) && p.priority == BASES.(a := p.priority.a)
  {}

  // ----- a write to a donated priority -----

  lemma OverwriteFails(t: Four<Thread>, l: Lock, m: Lock)
    requires Apart(t) && l != m
    ensures var (s, e) := (Snap(t, Queues(t, l, m)), Overwrite(t.a, 1));
            LockingEnabled(s, e) && KeptWaiting(LockingStep(s, e), t.w, l, t.a)
  {
    hide At;
    var s := Snap(t, Queues(t, l, m));
    SnapReads(t, Queues(t, l, m));
    assert LockingStep(s, Overwrite(t.a, 1)) == Overwritten(s, t.a, 1);
    assert BlockedOn(Overwritten(s, t.a, 1), t.w) == BlockedOn(s, t.w);
  }

  /** Overwriting: the holder calls thread_set_priority with its own base priority, and falls
      below the thread that has donated to it. */
  lemma OverwriteLosesDonation(t: Four<Thread>, l: Lock, m: Lock)
    requires Apart(t) && l != m
    ensures var (es, e) := (Opening(t, l, m), Overwrite(t.a, 1));
            Breaks(es, e) && KeptWaiting(LockingRun(NO_THREADS, es + [e]), t.w, l, t.a)
  {
    hide *;
    OpeningLeads(t, l, m);
    OverwriteFails(t, l, m);
    BreaksAt(Opening(t, l, m), Snap(t, Queues(t, l, m)), Overwrite(t.a, 1), t.w, l, t.a);
  }

  // ----- barging -----

  /** In p the third thread holds m and has recorded that it waits for l, which has no
      recorded holder. */
  ghost predicate HolderWaits(t: Four<Thread>, l: Lock, m: Lock, p: Picture) {
    && p.priority.w == 5 && p.priority.d == 9 && t.d !in p.releasing && p.held == NONE_HELD.(w := [m])
    && p.holder == map[m := t.w, l := null] && p.waiting.w == l && p.waiting.d == null == p.blocked.d
    && m !in p.waiters
  }

  /** The fourth thread queues for m and donates to the third. */
  function QueuesForM(t: Four<Thread>, m: Lock, p: Picture): Picture {
    p.(priority := p.priority.(w := 9), waiting := p.waiting.(d := m), waiters := p.waiters[m := [t.d]],
       blocked := p.blocked.(d := m))
  }

  lemma QueueForM(t: Four<Thread>, l: Lock, m: Lock, p: Picture)
    requires Apart(t) && l != m && HolderWaits(t, l, m, p)
    ensures var s := Snap(t, p);
            && LockingEnabled(s, Acquire(t.d, m)) && LockingStep(s, Acquire(t.d, m)) == Snap(t, QueuesForM(t, m, p))
            && Next(Enlist(s.code, t.d, m), t.w) == null && Holder(s.code, m) == t.w
  {
    hide At;
    var s := Snap(t, p);
    SnapReads(t, p);
    AtWrites<int>(t, p.priority, 9);
    AtWrites<Lock?>(t, p.waiting, m);
    AtWrites<Lock?>(t, p.blocked, m);
    QueueOnce(s, t.d, m, t.w, [t.d]);
  }

  /** The donation is not cut short if the third thread waits for nobody. */
  lemma BoostStep(t: Four<Thread>, l: Lock, m: Lock, p: Picture)
    requires Apart(t) && l != m && HolderWaits(t, l, m, p)
    requires p.blocked.w == null || (p.blocked.w == l && p.owner == map[m := t.w, l := null])
    ensures Goes(Snap(t, p), Acquire(t.d, m), Snap(t, QueuesForM(t, m, p)))
  {
    hide At;
    QueueForM(t, l, m, p);
    SnapReads(t, p);
    TruthReads(Snap(t, p), t.w, l);
    ShortChain(Snap(t, p), t.d, m, t.w);
  }

  /** The first thread has let go of l, and the fourth has queued for m. */
  function Boosted(t: Four<Thread>, l: Lock, m: Lock): Picture {
    QueuesForM(t, m, LetsGo(t, l, m, Queues(t, l, m)))
  }

  lemma BargingFails(t: Four<Thread>, l: Lock, m: Lock)
    requires Apart(t) && l != m
    ensures var (s, e) := (Snap(t, Boosted(t, l, m)), Acquire(t.b, l));
            LockingEnabled(s, e) && KeptWaiting(LockingStep(s, e), t.w, l, t.b)
  {
    hide At;
    var p := Boosted(t, l, m);
    var s := Snap(t, p);
    SnapReads(t, p);
    assert Holder(s.code, l) == null == OwnerOf(s, l);
    assert LockingStep(s, Acquire(t.b, l)) == Got(s, t.b, l);
    assert BlockedOn(Got(s, t.b, l), t.w) == BlockedOn(s, t.w) == l;
    assert OwnerOf(Got(s, t.b, l), l) == t.b;
  }

  /** Barging: the second thread takes the lock before the woken one has run, and runs at 7
      while a thread of priority 9 waits for it.

      The scheduler lets it happen.  While the first thread runs at 5, timer interrupts ready
      the second and the fourth, and do not preempt.  The sema_up of its lock_release puts
      the woken thread, at 5, behind both, and yields to the fourth.  The donation raises the
      woken thread to 9 where it stands, so that the second one is dispatched next. */
  lemma BargingLosesDonation(t: Four<Thread>, l: Lock, m: Lock)
    requires Apart(t) && l != m
    ensures var (es, e) := (Opening(t, l, m) + [LetGo(t.a, l), Acquire(t.d, m)], Acquire(t.b, l));
            Breaks(es, e) && KeptWaiting(LockingRun(NO_THREADS, es + [e]), t.w, l, t.b)
  {
    QueuesIsContended(t, l, m);
    var (q, es) := (Queues(t, l, m), Opening(t, l, m));
    assert es + [LetGo(t.a, l), Acquire(t.d, m)] == es + [LetGo(t.a, l)] + [Acquire(t.d, m)];
    BoostStep(t, l, m, LetsGo(t, l, m, q));
    hide *;
    OpeningLeads(t, l, m);
    LetGoStep(t, l, m, q);
    GoOn(es, Snap(t, q), LetGo(t.a, l), Snap(t, LetsGo(t, l, m, q)));
    BoostedIs(t, l, m);
    GoOn(es + [LetGo(t.a, l)], Snap(t, LetsGo(t, l, m, q)), Acquire(t.d, m), Snap(t, Boosted(t, l, m)));
    BargingFails(t, l, m);
    BreaksAt(es + [LetGo(t.a, l)] + [Acquire(t.d, m)], Snap(t, Boosted(t, l, m)), Acquire(t.b, l), t.w, l, t.b);
  }

  lemma BoostedIs(t: Four<Thread>, l: Lock, m: Lock)
    ensures Boosted(t, l, m) == QueuesForM(t, m, LetsGo(t, l, m, Queues(t, l, m)))
  {}

  // ----- the window -----

  function Set<V>(t: Four<Thread>, v: Four<V>, x: Thread, y: V): Four<V> {
    Four(if x == t.a then y else v.a, if x == t.b then y else v.b,
         if x == t.w then y else v.w, if x == t.d then y else v.d)
  }

  lemma AtSet<V>(t: Four<Thread>, v: Four<V>, x: Thread, y: V)
    requires Apart(t) && x in {t.a, t.b, t.w, t.d}
    ensures At(t, v)[x := y] == At(t, Set(t, v, x, y))
  {}

  /** x, which has waited for l, takes the unit. */
  function Takes(t: Four<Thread>, l: Lock, m: Lock, p: Picture, x: Thread): Picture {
    p.(owner := map[m := t.w, l := x], blocked := Set(t, p.blocked, x, null))
  }

  lemma TakeStep(t: Four<Thread>, l: Lock, m: Lock, p: Picture, x: Thread)
    requires Apart(t) && l != m && x in {t.a, t.b, t.w, t.d} && p.owner == map[m := t.w, l := null]
    requires Of(t, p.waiting, x) == l == Of(t, p.blocked, x)
    requires forall y :: y in {t.a, t.b, t.w, t.d} && Of(t, p.blocked, y) == l ==>
               Of(t, p.priority, y) <= Of(t, p.priority, x)
    ensures Goes(Snap(t, p), TakeUnit(x, l), Snap(t, Takes(t, l, m, p, x)))
  {
    TakeResult(t, l, m, p, x);
    hide Snap, LockingStep, LockingEnabled, Takes, Of, Key, WaitsFor, BlockedOn;
    var s := Snap(t, p);
    SnapReads(t, p);
    forall y | y in s.blocked && y != x && BlockedOn(s, y) == l
      ensures Key(s.code.priority, y) <= Key(s.code.priority, x)
    {
      assert y in {t.a, t.b, t.w, t.d} && Of(t, p.blocked, y) == l;
    }
  }

  lemma TakeResult(t: Four<Thread>, l: Lock, m: Lock, p: Picture, x: Thread)
    requires Apart(t) && l != m && x in {t.a, t.b, t.w, t.d} && p.owner == map[m := t.w, l := null]
    requires Of(t, p.waiting, x) == l == Of(t, p.blocked, x)
    ensures LockingEnabled(Snap(t, p), TakeUnit(x, l))
    ensures LockingStep(Snap(t, p), TakeUnit(x, l)) == Snap(t, Takes(t, l, m, p, x))
  {
    hide At, Of, Set, Key, Held;
    var s := Snap(t, p);
    SnapReads(t, p);
    AtSet<Lock?>(t, p.blocked, x, null);
    assert p.owner[l := x] == map[m := t.w, l := x];
  }

  lemma WindowFails(t: Four<Thread>, l: Lock, m: Lock)
    requires Apart(t) && l != m
    ensures var (s, e) := (Snap(t, Takes(t, l, m, Released(t, l, m, Queues(t, l, m)), t.w)), Acquire(t.d, l));
            LockingEnabled(s, e) && KeptWaiting(LockingStep(s, e), t.d, l, t.w)
            && WaitsFor(LockingStep(s, e).code, t.d) == null
  {
    hide At;
    var p := Takes(t, l, m, Released(t, l, m, Queues(t, l, m)), t.w);
    var s := Snap(t, p);
    SnapReads(t, p);
    assert LockingStep(s, Acquire(t.d, l)) == Asleep(s, t.d, l);
    assert OwnerOf(Asleep(s, t.d, l), l) == t.w && BlockedOn(Asleep(s, t.d, l), t.d) == l;
  }

  /** The window: the woken thread of priority 5 has taken the unit and is not yet recorded
      as the holder when a thread of priority 9 calls lock_acquire, sleeps, and donates
      nothing.  The scheduler lets it happen: interrupts are enabled there, and a sema_up in a
      device interrupt readies that thread and yields to it on return. */
  lemma WindowLosesDonation(t: Four<Thread>, l: Lock, m: Lock)
    requires Apart(t) && l != m
    ensures var (es, e) := (Opening(t, l, m) + Release(t, l) + [TakeUnit(t.w, l)], Acquire(t.d, l));
            var s := LockingRun(NO_THREADS, es + [e]);
            Breaks(es, e) && KeptWaiting(s, t.d, l, t.w) && WaitsFor(s.code, t.d) == null
  {
    QueuesIsContended(t, l, m);
    var p := Released(t, l, m, Queues(t, l, m));
    TakeStep(t, l, m, p, t.w);
    hide *;
    OpeningLeads(t, l, m);
    ReleaseLeads(t, l, m, Opening(t, l, m), Queues(t, l, m));
    GoOn(Opening(t, l, m) + Release(t, l), Snap(t, p), TakeUnit(t.w, l), Snap(t, Takes(t, l, m, p, t.w)));
    WindowFails(t, l, m);
    BreaksAt(Opening(t, l, m) + Release(t, l) + [TakeUnit(t.w, l)], Snap(t, Takes(t, l, m, p, t.w)),
             Acquire(t.d, l), t.d, l, t.w);
  }

  // ----- a donation cut short -----

  function BothQueue(t: Four<Thread>, l: Lock, m: Lock): Picture {
    Queues(t, l, m).(priority := BASES.(a := 7), waiting := NO_LOCK.(b := l, w := l),
                     waiters := map[l := [t.b, t.w]], blocked := NO_LOCK.(b := l, w := l))
  }

  lemma BothQueueStep(t: Four<Thread>, l: Lock, m: Lock)
    requires Apart(t) && l != m
    ensures Goes(Snap(t, Queues(t, l, m)), Acquire(t.b, l), Snap(t, BothQueue(t, l, m)))
  {
    hide At;
    var s := Snap(t, Queues(t, l, m));
    SnapReads(t, Queues(t, l, m));
    AtWrites<int>(t, BASES.(a := 5), 7);
    AtWrites<Lock?>(t, NO_LOCK.(w := l), l);
    assert Insert([t.w], s.code.priority, t.b) == [t.b, t.w];
    QueueOnce(s, t.b, l, t.a, [t.b, t.w]);
    ShortChain(s, t.b, l, t.a);
  }

  lemma CutShortFails(t: Four<Thread>, l: Lock, m: Lock)
    requires Apart(t) && l != m
    ensures var p := Takes(t, l, m, Released(t, l, m, BothQueue(t, l, m)), t.b);
            && LockingEnabled(Snap(t, p), Acquire(t.d, m))
            && KeptWaiting(LockingStep(Snap(t, p), Acquire(t.d, m)), t.w, l, t.b)
  {
    var p := Takes(t, l, m, Released(t, l, m, BothQueue(t, l, m)), t.b);
    QueueForM(t, l, m, p);
    hide At;
    SnapReads(t, QueuesForM(t, m, p));
  }

  lemma BothQueueIsContended(t: Four<Thread>, l: Lock, m: Lock)
    ensures var p := BothQueue(t, l, m); Contended(t, l, m, p) && p.priority == BASES.(a := p.priority.a)
  {}

  /** A donation cut short: a thread of priority 9 donates to the holder of m, which waits
      for l, whose unit a thread of priority 7 has taken and not yet recorded: the walk ends
      at the holder of m.  The scheduler lets it happen as in WindowLosesDonation. */
  lemma CutShortLosesDonation(t: Four<Thread>, l: Lock, m: Lock)
    requires Apart(t) && l != m
    ensures var (es, e) := (Opening(t, l, m) + [Acquire(t.b, l)] + Release(t, l) + [TakeUnit(t.b, l)], Acquire(t.d, m));
            Breaks(es, e) && KeptWaiting(LockingRun(NO_THREADS, es + [e]), t.w, l, t.b)
  {
    BothQueueIsContended(t, l, m);
    var q := BothQueue(t, l, m);
    var p := Released(t, l, m, q);
    TakeStep(t, l, m, p, t.b);
    hide *;
    var es := Opening(t, l, m) + [Acquire(t.b, l)];
    OpeningLeads(t, l, m);
    BothQueueStep(t, l, m);
    GoOn(Opening(t, l, m), Snap(t, Queues(t, l, m)), Acquire(t.b, l), Snap(t, q));
    ReleaseLeads(t, l, m, es, q);
    GoOn(es + Release(t, l), Snap(t, p), TakeUnit(t.b, l), Snap(t, Takes(t, l, m, p, t.b)));
    CutShortFails(t, l, m);
    BreaksAt(es + Release(t, l) + [TakeUnit(t.b, l)], Snap(t, Takes(t, l, m, p, t.b)), Acquire(t.d, m), t.w, l, t.b);
  }

  // ----- a refresh that falls too low -----

  /** The third thread has taken the unit of l, and the fourth has queued for m. */
  function TakenBoosted(t: Four<Thread>, l: Lock, m: Lock): Picture {
    QueuesForM(t, m, Takes(t, l, m, Released(t, l, m, Queues(t, l, m)), t.w))
  }

  function Slept(t: Four<Thread>, l: Lock, m: Lock): Picture {
    TakenBoosted(t, l, m).(blocked := NO_LOCK.(b := l, d := m))
  }

  function Recording(t: Four<Thread>, l: Lock, m: Lock): Picture {
    Slept(t, l, m).(holder := map[m := t.w, l := t.w], held := NONE_HELD.(w := [m, l]), waiting := NO_LOCK.(d := m))
  }

  function DropsM(t: Four<Thread>, l: Lock, m: Lock): Picture {
    Recording(t, l, m).(holder := map[m := null, l := t.w], owner := map[m := null, l := t.w],
                        held := NONE_HELD.(w := [l]), releasing := {t.w})
  }

  lemma SleepStep(t: Four<Thread>, l: Lock, m: Lock)
    requires Apart(t) && l != m
    ensures Goes(Snap(t, TakenBoosted(t, l, m)), Acquire(t.b, l), Snap(t, Slept(t, l, m)))
  {
    hide At;
    var p := TakenBoosted(t, l, m);
    var s := Snap(t, p);
    SnapReads(t, p);
    AtWrites<Lock?>(t, p.blocked, l);
    assert p.blocked == NO_LOCK.(d := m);
    assert Holder(s.code, l) == null && OwnerOf(s, l) == t.w;
    assert Key(s.code.priority, t.b) == 7;
    assert Key(s.code.priority, t.w) == 9;
    assert LockingEnabled(s, Acquire(t.b, l));
    assert LockingStep(s, Acquire(t.b, l)) == Asleep(s, t.b, l) == Snap(t, Slept(t, l, m));
  }

  lemma RecordStep(t: Four<Thread>, l: Lock, m: Lock)
    requires Apart(t) && l != m
    ensures Goes(Snap(t, Slept(t, l, m)), Record(t.w, l), Snap(t, Recording(t, l, m)))
  {
    hide At;
    SnapReads(t, Slept(t, l, m));
    AtWrites<Lock?>(t, Slept(t, l, m).waiting, null);
    AtWrites<seq<Lock>>(t, NONE_HELD.(w := [m]), [m, l]);
    assert [m] + [l] == [m, l];
  }

  lemma DropMStep(t: Four<Thread>, l: Lock, m: Lock)
    requires Apart(t) && l != m
    ensures Goes(Snap(t, Recording(t, l, m)), LetGo(t.w, m), Snap(t, DropsM(t, l, m)))
  {
    hide At, Without;
    var (s, p) := (Snap(t, Recording(t, l, m)), Recording(t, l, m));
    SnapReads(t, p);
    WithoutTwo(m, l, m);
    WithoutTwo(t.d, t.d, t.w);
    AtWrites<seq<Lock>>(t, p.held, [l]);
    hide Key;
    assert Without(Held(s.code, t.w), m) == [l] && Without(Waiters(s.code, m), t.w) == [t.d];
    assert p.waiters[m := [t.d]] == p.waiters;
  }

  lemma RefreshFails(t: Four<Thread>, l: Lock, m: Lock)
    requires Apart(t) && l != m
    ensures var (s, e) := (Snap(t, DropsM(t, l, m)), RefreshPriority(t.w));
            && LockingEnabled(s, e) && KeptWaiting(LockingStep(s, e), t.b, l, t.w)
            && Key(LockingStep(s, e).code.priority, t.w) == 5
  {
    hide At, Refreshed;
    var s := Snap(t, DropsM(t, l, m));
    SnapReads(t, DropsM(t, l, m));
    OnlyStaleEntry(s.code, t.w, l);
    var s1 := LockingStep(s, RefreshPriority(t.w));
    assert s1.code.priority == s.code.priority[t.w := 5];
    assert s1.blocked == s.blocked && BlockedOn(s, t.b) == l;
  }

  lemma OnlyStaleEntry(g: Graph, t: Thread, l: Lock)
    requires Held(g, t) == [l] && Waiters(g, l) == [t]
    ensures Refreshed(g, t) == Key(g.base, t)
  {
    var v := Key(g.base, t);
    assert [l][1..] == [] && [t][1..] == [];
    assert WaitersMax(g.priority, [t], t, v) == WaitersMax(g.priority, [], t, v) == v;
    assert LocksMax(g, [l], t, v) == LocksMax(g, [], t, v) == v;
  }

  /** A refresh that falls too low: the holder of l, raised to 9 by a waiter for m, lets go
      of m and falls back to 5, below a thread of priority 7 that sleeps on l unrecorded.

      The scheduler lets it happen.  When the third thread, of priority 5, has taken the unit
      and not yet recorded itself, a device interrupt readies the fourth and yields to it on
      return.  The fourth readies the second and queues for m.  Its donation raises the third
      thread where it stands in the ready list, behind the second, which is dispatched next. */
  lemma RefreshLosesDonation(t: Four<Thread>, l: Lock, m: Lock)
    requires Apart(t) && l != m
    ensures var es := Opening(t, l, m) + Release(t, l)
                      + [TakeUnit(t.w, l), Acquire(t.d, m), Acquire(t.b, l), Record(t.w, l), LetGo(t.w, m)];
            var e := RefreshPriority(t.w);
            var s := LockingRun(NO_THREADS, es + [e]);
            Breaks(es, e) && KeptWaiting(s, t.b, l, t.w) && Key(s.code.priority, t.w) == 5
  {
    QueuesIsContended(t, l, m);
    var p := Released(t, l, m, Queues(t, l, m));
    var taken := Takes(t, l, m, p, t.w);
    var es := Opening(t, l, m) + Release(t, l);
    var es3 := es + [TakeUnit(t.w, l)] + [Acquire(t.d, m)] + [Acquire(t.b, l)];
    assert es + [TakeUnit(t.w, l), Acquire(t.d, m), Acquire(t.b, l), Record(t.w, l), LetGo(t.w, m)]
        == es3 + [Record(t.w, l)] + [LetGo(t.w, m)];
    TakeStep(t, l, m, p, t.w);
    BoostStep(t, l, m, taken);
    assert TakenBoosted(t, l, m) == QueuesForM(t, m, taken);
    hide *;
    OpeningLeads(t, l, m);
    ReleaseLeads(t, l, m, Opening(t, l, m), Queues(t, l, m));
    SleepStep(t, l, m);
    RecordStep(t, l, m);
    DropMStep(t, l, m);
    GoOn(es, Snap(t, p), TakeUnit(t.w, l), Snap(t, taken));
    GoOn(es + [TakeUnit(t.w, l)], Snap(t, taken), Acquire(t.d, m), Snap(t, TakenBoosted(t, l, m)));
    GoOn(es + [TakeUnit(t.w, l)] + [Acquire(t.d, m)], Snap(t, TakenBoosted(t, l, m)), Acquire(t.b, l),
         Snap(t, Slept(t, l, m)));
    GoOn(es3, Snap(t, Slept(t, l, m)), Record(t.w, l), Snap(t, Recording(t, l, m)));
    GoOn(es3 + [Record(t.w, l)], Snap(t, Recording(t, l, m)), LetGo(t.w, m), Snap(t, DropsM(t, l, m)));
    RefreshFails(t, l, m);
    BreaksAt(es3 + [Record(t.w, l)] + [LetGo(t.w, m)], Snap(t, DropsM(t, l, m)), RefreshPriority(t.w), t.b, l, t.w);
  }
}
