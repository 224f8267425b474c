/** Exactly when donated priorities are right, over every run of the lock functions. */
module DonationExact {
  import opened Objects
  import opened OrderedList
  import opened Donation
  import opened DonationBooks
  import opened DonationRight
  import opened DonationRuns

  /** All priorities are right, but for threads still inside lock_release being too high. */
  ghost predicate RightIn(s: Locking) {
    Right(Truth(s), s.releasing)
  }

  // ----- the guards -----

  /** t is at least as high as everybody else who waits for l, asleep unnoticed or queued. */
  predicate Outranks(s: Locking, t: Thread, l: Lock) {
    forall x :: x in s.blocked && x != t && BlockedOn(s, x) == l ==>
      Key(s.code.priority, x) <= Key(s.code.priority, t)
  }

  /** refresh_priority does not bring t below a thread that sleeps unnoticed on a lock that
      t still holds. */
  predicate CoversSleepers(s: Locking, t: Thread) {
    forall x :: x in s.blocked && WaitsFor(s.code, x) == null && Next(Truth(s), x) == t ==>
      Key(s.code.priority, x) <= Refreshed(s.code, t)
  }

  /** p is no lower than t's base priority and the priorities of all who wait for t. */
  predicate CoversAll(s: Locking, t: Thread, p: int) {
    Key(s.code.base, t) <= p
    && forall x :: x in s.blocked && Next(Truth(s), x) == t ==> Key(s.code.priority, x) <= p
  }

  /** Everybody on the chain of recorded holders who really waits, waits for somebody on the
      chain or for somebody at least as high as t: the donation is not cut short at a
      thread that sleeps unnoticed or whose lock has an unrecorded owner. */
  ghost predicate PassesOn(s: Locking, t: Thread, l: Lock, holder: Thread) {
    forall x :: x in s.blocked ==> PassesAt(s, t, l, holder, x)
  }

  ghost predicate PassesAt(s: Locking, t: Thread, l: Lock, holder: Thread, x: Thread) {
    Reaches(Enlist(s.code, t, l), holder, x) && Next(Truth(s), x) != null ==>
      || Reaches(Enlist(s.code, t, l), holder, Next(Truth(s), x))
      || Key(s.code.priority, t) <= Key(s.code.priority, Next(Truth(s), x))
  }

  /** What a caller can check before the step. */
  ghost predicate Guard(s: Locking, e: LockingEvent) {
    match e
    case Acquire(t, l) =>
      if Holder(s.code, l) != null then PassesOn(s, t, l, Holder(s.code, l))
      else if OwnerOf(s, l) != null then Key(s.code.priority, t) <= Key(s.code.priority, OwnerOf(s, l))
      else Outranks(s, t, l)
    case TakeUnit(t, l) => Outranks(s, t, l)
    case RefreshPriority(t) => CoversSleepers(s, t)
    case Overwrite(t, p) => if t in s.releasing then CoversAll(s, t, p) else p == Key(s.code.priority, t)
    case _ => true
  }

  // ----- the true graph -----

  lemma TruthReads(s: Locking, t: Thread, l: Lock)
    ensures WaitsFor(Truth(s), t) == BlockedOn(s, t) && Holder(Truth(s), l) == OwnerOf(s, l)
    ensures Truth(s).priority == s.code.priority && Truth(s).base == s.code.base && Truth(s).waiting == s.blocked
    ensures BlockedOn(s, t) == null ==> Next(Truth(s), t) == null
    ensures BlockedOn(s, t) == l ==> Next(Truth(s), t) == OwnerOf(s, l)
  {}

  lemma TrueEdge(s: Locking, u: Thread) returns (m: Lock)
    requires Next(Truth(s), u) != null
    ensures BlockedOn(s, u) == m && OwnerOf(s, m) == Next(Truth(s), u) && u in s.blocked
  {
    m := BlockedOn(s, u);
  }

  lemma TruthIsTidy(s: Locking)
    requires Coherent(s)
    ensures Tidy(Truth(s), s.releasing)
    ensures s.code.base.Keys == s.code.priority.Keys == s.blocked.Keys
  {
    Domains(s);
    hide Coherent, Next;
    forall u | u in s.blocked && Next(Truth(s), u) != null
      ensures TidyEdge(Truth(s), s.releasing, u)
    {
      var m := TrueEdge(s, u);
      PhasesMean(s, u, m);
    }
  }

  /** Whatever the pointers say is true. */
  lemma CodeEdgeIsTrue(s: Locking, u: Thread)
    requires Coherent(s) && Next(s.code, u) != null
    ensures Next(Truth(s), u) == Next(s.code, u)
  {
    var m := WaitsFor(s.code, u);
    hide Coherent;
    PhasesMean(s, u, m);
  }

  lemma CodeEdgesAreTrue(s: Locking)
    requires Coherent(s)
    ensures Extends(s.code, Truth(s))
  {
    hide Coherent, Next;
    forall u | u in s.code.waiting && Next(s.code, u) != null
      ensures Next(Truth(s), u) == Next(s.code, u)
    {
      CodeEdgeIsTrue(s, u);
    }
  }

  // ----- taking the unit -----

  /** s1 is s after t has taken the unit of l. */
  ghost predicate TakesUnit(s: Locking, s1: Locking, t: Thread, l: Lock) {
    && s1.owner == s.owner[l := t] && OwnerOf(s, l) == null
    && (s1.blocked == s.blocked || s1.blocked == s.blocked[t := null])
    && BlockedOn(s1, t) == null && (BlockedOn(s, t) == null || BlockedOn(s, t) == l)
    && s1.code.priority == s.code.priority && s1.code.base == s.code.base && s1.releasing == s.releasing
    && t in s.code.priority && t !in s.releasing
  }

  lemma TakesUnitEdge(s: Locking, s1: Locking, t: Thread, l: Lock, x: Thread)
    requires TakesUnit(s, s1, t, l)
    ensures Next(Truth(s), t) == null == Next(Truth(s1), t)
    ensures x != t ==> BlockedOn(s1, x) == BlockedOn(s, x)
    ensures x != t && BlockedOn(s, x) == l ==> Next(Truth(s), x) == null && Next(Truth(s1), x) == t
    ensures x != t && BlockedOn(s, x) != l ==> Next(Truth(s1), x) == Next(Truth(s), x)
  {}

  lemma TakesUnitChange(s: Locking, s1: Locking, t: Thread, l: Lock)
    requires TakesUnit(s, s1, t, l)
    ensures ChangeAt(Truth(s), Truth(s1), t) && Extends(Truth(s), Truth(s1))
    ensures t in s.code.priority && t !in s.releasing && s1.releasing == s.releasing
    ensures s1.code.priority == s.code.priority && s1.code.base == s.code.base
  {
    forall x
      ensures x == t ==> Next(Truth(s), x) == null == Next(Truth(s1), x)
      ensures x != t && BlockedOn(s, x) == l ==> Next(Truth(s), x) == null && Next(Truth(s1), x) == t
      ensures x != t && BlockedOn(s, x) != l ==> Next(Truth(s1), x) == Next(Truth(s), x)
    {
      TakesUnitEdge(s, s1, t, l, x);
    }
    hide Next;
  }

  ghost predicate AboveWaiters(g: Graph, h: Graph, t: Thread) {
    forall w :: w in h.waiting && Next(h, w) == t ==> Key(g.priority, w) <= Key(h.priority, t)
  }

  lemma AboveWaitersIffOutranks(s: Locking, s1: Locking, t: Thread, l: Lock)
    requires Coherent(s) && Coherent(s1) && RightIn(s) && TakesUnit(s, s1, t, l)
    ensures AboveWaiters(Truth(s), Truth(s1), t) <==> Outranks(s, t, l)
  {
    TakesUnitChange(s, s1, t, l);
    hide Coherent, TakesUnit, RightIn, Truth, Next, ChangeAt, Extends;
    TruthIsTidy(s);
    TruthIsTidy(s1);
    TruthReads(s, t, l);
    TruthReads(s1, t, l);
    RightMeans(s);
    if Outranks(s, t, l) {
      forall w | w in Truth(s1).waiting && Next(Truth(s1), w) == t
        ensures Key(Truth(s).priority, w) <= Key(Truth(s1).priority, t)
      {
        TakesUnitEdge(s, s1, t, l, w);
        if BlockedOn(s, w) != l {
          RightEdge(Truth(s), s.releasing, w, t);
        }
      }
    }
    if AboveWaiters(Truth(s), Truth(s1), t) {
      forall x | x in s.blocked && x != t && BlockedOn(s, x) == l
        ensures Key(s.code.priority, x) <= Key(s.code.priority, t)
      {
        TakesUnitEdge(s, s1, t, l, x);
      }
    }
  }

  lemma RightMeans(s: Locking)
    ensures RightIn(s) <==> Right(Truth(s), s.releasing)
  {}

  /** Taking the unit of a lock keeps all priorities right if and only if the taker
      outranks everybody left waiting. */
  lemma TakeIsRightIff(s: Locking, s1: Locking, t: Thread, l: Lock)
    requires Coherent(s) && Coherent(s1) && RightIn(s) && TakesUnit(s, s1, t, l)
    ensures RightIn(s1) <==> Outranks(s, t, l)
  {
    hide *;
    TakesUnitChange(s, s1, t, l);
    TruthIsTidy(s);
    TruthIsTidy(s1);
    TruthReads(s, t, l);
    TruthReads(s1, t, l);
    RightMeans(s);
    RightMeans(s1);
    BaseBound(Truth(s), s.releasing, t);
    AttainedExtends(Truth(s), Truth(s1), s.releasing, t);
    ChangeDecides(Truth(s), Truth(s1), s.releasing, s1.releasing, t);
    AboveWaitersIffOutranks(s, s1, t, l);
  }

  lemma ChangeDecides(g: Graph, h: Graph, late: set<Thread>, now: set<Thread>, t: Thread)
    requires Right(g, late) && Tidy(h, now) && ChangeAt(g, h, t) && Key(g.base, t) <= Key(h.priority, t)
    requires forall y :: y in g.priority && y != t ==> (y in now <==> y in late)
    requires t !in now ==> Attained(h, t)
    ensures Right(h, now) <==> AboveWaiters(g, h, t)
  {
    ChangeIsRightIff(g, h, late, now, t);
  }

  // ----- recording the holder, letting go, refreshing -----

  /** s1 is s with t's priority or edges into t changed; t waits for nobody. */
  lemma SameTruth(s: Locking, s1: Locking, t: Thread)
    requires s1.owner == s.owner && s1.blocked == s.blocked && s1.code.base == s.code.base
    requires s1.code.priority == s.code.priority || s1.code.priority == s.code.priority[t := Key(s1.code.priority, t)]
    requires BlockedOn(s, t) == null && t in s.code.priority
    ensures ChangeAt(Truth(s), Truth(s1), t) && Extends(Truth(s), Truth(s1))
    ensures forall w :: Next(Truth(s1), w) == Next(Truth(s), w)
  {}

  lemma RecordedFields(s: Locking, t: Thread, l: Lock)
    ensures var s1 := Recorded(s, t, l);
            && s1.owner == s.owner && s1.blocked == s.blocked && s1.releasing == s.releasing
            && s1.code.base == s.code.base && s1.code.priority == s.code.priority
  {}

  /** Recording the holder changes nothing about who waits for whom. */
  lemma RecordStaysRight(s: Locking, t: Thread, l: Lock)
    requires Coherent(s) && RightIn(s) && LockingEnabled(s, Record(t, l))
    ensures RightIn(Recorded(s, t, l))
  {
    var s1 := Recorded(s, t, l);
    RecordedFields(s, t, l);
    hide Coherent, Recorded, Truth, Next, ChangeAt, Extends, RightIn, Right, Tidy, BlockedOn;
    RecordKeepsPhases(s, t, l);
    PhasesMean(s, t, l);
    CoherentMeans(s, t);
    NotReleasing(s, t, l);
    SameTruth(s, s1, t);
    TruthIsTidy(s);
    TruthIsTidy(s1);
    TruthReads(s, t, l);
    TruthReads(s1, t, l);
    RightMeans(s);
    RightMeans(s1);
    BaseBound(Truth(s), s.releasing, t);
    AttainedExtends(Truth(s), Truth(s1), s.releasing, t);
    forall w | w in Truth(s1).waiting && Next(Truth(s1), w) == t
      ensures Key(Truth(s).priority, w) <= Key(Truth(s1).priority, t)
    {
      RightEdge(Truth(s), s.releasing, w, t);
    }
    ChangeDecides(Truth(s), Truth(s1), s.releasing, s1.releasing, t);
  }

  lemma NotReleasing(s: Locking, t: Thread, l: Lock)
    requires ThreadPhase(s, t) && WaitsFor(s.code, t) == l
    ensures t !in s.releasing
  {}

  /** Letting go removes edges; the releasing thread may be left too high, not too low. */
  lemma LetGoStaysRight(s: Locking, t: Thread, l: Lock)
    requires Coherent(s) && RightIn(s) && LockingEnabled(s, LetGo(t, l))
    ensures RightIn(LetGone(s, t, l))
  {
    hide Coherent, LetGone, Truth, Next, ChangeAt, Extends, RightIn, Right, Tidy, BlockedOn;
    var s1 := LetGone(s, t, l);
    LetGoneChange(s, t, l);
    LetGoKeepsPhases(s, t, l);
    TruthIsTidy(s);
    TruthIsTidy(s1);
    TruthReads(s, t, l);
    TruthReads(s1, t, l);
    RightMeans(s);
    RightMeans(s1);
    RunsMeans(s, t);
    BaseBound(Truth(s), s.releasing, t);
    forall w | w in Truth(s1).waiting && Next(Truth(s1), w) == t
      ensures Key(Truth(s).priority, w) <= Key(Truth(s1).priority, t)
    {
      RightEdge(Truth(s), s.releasing, w, t);
    }
    ChangeDecides(Truth(s), Truth(s1), s.releasing, s1.releasing, t);
  }

  lemma LetGoneChange(s: Locking, t: Thread, l: Lock)
    requires Coherent(s) && LockingEnabled(s, LetGo(t, l))
    ensures ChangeAt(Truth(s), Truth(LetGone(s, t, l)), t)
    ensures forall w :: Next(Truth(LetGone(s, t, l)), w) == t ==> Next(Truth(s), w) == t
    ensures LetGone(s, t, l).releasing == s.releasing + {t} && LetGone(s, t, l).code.priority == s.code.priority
  {
    assert OwnerOf(s, l) == t by {
      hide Coherent;
      PhasesMean(s, t, l);
    }
    hide Coherent, Without;
  }

  /** An edge into a releasing thread comes from a waiter on one of its held locks, or from
      an unnoticed sleeper. */
  lemma EdgeIntoReleasing(s: Locking, t: Thread, w: Thread)
    requires Coherent(s) && t in s.releasing && Next(Truth(s), w) == t && WaitsFor(s.code, w) != null
    ensures WaitsFor(s.code, w) in Held(s.code, t) && w in Waiters(s.code, WaitsFor(s.code, w)) && w != t
  {
    hide Coherent, Truth, Next;
    var m := TrueEdge(s, w);
    PhasesMean(s, w, m);
    PhasesMean(s, t, m);
    CoherentMeans(s, t);
    ListsMatchPointers(s.code, m, w);
    ListsMatchPointers(s.code, m, t);
  }

  /** And the waiters on held locks have such an edge. */
  lemma WaiterHasEdge(s: Locking, t: Thread, m: Lock, w: Thread)
    requires Coherent(s) && m in Held(s.code, t) && w in Waiters(s.code, m) && w != t
    ensures Next(Truth(s), w) == t && w in s.code.priority && w !in s.releasing
  {
    hide Coherent;
    CoherentMeans(s, w);
    ListsMatchPointers(s.code, m, w);
    ListsMatchPointers(s.code, m, t);
    PhasesMean(s, w, m);
  }

  lemma RefreshedIsBase(s: Locking, t: Thread)
    ensures Key(s.code.base, t) <= Refreshed(s.code, t)
  {
    RefreshIsMax(s.code, t, s.code.priority);
  }

  lemma TruthFields(s: Locking)
    ensures Truth(s).priority == s.code.priority && Truth(s).base == s.code.base && Truth(s).waiting == s.blocked
  {}

  lemma RefreshChange(s: Locking, t: Thread)
    requires Coherent(s) && t in s.releasing
    ensures var s1 := RefreshedIn(s, t);
            && ChangeAt(Truth(s), Truth(s1), t) && s1.releasing == s.releasing - {t}
            && Key(s1.code.priority, t) == Refreshed(s.code, t) && s1.blocked == s.blocked
            && t in s.code.priority && s1.code.base == s.code.base
            && (forall w :: Next(Truth(s1), w) == Next(Truth(s), w))
  {
    hide Refreshed, Consistent;
    ThreadPhaseOf(s, t);
  }

  lemma RefreshIsAttained(s: Locking, t: Thread)
    requires Coherent(s) && RightIn(s) && LockingEnabled(s, RefreshPriority(t))
    ensures Attained(Truth(RefreshedIn(s, t)), t)
  {
    var s1 := RefreshedIn(s, t);
    hide Coherent, RefreshedIn, Next, ChangeAt, RightIn, Right, Tidy, Refreshed, Attained, Truth;
    RefreshChange(s, t);
    TruthIsTidy(s);
    TruthFields(s);
    TruthFields(s1);
    RightMeans(s);
    RefreshIsMax(s.code, t, s.code.priority);
    if Refreshed(s.code, t) == Key(s.code.base, t) {
      ReachesItself(Truth(s1), t);
      MakeAttained(Truth(s1), t, t);
    } else {
      var m, w :| m in Held(s.code, t) && w in Waiters(s.code, m) && w != t
                  && Key(s.code.priority, w) == Refreshed(s.code, t);
      WaiterHasEdge(s, t, m, w);
      AttainedThrough(Truth(s), Truth(s1), s.releasing, t, w);
    }
  }

  lemma AboveWaitersIffCovers(s: Locking, t: Thread)
    requires Coherent(s) && t in s.releasing
    ensures AboveWaiters(Truth(s), Truth(RefreshedIn(s, t)), t) <==> CoversSleepers(s, t)
  {
    var s1 := RefreshedIn(s, t);
    hide Coherent, RefreshedIn, Next, ChangeAt, Refreshed, Truth;
    RefreshChange(s, t);
    TruthFields(s);
    TruthFields(s1);
    RefreshIsMax(s.code, t, s.code.priority);
    if CoversSleepers(s, t) {
      forall w | w in Truth(s1).waiting && Next(Truth(s1), w) == t
        ensures Key(Truth(s).priority, w) <= Key(Truth(s1).priority, t)
      {
        if WaitsFor(s.code, w) != null {
          EdgeIntoReleasing(s, t, w);
        }
      }
    }
  }

  /** refresh_priority ends lock_release with the right priority if and only if it does not
      fall below an unnoticed sleeper. */
  lemma RefreshIsRightIff(s: Locking, t: Thread)
    requires Coherent(s) && RightIn(s) && LockingEnabled(s, RefreshPriority(t))
    ensures RightIn(RefreshedIn(s, t)) <==> CoversSleepers(s, t)
  {
    var s1 := RefreshedIn(s, t);
    hide Coherent, RefreshedIn, Next, ChangeAt, RightIn, Right, Tidy, Refreshed, Attained, Truth, CoversSleepers;
    hide AboveWaiters;
    RefreshKeepsPhases(s, t);
    RefreshChange(s, t);
    TruthIsTidy(s1);
    TruthFields(s);
    TruthFields(s1);
    RightMeans(s);
    RightMeans(s1);
    RefreshedIsBase(s, t);
    RefreshIsAttained(s, t);
    ChangeDecides(Truth(s), Truth(s1), s.releasing, s1.releasing, t);
    AboveWaitersIffCovers(s, t);
  }

  // ----- writes that have nothing to do with locks -----

  lemma OverwrittenFields(s: Locking, t: Thread, p: int)
    ensures var s1 := Overwritten(s, t, p);
            && s1.owner == s.owner && s1.blocked == s.blocked && s1.releasing == s.releasing
            && s1.code.base == s.code.base && s1.code.priority == s.code.priority[t := p]
            && Key(s1.code.priority, t) == p
    ensures t in s.code.priority && p == Key(s.code.priority, t) ==> Overwritten(s, t, p) == s
  {
    assert t in s.code.priority ==> s.code.priority[t := s.code.priority[t]] == s.code.priority;
  }

  /** Who waits for whom stays the same. */
  lemma OverwrittenReach(s: Locking, t: Thread, p: int)
    ensures forall u :: Next(Truth(Overwritten(s, t, p)), u) == Next(Truth(s), u)
    ensures Extends(Truth(s), Truth(Overwritten(s, t, p))) && Extends(Truth(Overwritten(s, t, p)), Truth(s))
  {}

  /** A right priority is the only right one. */
  lemma RightIsUnique(g: Graph, h: Graph, late: set<Thread>, t: Thread)
    requires Right(g, late) && Right(h, late) && t in g.priority && t in h.priority && t !in late
    requires g.base == h.base && Extends(g, h) && Extends(h, g)
    ensures Key(g.priority, t) == Key(h.priority, t)
  {
    hide *;
    var y := Witness(g, late, t);
    var z := Witness(h, late, t);
    ExtendsReach(g, h, y, t);
    ExtendsReach(h, g, z, t);
    UpperBound(g, late, z, t);
    UpperBound(h, late, y, t);
  }

  lemma AboveWaitersIffCoversAll(s: Locking, t: Thread, p: int)
    requires Key(s.code.base, t) <= p
    ensures AboveWaiters(Truth(s), Truth(Overwritten(s, t, p)), t) <==> CoversAll(s, t, p)
  {
    hide Truth, Next, Overwritten;
    OverwrittenFields(s, t, p);
    OverwrittenReach(s, t, p);
    TruthFields(s);
    TruthFields(Overwritten(s, t, p));
  }

  lemma OverwriteReleasing(s: Locking, t: Thread, p: int)
    requires Coherent(s) && RightIn(s) && t in s.releasing
    ensures RightIn(Overwritten(s, t, p)) <==> CoversAll(s, t, p)
  {
    var s1 := Overwritten(s, t, p);
    hide Coherent, RightIn, Right, Tidy, Truth, Next, ChangeAt, Overwritten, BlockedOn, AboveWaiters;
    ReleasingMeans(s, t);
    OverwriteKeepsPhases(s, t, p);
    OverwrittenFields(s, t, p);
    SameTruth(s, s1, t);
    TruthIsTidy(s);
    TruthIsTidy(s1);
    TruthFields(s);
    TruthFields(s1);
    RightMeans(s);
    RightMeans(s1);
    if Key(s.code.base, t) <= p {
      ChangeDecides(Truth(s), Truth(s1), s.releasing, s1.releasing, t);
      AboveWaitersIffCoversAll(s, t, p);
    } else if RightIn(s1) {
      BaseBound(Truth(s1), s1.releasing, t);
    }
  }

  lemma ReleasingMeans(s: Locking, t: Thread)
    requires Coherent(s) && t in s.releasing
    ensures t in s.code.priority && t in s.code.base && BlockedOn(s, t) == null
  {
    hide Consistent;
    ThreadPhaseOf(s, t);
    Domains(s);
  }

  /** A write by thread_set_priority or mlfqs_update_priority keeps all priorities right if
      and only if it changes nothing, or hits a thread inside lock_release and leaves it no
      lower than its base priority and those who wait for it. */
  lemma OverwriteIsRightIff(s: Locking, t: Thread, p: int)
    requires Coherent(s) && RightIn(s) && t in s.code.priority
    ensures RightIn(Overwritten(s, t, p)) <==> Guard(s, Overwrite(t, p))
  {
    var s1 := Overwritten(s, t, p);
    hide Coherent, RightIn, Right, Truth, Next, Overwritten, CoversAll;
    if t in s.releasing {
      OverwriteReleasing(s, t, p);
    } else {
      OverwrittenFields(s, t, p);
      OverwrittenReach(s, t, p);
      TruthFields(s);
      TruthFields(s1);
      RightMeans(s);
      RightMeans(s1);
      if RightIn(s1) {
        RightIsUnique(Truth(s), Truth(s1), s.releasing, t);
      }
    }
  }

  // ----- sleeping unnoticed -----

  lemma AsleepEdges(s: Locking, t: Thread, l: Lock, x: Thread)
    requires Runs(s, t)
    ensures var s1 := Asleep(s, t, l);
            && s1.code == s.code && s1.releasing == s.releasing && t in s1.blocked
            && Next(Truth(s), t) == null && Next(Truth(s1), t) == OwnerOf(s, l)
            && (x != t ==> Next(Truth(s1), x) == Next(Truth(s), x))
  {}

  lemma AsleepGrows(s: Locking, t: Thread, l: Lock)
    requires Runs(s, t)
    ensures Grows(Truth(s), Truth(Asleep(s, t, l)), t)
  {
    var s1 := Asleep(s, t, l);
    TruthFields(s);
    TruthFields(s1);
    assert s1.code == s.code;
    hide Next, Truth, Reaches;
    forall u | u in s.blocked && Next(Truth(s), u) != null
      ensures Next(Truth(s1), u) == Next(Truth(s), u)
    {
      AsleepEdges(s, t, l, u);
    }
  }

  /** A thread that sleeps unnoticed keeps all priorities right if and only if it finds an
      owner at least as high as itself. */
  lemma SleepIsRightIff(s: Locking, t: Thread, l: Lock, owner: Thread)
    requires Coherent(s) && RightIn(s) && Runs(s, t) && Holder(s.code, l) == null && OwnerOf(s, l) == owner
    ensures RightIn(Asleep(s, t, l)) <==> Key(s.code.priority, t) <= Key(s.code.priority, owner)
  {
    var s1 := Asleep(s, t, l);
    hide Coherent, Asleep, Next, Grows, RightIn, Right, Tidy, Truth;
    RunsMeans(s, t);
    SleepKeepsPhases(s, t, l);
    AsleepGrows(s, t, l);
    AsleepEdges(s, t, l, t);
    TruthIsTidy(s);
    TruthIsTidy(s1);
    TruthFields(s);
    TruthFields(s1);
    RightMeans(s);
    RightMeans(s1);
    GrowthIsRightIff(Truth(s), Truth(s1), s.releasing, t);
    if Key(s.code.priority, t) <= Key(s.code.priority, owner) {
      forall u | u in s1.blocked && Next(Truth(s1), u) != null
        ensures Key(s.code.priority, u) <= Key(s.code.priority, Next(Truth(s1), u))
      {
        AsleepEdges(s, t, l, u);
        if u != t {
          RightEdge(Truth(s), s.releasing, u, Next(Truth(s), u));
        }
      }
    }
  }

  // ----- queueing and donating -----

  lemma QueuedFields(s: Locking, t: Thread, l: Lock, holder: Thread)
    requires Runs(s, t) && Holder(s.code, l) == holder
    ensures var (s1, c) := (Queued(s, t, l, holder), Enlist(s.code, t, l));
            && s1.code.priority == Donate(c, s.code.priority, Key(s.code.priority, t), holder)
            && s1.code.base == s.code.base && s1.releasing == s.releasing && c.priority == s.code.priority
            && s1.owner == s.owner && s1.blocked == s.blocked[t := l]
            && s1.code.waiting == c.waiting && s1.code.holder == c.holder
            && c.waiting == s.code.waiting[t := l] && c.holder == s.code.holder
            && Next(c, t) == holder
            && (forall u :: u != t ==> Next(c, u) == Next(s.code, u))
            && (forall u :: Next(s1.code, u) == Next(c, u))
  {
    hide Donate, Insert;
  }

  lemma QueuedEdges(s: Locking, t: Thread, l: Lock, holder: Thread, x: Thread)
    requires Coherent(s) && Runs(s, t) && Holder(s.code, l) == holder
    ensures var s1 := Queued(s, t, l, holder);
            && Next(Truth(s), t) == null && Next(Truth(s1), t) == holder
            && (x != t ==> Next(Truth(s1), x) == Next(Truth(s), x))
  {
    assert OwnerOf(s, l) == holder by {
      hide Coherent;
      PhasesMean(s, t, l);
    }
    hide Coherent, Contend;
  }

  /** The walk of the donation covers everybody on the chain of recorded holders. */
  lemma QueuedWalks(s: Locking, t: Thread, l: Lock, holder: Thread)
    requires Coherent(s) && RightIn(s) && Runs(s, t) && Holder(s.code, l) == holder && holder != t
    ensures FullWalk(Enlist(s.code, t, l), s.code.priority, Key(s.code.priority, t), holder,
                     Queued(s, t, l, holder).code.priority)
  {
    var c := Enlist(s.code, t, l);
    hide Coherent, RightIn, Right, Tidy, Truth, Enlist, Queued, FullWalk, Donate, Runs, Next, Reaches;
    RunsMeans(s, t);
    QueuedFields(s, t, l, holder);
    TruthIsTidy(s);
    TruthFields(s);
    RightMeans(s);
    CoherentMeans(s, t);
    HolderKnown(s, l, holder);
    forall u | u in c.waiting && Next(c, u) != null
      ensures u in s.code.priority && Next(c, u) in s.code.priority
      ensures u != t ==> Key(s.code.priority, u) <= Key(s.code.priority, Next(c, u))
    {
      if u != t {
        CodeEdgeIsTrue(s, u);
        RightEdge(Truth(s), s.releasing, u, Next(Truth(s), u));
        EdgeIsTidy(Truth(s), s.releasing, u);
      }
    }
    QueueIsClosed(s, t, l);
    EarlyExitIsFullWalk(c, t, holder);
  }

  lemma QueueIsClosed(s: Locking, t: Thread, l: Lock)
    requires Aligned(s) && t in s.code.priority
    requires forall u :: u in Enlist(s.code, t, l).waiting && Next(Enlist(s.code, t, l), u) != null ==>
               Next(Enlist(s.code, t, l), u) in s.code.priority
    ensures Closed(Enlist(s.code, t, l), s.code.priority)
  {
    hide Next, Insert;
  }

  lemma HolderKnown(s: Locking, l: Lock, holder: Thread)
    requires Coherent(s) && Holder(s.code, l) == holder
    ensures holder in s.code.priority && OwnerOf(s, l) == holder
  {
    hide Coherent;
    PhasesMean(s, holder, l);
  }

  lemma WalkAt(g: Graph, before: map<Thread, int>, v: int, to: Thread, after: map<Thread, int>, y: Thread)
    requires FullWalk(g, before, v, to, after) && y in before
    ensures after.Keys == before.Keys
    ensures Key(after, y) == if Reaches(g, to, y) && Key(before, y) < v then v else Key(before, y)
  {}

  lemma QueuedReach(s: Locking, t: Thread, l: Lock, holder: Thread, y: Thread)
    requires Coherent(s) && Runs(s, t) && Holder(s.code, l) == holder && holder != t
    requires Reaches(Enlist(s.code, t, l), holder, y)
    ensures Reaches(Truth(Queued(s, t, l, holder)), t, y)
  {
    var (s1, c) := (Queued(s, t, l, holder), Enlist(s.code, t, l));
    hide Coherent, Truth, Enlist, Queued, Donate, Runs, Next, Reaches;
    QueueKeepsPhases(s, t, l, holder);
    QueuedFields(s, t, l, holder);
    QueuedEdges(s, t, l, holder, t);
    CodeEdgesAreTrue(s1);
    ExtendsReach(c, s1.code, holder, y);
    ExtendsReach(s1.code, Truth(s1), holder, y);
    ReachesThroughNext(Truth(s1), t, y);
  }

  lemma QueuedGrows(s: Locking, t: Thread, l: Lock, holder: Thread)
    requires Coherent(s) && RightIn(s) && Runs(s, t) && Holder(s.code, l) == holder && holder != t
    ensures Grows(Truth(s), Truth(Queued(s, t, l, holder)), t)
  {
    var (s1, c) := (Queued(s, t, l, holder), Enlist(s.code, t, l));
    hide Coherent, RightIn, Truth, Enlist, Queued, FullWalk, Donate, Runs, Next, Reaches;
    RunsMeans(s, t);
    QueuedFields(s, t, l, holder);
    QueuedWalks(s, t, l, holder);
    WalkAt(c, s.code.priority, Key(s.code.priority, t), holder, s1.code.priority, t);
    TruthFields(s);
    TruthFields(s1);
    forall u | u in s.blocked && Next(Truth(s), u) != null
      ensures Next(Truth(s1), u) == Next(Truth(s), u)
    {
      QueuedEdges(s, t, l, holder, u);
    }
    forall y | y in s.code.priority
      ensures GrowsAt(Truth(s), Truth(s1), t, y)
    {
      WalkAt(c, s.code.priority, Key(s.code.priority, t), holder, s1.code.priority, y);
      if Reaches(c, holder, y) {
        QueuedReach(s, t, l, holder, y);
      }
    }
  }

  /** An edge is in order after the donation if and only if the donation passed on at it. */
  lemma EdgeAfterDonation(s: Locking, t: Thread, l: Lock, holder: Thread, x: Thread)
    requires Coherent(s) && RightIn(s) && Runs(s, t) && Holder(s.code, l) == holder && holder != t
    requires Next(Truth(Queued(s, t, l, holder)), x) != null
    ensures var (s1, y) := (Queued(s, t, l, holder), Next(Truth(Queued(s, t, l, holder)), x));
            Key(s1.code.priority, x) <= Key(s1.code.priority, y) <==> PassesAt(s, t, l, holder, x)
  {
    var (s1, c, v) := (Queued(s, t, l, holder), Enlist(s.code, t, l), Key(s.code.priority, t));
    hide Coherent, RightIn, Right, Tidy, Truth, Enlist, Queued, FullWalk, Donate, Runs, Next, Reaches;
    RunsMeans(s, t);
    QueuedWalks(s, t, l, holder);
    QueuedEdges(s, t, l, holder, x);
    HolderKnown(s, l, holder);
    TruthIsTidy(s);
    TruthFields(s);
    RightMeans(s);
    var y: Thread := Next(Truth(s1), x);
    ReachesItself(c, holder);
    WalkAt(c, s.code.priority, v, holder, s1.code.priority, t);
    WalkAt(c, s.code.priority, v, holder, s1.code.priority, holder);
    if x != t {
      EdgeIsTidy(Truth(s), s.releasing, x);
      RightEdge(Truth(s), s.releasing, x, y);
      WalkAt(c, s.code.priority, v, holder, s1.code.priority, x);
      WalkAt(c, s.code.priority, v, holder, s1.code.priority, y);
    }
  }

  /** A contended lock_acquire keeps all priorities right if and only if its donation is
      not cut short; on cyclic graphs, too. */
  lemma QueueIsRightIff(s: Locking, t: Thread, l: Lock, holder: Thread)
    requires Coherent(s) && RightIn(s) && Runs(s, t) && Holder(s.code, l) == holder && holder != t
    ensures RightIn(Queued(s, t, l, holder)) <==> PassesOn(s, t, l, holder)
  {
    var s1 := Queued(s, t, l, holder);
    hide Coherent, RightIn, Right, Tidy, Truth, Queued, Grows, Runs, Next, PassesAt;
    RunsMeans(s, t);
    QueueKeepsPhases(s, t, l, holder);
    QueuedFields(s, t, l, holder);
    QueuedGrows(s, t, l, holder);
    TruthIsTidy(s);
    TruthIsTidy(s1);
    TruthFields(s);
    TruthFields(s1);
    RightMeans(s);
    RightMeans(s1);
    GrowthIsRightIff(Truth(s), Truth(s1), s.releasing, t);
    MonotoneIffPasses(s, t, l, holder);
  }

  lemma MonotoneIffPasses(s: Locking, t: Thread, l: Lock, holder: Thread)
    requires Coherent(s) && RightIn(s) && Runs(s, t) && Holder(s.code, l) == holder && holder != t
    ensures Monotone(Truth(Queued(s, t, l, holder)), Queued(s, t, l, holder).code.priority)
            <==> PassesOn(s, t, l, holder)
  {
    var s1 := Queued(s, t, l, holder);
    hide Coherent, RightIn, Truth, Queued, Runs, Next, PassesAt;
    RunsMeans(s, t);
    QueuedFields(s, t, l, holder);
    TruthFields(s);
    TruthFields(s1);
    TruthIsTidy(s);
    forall x
      ensures Next(Truth(s1), x) != null ==>
                (Key(s1.code.priority, x) <= Key(s1.code.priority, Next(Truth(s1), x))
                 <==> PassesAt(s, t, l, holder, x))
      ensures Next(Truth(s1), x) == null ==> PassesAt(s, t, l, holder, x)
    {
      if Next(Truth(s1), x) != null {
        EdgeAfterDonation(s, t, l, holder, x);
      } else {
        QueuedEdges(s, t, l, holder, x);
        NoEdgePasses(s, t, l, holder, x);
      }
    }
  }

  lemma NoEdgePasses(s: Locking, t: Thread, l: Lock, holder: Thread, x: Thread)
    requires Next(Truth(s), x) == null
    ensures PassesAt(s, t, l, holder, x)
  {
    hide Next, Truth, Reaches;
  }

  // ----- a new thread -----

  lemma NobodyWaitsForStranger(s: Locking, t: Thread, u: Thread)
    requires Coherent(s) && t !in s.code.priority
    ensures Next(Truth(s), u) != t && (u == t ==> BlockedOn(s, u) == null)
  {
    hide Coherent, Next, Truth;
    TruthIsTidy(s);
    PhasesOfStranger(s, t);
    TruthFields(s);
    if Next(Truth(s), u) != null {
      EdgeIsTidy(Truth(s), s.releasing, u);
    }
  }

  lemma StartIsNewcomer(s: Locking, t: Thread, base: int)
    requires Coherent(s) && t !in s.code.priority
    ensures Newcomer(Truth(s), Truth(Started(s, t, base)), t, base)
    ensures Started(s, t, base).releasing == s.releasing
  {
    hide Coherent, Truth, Started, Enter, Next;
    CoherentMeans(s, t);
    StartedFields(s, t, base);
    forall u
      ensures Next(Truth(s), u) != t && Next(Truth(Started(s, t, base)), u) == Next(Truth(s), u)
    {
      NobodyWaitsForStranger(s, t, u);
      StartedEdge(s, t, base, u);
    }
    NobodyWaitsForStranger(s, t, t);
    StartedEdge(s, t, base, t);
  }

  lemma StartedFields(s: Locking, t: Thread, base: int)
    ensures var (g, h) := (Truth(s), Truth(Started(s, t, base)));
            && h.priority == g.priority[t := base] && h.base == g.base[t := base] && h.waiting == g.waiting[t := null]
            && g.priority == s.code.priority && g.base == s.code.base && g.waiting == s.blocked
    ensures Started(s, t, base).releasing == s.releasing
  {}

  lemma StartedEdge(s: Locking, t: Thread, base: int, u: Thread)
    requires u == t ==> BlockedOn(s, t) == null
    ensures Next(Truth(Started(s, t, base)), u) == Next(Truth(s), u)
    ensures u == t ==> Next(Truth(s), t) == null
  {}

  lemma StartStaysRight(s: Locking, t: Thread, base: int)
    requires Coherent(s) && RightIn(s) && t !in s.code.priority
    ensures RightIn(Started(s, t, base))
  {
    hide *;
    StartIsNewcomer(s, t, base);
    RightMeans(s);
    RightMeans(Started(s, t, base));
    NewcomerIsRight(Truth(s), Truth(Started(s, t, base)), s.releasing, t, base);
  }

  // ----- steps and runs -----

  lemma GotTakesUnit(s: Locking, t: Thread, l: Lock)
    requires Runs(s, t) && OwnerOf(s, l) == null
    ensures TakesUnit(s, Got(s, t, l), t, l)
  {}

  lemma DownedTakesUnit(s: Locking, t: Thread, l: Lock)
    requires ThreadPhase(s, t) && t in s.code.priority && LockingEnabled(s, TakeUnit(t, l))
    ensures TakesUnit(s, Downed(s, t, l), t, l)
  {}

  lemma DownIsRightIff(s: Locking, t: Thread, l: Lock)
    requires Coherent(s) && RightIn(s) && LockingEnabled(s, TakeUnit(t, l))
    ensures RightIn(Downed(s, t, l)) <==> Outranks(s, t, l)
  {
    hide Coherent, RightIn, Outranks, Downed, TakesUnit;
    DownKeepsPhases(s, t, l);
    PhasesMean(s, t, l);
    DownedTakesUnit(s, t, l);
    TakeIsRightIff(s, Downed(s, t, l), t, l);
  }

  /** The priorities are right after a step if and only if its guard held before. */
  lemma StepIsRightIff(s: Locking, e: LockingEvent)
    requires Coherent(s) && RightIn(s) && LockingEnabled(s, e)
    ensures RightIn(LockingStep(s, e)) <==> Guard(s, e)
  {
    hide Coherent, RightIn, Outranks, CoversSleepers, CoversAll, PassesOn, Truth;
    hide Started, Got, Asleep, Queued, Downed, Recorded, LetGone, RefreshedIn, Overwritten, Runs;
    match e
    case Start(t, base) => StartStaysRight(s, t, base);
    case Acquire(t, l) =>
      if Holder(s.code, l) != null {
        QueueIsRightIff(s, t, l, Holder(s.code, l));
      } else if OwnerOf(s, l) != null {
        SleepIsRightIff(s, t, l, OwnerOf(s, l));
      } else {
        GetKeepsPhases(s, t, l);
        GotTakesUnit(s, t, l);
        TakeIsRightIff(s, Got(s, t, l), t, l);
      }
    case TakeUnit(t, l) => DownIsRightIff(s, t, l);
    case Record(t, l) => RecordStaysRight(s, t, l);
    case LetGo(t, l) => LetGoStaysRight(s, t, l);
    case RefreshPriority(t) => RefreshIsRightIff(s, t);
    case Overwrite(t, p) => OverwriteIsRightIff(s, t, p);
  }

  /** Right in every state of the run. */
  ghost predicate AlwaysRight(s: Locking, es: seq<LockingEvent>)
    decreases |es|
  {
    RightIn(s) && (es == [] || AlwaysRight(LockingStep(s, es[0]), es[1..]))
  }

  /** Every step of the run meets its guard. */
  ghost predicate AlwaysGuarded(s: Locking, es: seq<LockingEvent>)
    decreases |es|
  {
    es == [] || (Guard(s, es[0]) && AlwaysGuarded(LockingStep(s, es[0]), es[1..]))
  }

  lemma {:induction false} RunIsRightIff(s: Locking, es: seq<LockingEvent>)
    requires Coherent(s) && RightIn(s) && LockingCanRun(s, es)
    ensures AlwaysRight(s, es) <==> AlwaysGuarded(s, es)
    decreases |es|
  {
    hide Coherent, RightIn, LockingEnabled, LockingStep, Guard;
    if es != [] {
      var s1 := LockingStep(s, es[0]);
      StepIsRightIff(s, es[0]);
      StepIsCoherent(s, es[0]);
      if RightIn(s1) {
        RunIsRightIff(s1, es[1..]);
      }
    }
  }

  lemma {:induction false} RunsAreCoherent(s: Locking, es: seq<LockingEvent>)
    requires Coherent(s) && LockingCanRun(s, es)
    ensures Coherent(LockingRun(s, es))
    decreases |es|
  {
    hide Coherent, LockingEnabled, LockingStep;
    if es != [] {
      StepIsCoherent(s, es[0]);
      RunsAreCoherent(LockingStep(s, es[0]), es[1..]);
    }
  }

  lemma NobodyIsConsistent(g: Graph)
    requires g.base.Keys == g.priority.Keys == g.waiting.Keys == g.held.Keys == {}
    requires g.holder.Keys == g.waiters.Keys == {}
    ensures Consistent(g)
  {
    hide ThreadOk, LockOk;
  }

  lemma NobodyHasPhases(s: Locking)
    requires s.code.priority.Keys == s.blocked.Keys == {} && s.releasing == {}
    requires s.code.holder.Keys == s.owner.Keys == {}
    ensures Phases(s)
  {
    hide ThreadPhase, LockPhase;
  }

  lemma NobodyIsRight(g: Graph, late: set<Thread>)
    requires g.priority.Keys == {}
    ensures Right(g, late)
  {
    hide RightAt;
  }

  lemma NoThreadsIsFine()
    ensures Coherent(NO_THREADS) && RightIn(NO_THREADS)
  {
    hide Consistent, Phases, Right;
    NobodyIsConsistent(NO_THREADS.code);
    NobodyHasPhases(NO_THREADS);
    NobodyIsRight(Truth(NO_THREADS), {});
  }

  /** The main result.  From the start, over every run of the lock functions with all their
      windows, donated priorities are right in every state if and only if: each taker
      outranks everybody left waiting for the lock; each thread that sleeps unnoticed
      finds an owner at least as high; no donation is cut short at a waiting thread; no
      refresh falls below an unnoticed sleeper; and no other write changes the priority of a
      thread outside lock_release or brings one inside too low. */
  lemma DonationIsRightIff(es: seq<LockingEvent>)
    requires LockingCanRun(NO_THREADS, es)
    ensures AlwaysRight(NO_THREADS, es) <==> AlwaysGuarded(NO_THREADS, es)
  {
    NoThreadsIsFine();
    RunIsRightIff(NO_THREADS, es);
  }

  /** Lists, pointers and phases agree in every reachable state: lock->waiters minus the
      holder are the threads whose waiting_lock is the lock, locks_held are the locks held,
      and a recorded holder is the owner. */
  lemma BooksAgree(es: seq<LockingEvent>, l: Lock, t: Thread)
    requires LockingCanRun(NO_THREADS, es)
    ensures var s := LockingRun(NO_THREADS, es);
            && (t in Waiters(s.code, l) && Holder(s.code, l) != t <==> WaitsFor(s.code, t) == l)
            && (l in Held(s.code, t) <==> Holder(s.code, l) == t)
            && (Holder(s.code, l) != null ==> OwnerOf(s, l) == Holder(s.code, l))
  {
    hide LockingRun, Coherent, Consistent;
    NoThreadsIsFine();
    RunsAreCoherent(NO_THREADS, es);
    var s := LockingRun(NO_THREADS, es);
    CoherentMeans(s, t);
    PhasesMean(s, t, l);
    ListsMatchPointers(s.code, l, t);
  }

  /** What right means for a thread that is not inside lock_release: it runs at the highest
      base priority among itself and all threads that wait for it. */
  lemma RightIsExact(s: Locking, t: Thread, v: int)
    requires RightIn(s) && t in s.code.priority && t !in s.releasing
    ensures v == Key(s.code.priority, t)
            <==> && (forall u :: u in s.code.base && Reaches(Truth(s), u, t) ==> Key(s.code.base, u) <= v)
                 && (exists u :: u in s.code.base && Reaches(Truth(s), u, t) && Key(s.code.base, u) == v)
  {
    hide Reaches, Truth;
    TruthFields(s);
    RightAtMeans(Truth(s), s.releasing, t);
  }
}
