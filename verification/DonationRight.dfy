/** When the priorities on a wait-for graph are right, and what single changes to the graph
    or to a priority do to that.  A thread in `late` has let go of a lock and not yet
    refreshed its priority: it may still be too high, never too low. */
module DonationRight {
  import opened Objects
  import opened OrderedList
  import opened Donation

  /** Every thread is at least as high as the base priorities of itself and of all threads
      that wait for it, directly or through others, and, unless it is late, exactly as high
      as the highest of them. */
  ghost predicate Right(g: Graph, late: set<Thread>) {
    forall t {:trigger RightAt(g, late, t)} :: t in g.priority ==> RightAt(g, late, t)
  }

  ghost predicate RightAt(g: Graph, late: set<Thread>, t: Thread) {
    AboveAll(g, t) && (t !in late ==> Attained(g, t))
  }

  ghost predicate AboveAll(g: Graph, t: Thread) {
    forall u :: u in g.base && Reaches(g, u, t) ==> Key(g.base, u) <= Key(g.priority, t)
  }

  ghost predicate Attained(g: Graph, t: Thread) {
    exists u :: u in g.base && Reaches(g, u, t) && Key(g.base, u) == Key(g.priority, t)
  }

  /** All edges join known threads, and late threads wait for nobody. */
  ghost predicate Tidy(g: Graph, late: set<Thread>) {
    && g.base.Keys == g.priority.Keys
    && (forall u :: u in g.waiting && Next(g, u) != null ==> TidyEdge(g, late, u))
  }

  ghost predicate TidyEdge(g: Graph, late: set<Thread>, u: Thread) {
    u in g.priority && Next(g, u) in g.priority && u !in late
  }

  lemma EdgeIsTidy(g: Graph, late: set<Thread>, u: Thread)
    requires Tidy(g, late) && Next(g, u) != null
    ensures u in g.waiting && TidyEdge(g, late, u)
  {}

  lemma UpperBound(g: Graph, late: set<Thread>, u: Thread, t: Thread)
    requires Right(g, late) && t in g.priority && u in g.base && Reaches(g, u, t)
    ensures Key(g.base, u) <= Key(g.priority, t)
  {
    assert RightAt(g, late, t);
  }

  lemma Witness(g: Graph, late: set<Thread>, t: Thread) returns (z: Thread)
    requires Right(g, late) && t in g.priority && t !in late
    ensures z in g.base && Reaches(g, z, t) && Key(g.base, z) == Key(g.priority, t)
  {
    assert RightAt(g, late, t);
    z :| z in g.base && Reaches(g, z, t) && Key(g.base, z) == Key(g.priority, t);
  }

  lemma MakeAbove(g: Graph, t: Thread)
    requires forall u :: u in g.base && Reaches(g, u, t) ==> Key(g.base, u) <= Key(g.priority, t)
    ensures AboveAll(g, t)
  {}

  lemma MakeAttained(g: Graph, t: Thread, z: Thread)
    requires z in g.base && Reaches(g, z, t) && Key(g.base, z) == Key(g.priority, t)
    ensures Attained(g, t)
  {}

  lemma MakeRightAt(g: Graph, late: set<Thread>, t: Thread)
    requires AboveAll(g, t) && (t !in late ==> Attained(g, t))
    ensures RightAt(g, late, t)
  {}

  lemma RightAtMeans(g: Graph, late: set<Thread>, t: Thread)
    requires Right(g, late) && t in g.priority
    ensures AboveAll(g, t) && (t !in late ==> Attained(g, t))
  {
    assert RightAt(g, late, t);
  }

  lemma MakeRight(g: Graph, late: set<Thread>)
    requires forall t :: t in g.priority ==> RightAt(g, late, t)
    ensures Right(g, late)
  {}

  lemma EdgeReaches(g: Graph, z: Thread, u: Thread, t: Thread)
    requires Reaches(g, z, u) && Next(g, u) == t
    ensures Reaches(g, z, t)
  {
    hide *;
    ReachesItself(g, t);
    ReachesThroughNext(g, u, t);
    ReachesOnward(g, z, u, t);
  }

  lemma BaseBound(g: Graph, late: set<Thread>, t: Thread)
    requires Right(g, late) && t in g.priority && t in g.base
    ensures Key(g.base, t) <= Key(g.priority, t)
  {
    hide *;
    ReachesItself(g, t);
    UpperBound(g, late, t, t);
  }

  /** On a right graph nobody waits for a lower priority. */
  lemma RightEdge(g: Graph, late: set<Thread>, u: Thread, t: Thread)
    requires Right(g, late) && Tidy(g, late) && Next(g, u) == t
    ensures Key(g.priority, u) <= Key(g.priority, t)
  {
    hide *;
    EdgeIsTidy(g, late, u);
    TidyMeans(g, late, u);
    var z := Witness(g, late, u);
    EdgeReaches(g, z, u, t);
    UpperBound(g, late, z, t);
  }

  lemma TidyMeans(g: Graph, late: set<Thread>, u: Thread)
    requires TidyEdge(g, late, u)
    ensures u in g.priority && Next(g, u) in g.priority && u !in late
  {}

  lemma RightIsMonotone(g: Graph, late: set<Thread>)
    requires Right(g, late) && Tidy(g, late)
    ensures Monotone(g, g.priority)
  {
    hide Right, Tidy, Next;
    forall u | u in g.waiting && Next(g, u) != null
      ensures Key(g.priority, u) <= Key(g.priority, Next(g, u))
    {
      RightEdge(g, late, u, Next(g, u));
    }
  }

  // ----- changes at a thread that waits for nobody -----

  /** g and h differ only in edges into t, and t waits for nobody. */
  ghost predicate SameBut(g: Graph, h: Graph, t: Thread) {
    && Next(g, t) == null == Next(h, t)
    && forall u :: u in g.waiting.Keys + h.waiting.Keys ==>
         Next(g, u) == Next(h, u) || (Next(g, u) in {t, null} && Next(h, u) in {t, null})
  }

  /** Besides edges into t, only t's priority may differ. */
  ghost predicate ChangeAt(g: Graph, h: Graph, t: Thread) {
    && SameBut(g, h, t) && h.base == g.base && h.priority.Keys == g.priority.Keys
    && t in g.priority
    && forall w :: w in g.priority && w != t ==> h.priority[w] == g.priority[w]
  }

  lemma ChangeAtMeans(g: Graph, h: Graph, t: Thread, w: Thread)
    requires ChangeAt(g, h, t)
    ensures SameBut(g, h, t) && SameBut(h, g, t) && h.base == g.base && h.priority.Keys == g.priority.Keys
    ensures t in g.priority && Next(g, t) == null == Next(h, t)
    ensures w in g.priority && w != t ==> Key(h.priority, w) == Key(g.priority, w)
  {}

  lemma {:induction false} SameNth(g: Graph, h: Graph, t: Thread, u: Thread, y: Thread, n: nat)
    requires SameBut(g, h, t) && y != t && Nth(g, u, n) == y
    ensures Nth(h, u, n) == y
    decreases n
  {
    if n > 0 {
      assert u in g.waiting && Next(g, u) != t;
      SameNth(g, h, t, Next(g, u), y, n - 1);
    }
  }

  lemma SameReach(g: Graph, h: Graph, t: Thread, u: Thread, y: Thread)
    requires SameBut(g, h, t) && y != t
    ensures Reaches(g, u, y) <==> Reaches(h, u, y)
  {
    if Reaches(g, u, y) {
      var n: nat :| Nth(g, u, n) == y;
      SameNth(g, h, t, u, y, n);
    }
    if Reaches(h, u, y) {
      var n: nat :| Nth(h, u, n) == y;
      SameNth(h, g, t, u, y, n);
    }
  }

  /** The change matters to t alone. */
  lemma RightElsewhere(g: Graph, h: Graph, late: set<Thread>, now: set<Thread>, t: Thread, y: Thread)
    requires Right(g, late) && ChangeAt(g, h, t) && y in g.priority && y != t
    requires y in now <==> y in late
    ensures RightAt(h, now, y)
  {
    hide *;
    ChangeAtMeans(g, h, t, y);
    forall u | u in h.base && Reaches(h, u, y)
      ensures Key(h.base, u) <= Key(h.priority, y)
    {
      SameReach(g, h, t, u, y);
      UpperBound(g, late, u, y);
    }
    MakeAbove(h, y);
    if y !in now {
      var z := Witness(g, late, y);
      SameReach(g, h, t, z, y);
      MakeAttained(h, y, z);
    }
    MakeRightAt(h, now, y);
  }

  /** t is above everybody who waits for it if it is above its own base and its direct
      waiters. */
  lemma AboveDirectWaiters(g: Graph, h: Graph, late: set<Thread>, now: set<Thread>, t: Thread)
    requires Right(g, late) && ChangeAt(g, h, t) && Tidy(h, now)
    requires Key(g.base, t) <= Key(h.priority, t)
    requires forall w :: w in h.waiting && Next(h, w) == t ==> Key(g.priority, w) <= Key(h.priority, t)
    ensures AboveAll(h, t)
  {
    hide *;
    ChangeAtMeans(g, h, t, t);
    forall u | u in h.base && Reaches(h, u, t)
      ensures Key(h.base, u) <= Key(h.priority, t)
    {
      if u != t {
        var w := LastEdge(h, u, t);
        EdgeIsTidy(h, now, w);
        TidyMeans(h, now, w);
        SameReach(h, g, t, u, w);
        UpperBound(g, late, u, w);
      }
    }
    MakeAbove(h, t);
  }

  /** A change at t leaves everything right if and only if t stays at least as high as its
      direct waiters. */
  lemma ChangeIsRightIff(g: Graph, h: Graph, late: set<Thread>, now: set<Thread>, t: Thread)
    requires Right(g, late) && Tidy(h, now) && ChangeAt(g, h, t) && Key(g.base, t) <= Key(h.priority, t)
    requires forall y :: y in g.priority && y != t ==> (y in now <==> y in late)
    requires t !in now ==> Attained(h, t)
    ensures Right(h, now)
            <==> forall w :: w in h.waiting && Next(h, w) == t ==> Key(g.priority, w) <= Key(h.priority, t)
  {
    hide *;
    ChangeAtMeans(g, h, t, t);
    if forall w :: w in h.waiting && Next(h, w) == t ==> Key(g.priority, w) <= Key(h.priority, t) {
      AboveDirectWaiters(g, h, late, now, t);
      forall y | y in h.priority
        ensures RightAt(h, now, y)
      {
        if y == t {
          MakeRightAt(h, now, t);
        } else {
          RightElsewhere(g, h, late, now, t, y);
        }
      }
      MakeRight(h, now);
    }
    if Right(h, now) {
      forall w | w in h.waiting && Next(h, w) == t
        ensures Key(g.priority, w) <= Key(h.priority, t)
      {
        RightEdge(h, now, w, t);
        EdgeIsTidy(h, now, w);
        TidyMeans(h, now, w);
        ChangeAtMeans(g, h, t, w);
      }
    }
  }

  /** The thread with the highest base behind a direct waiter of t also waits for t. */
  lemma AttainedThrough(g: Graph, h: Graph, late: set<Thread>, t: Thread, w: Thread)
    requires Right(g, late) && Tidy(g, late) && ChangeAt(g, h, t) && Next(h, w) == t
    requires w in g.priority && w !in late && Key(g.priority, w) == Key(h.priority, t)
    ensures Attained(h, t)
  {
    hide *;
    ChangeAtMeans(g, h, t, t);
    var z := Witness(g, late, w);
    SameReach(g, h, t, z, w);
    EdgeReaches(h, z, w, t);
    MakeAttained(h, t, z);
  }

  // ----- more edges -----

  /** h has every edge of g. */
  ghost predicate Extends(g: Graph, h: Graph) {
    forall u :: u in g.waiting && Next(g, u) != null ==> Next(h, u) == Next(g, u)
  }

  lemma {:induction false} ExtendsNth(g: Graph, h: Graph, u: Thread, n: nat)
    requires Extends(g, h) && Nth(g, u, n) != null
    ensures Nth(h, u, n) == Nth(g, u, n)
    decreases n
  {
    if n > 0 {
      ExtendsNth(g, h, Next(g, u), n - 1);
    }
  }

  lemma ExtendsReach(g: Graph, h: Graph, u: Thread, t: Thread)
    requires Extends(g, h) && Reaches(g, u, t)
    ensures Reaches(h, u, t)
  {
    var n: nat :| Nth(g, u, n) == t;
    ExtendsNth(g, h, u, n);
  }

  /** With more edges and an unchanged priority, what was attained still is. */
  lemma AttainedExtends(g: Graph, h: Graph, late: set<Thread>, t: Thread)
    requires Right(g, late) && Extends(g, h) && h.base == g.base && t in g.priority && t !in late
    requires Key(h.priority, t) == Key(g.priority, t)
    ensures Attained(h, t)
  {
    hide *;
    var z := Witness(g, late, t);
    ExtendsReach(g, h, z, t);
    MakeAttained(h, t, z);
  }

  /** Edges were added and priorities raised to that of `donor`, along edges from it. */
  ghost predicate Grows(g: Graph, h: Graph, donor: Thread) {
    && Extends(g, h) && h.base == g.base && h.priority.Keys == g.priority.Keys && donor in g.priority
    && forall y :: y in g.priority ==> GrowsAt(g, h, donor, y)
  }

  ghost predicate GrowsAt(g: Graph, h: Graph, donor: Thread, y: Thread) {
    && Key(g.priority, y) <= Key(h.priority, y)
    && (Key(h.priority, y) == Key(g.priority, y)
        || (Key(h.priority, y) == Key(g.priority, donor) && Reaches(h, donor, y)))
  }

  lemma GrowsMeans(g: Graph, h: Graph, donor: Thread, y: Thread)
    requires Grows(g, h, donor) && y in g.priority
    ensures Extends(g, h) && h.base == g.base && h.priority.Keys == g.priority.Keys && donor in g.priority
    ensures Key(g.priority, y) <= Key(h.priority, y)
    ensures Key(h.priority, y) == Key(g.priority, y)
            || (Key(h.priority, y) == Key(g.priority, donor) && Reaches(h, donor, y))
  {
    assert GrowsAt(g, h, donor, y);
  }

  lemma GrowsFrame(g: Graph, h: Graph, donor: Thread)
    requires Grows(g, h, donor)
    ensures h.priority.Keys == g.priority.Keys && donor in g.priority
  {}

  lemma GrownIsAbove(g: Graph, h: Graph, late: set<Thread>, donor: Thread, y: Thread)
    requires Right(g, late) && g.base.Keys == g.priority.Keys && Grows(g, h, donor)
    requires Monotone(h, h.priority) && y in g.priority
    ensures AboveAll(h, y)
  {
    hide *;
    GrowsMeans(g, h, donor, y);
    forall u | u in h.base && Reaches(h, u, y)
      ensures Key(h.base, u) <= Key(h.priority, y)
    {
      MonotoneReach(h, h.priority, u, y);
      GrowsMeans(g, h, donor, u);
      BaseBound(g, late, u);
    }
    MakeAbove(h, y);
  }

  lemma GrownIsAttained(g: Graph, h: Graph, late: set<Thread>, donor: Thread, y: Thread)
    requires Right(g, late) && Grows(g, h, donor) && donor !in late && y in g.priority && y !in late
    ensures Attained(h, y)
  {
    hide *;
    GrowsMeans(g, h, donor, y);
    if Key(h.priority, y) == Key(g.priority, y) {
      AttainedExtends(g, h, late, y);
    } else {
      var z := Witness(g, late, donor);
      ExtendsReach(g, h, z, donor);
      ReachesOnward(h, z, donor, y);
      MakeAttained(h, y, z);
    }
  }

  /** A donation over a new edge leaves everything right if and only if it leaves every
      edge in order. */
  lemma GrowthIsRightIff(g: Graph, h: Graph, late: set<Thread>, donor: Thread)
    requires Right(g, late) && g.base.Keys == g.priority.Keys && Tidy(h, late)
    requires Grows(g, h, donor) && donor !in late
    ensures Right(h, late) <==> Monotone(h, h.priority)
  {
    hide *;
    GrowsFrame(g, h, donor);
    if Monotone(h, h.priority) {
      forall y | y in h.priority
        ensures RightAt(h, late, y)
      {
        GrownIsAbove(g, h, late, donor, y);
        if y !in late {
          GrownIsAttained(g, h, late, donor, y);
        }
        MakeRightAt(h, late, y);
      }
      MakeRight(h, late);
    }
    if Right(h, late) {
      RightIsMonotone(h, late);
    }
  }

  // ----- a new thread -----

  /** h has one more thread, which nobody waits for. */
  ghost predicate Newcomer(g: Graph, h: Graph, t: Thread, base: int) {
    && SameBut(g, h, t) && t !in g.priority && g.base.Keys == g.priority.Keys
    && h.priority == g.priority[t := base] && h.base == g.base[t := base]
    && forall u :: u in h.waiting ==> Next(h, u) != t
  }

  lemma NewcomerMeans(g: Graph, h: Graph, t: Thread, base: int, y: Thread)
    requires Newcomer(g, h, t, base)
    ensures SameBut(g, h, t) && h.priority.Keys == g.priority.Keys + {t} && h.base.Keys == g.base.Keys + {t}
    ensures g.base.Keys == g.priority.Keys && t !in g.priority
    ensures Next(h, t) == null && Next(h, y) != t
    ensures Key(h.priority, t) == base == Key(h.base, t)
    ensures y != t ==> Key(h.priority, y) == Key(g.priority, y) && Key(h.base, y) == Key(g.base, y)
  {}

  lemma NewcomerIsAbove(g: Graph, h: Graph, late: set<Thread>, t: Thread, base: int, y: Thread)
    requires Right(g, late) && Newcomer(g, h, t, base) && (y == t || y in g.priority)
    ensures AboveAll(h, y)
  {
    hide *;
    NewcomerMeans(g, h, t, base, y);
    forall u | u in h.base && Reaches(h, u, y)
      ensures Key(h.base, u) <= Key(h.priority, y)
    {
      NewcomerMeans(g, h, t, base, u);
      if y == t {
        if u != t {
          var x := LastEdge(h, u, t);
          NewcomerMeans(g, h, t, base, x);
        }
      } else if u == t {
        ReachesThroughNext(h, t, y);
      } else {
        SameReach(g, h, t, u, y);
        UpperBound(g, late, u, y);
      }
    }
    MakeAbove(h, y);
  }

  lemma NewcomerIsRight(g: Graph, h: Graph, late: set<Thread>, t: Thread, base: int)
    requires Right(g, late) && Newcomer(g, h, t, base)
    ensures Right(h, late)
  {
    hide *;
    NewcomerMeans(g, h, t, base, t);
    forall y | y in h.priority
      ensures RightAt(h, late, y)
    {
      NewcomerIsAbove(g, h, late, t, base, y);
      NewcomerMeans(g, h, t, base, y);
      if y == t {
        ReachesItself(h, t);
        MakeAttained(h, t, t);
      } else if y !in late {
        var z := Witness(g, late, y);
        NewcomerMeans(g, h, t, base, z);
        SameReach(g, h, t, z, y);
        MakeAttained(h, y, z);
      }
      MakeRightAt(h, late, y);
    }
    MakeRight(h, late);
  }
}
