/** What lock_acquire and lock_release of src/threads/synch.c, and refresh_priority of
    src/threads/thread.c, do to the recorded fields, and how lists and pointers agree. */
module DonationBooks {
  import opened Objects
  import opened OrderedList
  import opened Donation

  // ----- refresh_priority -----

  /** The inner loop: the highest of v and the priorities of ws.  When t itself is met, it
      is compared with its own current value, which changes nothing. */
  function WaitersMax(priority: map<Thread, int>, ws: seq<Thread>, t: Thread, v: int): int {
    if ws == [] then v
    else WaitersMax(priority, ws[1..], t,
                    if ws[0] != t && Key(priority, ws[0]) > v then Key(priority, ws[0]) else v)
  }

  function LocksMax(g: Graph, ls: seq<Lock>, t: Thread, v: int): int {
    if ls == [] then v else LocksMax(g, ls[1..], t, WaitersMax(g.priority, Waiters(g, ls[0]), t, v))
  }

  function Refreshed(g: Graph, t: Thread): int {
    LocksMax(g, Held(g, t), t, Key(g.base, t))
  }

  /** One turn of each loop. */
  lemma WaitersMaxStep(priority: map<Thread, int>, ws: seq<Thread>, j: nat, t: Thread, v: int)
    requires j < |ws|
    ensures WaitersMax(priority, ws[j..], t, v)
            == WaitersMax(priority, ws[j + 1..], t,
                          if ws[j] != t && Key(priority, ws[j]) > v then Key(priority, ws[j]) else v)
  {
    assert ws[j..][1..] == ws[j + 1..];
  }

  lemma LocksMaxStep(g: Graph, ls: seq<Lock>, i: nat, t: Thread, v: int)
    requires i < |ls|
    ensures LocksMax(g, ls[i..], t, v)
            == LocksMax(g, ls[i + 1..], t, WaitersMax(g.priority, Waiters(g, ls[i]), t, v))
  {
    assert ls[i..][1..] == ls[i + 1..];
  }

  lemma NothingLeft(g: Graph, ws: seq<Thread>, ls: seq<Lock>, t: Thread, v: int)
    ensures WaitersMax(g.priority, ws[|ws|..], t, v) == v && LocksMax(g, ls[|ls|..], t, v) == v
    ensures ws[0..] == ws && ls[0..] == ls
  {}

  lemma {:induction false} WaitersMaxIsMax(priority: map<Thread, int>, ws: seq<Thread>, t: Thread, v: int)
    ensures var r := WaitersMax(priority, ws, t, v);
            && r >= v
            && (forall w :: w in ws && w != t ==> Key(priority, w) <= r)
            && (r == v || exists w :: w in ws && w != t && Key(priority, w) == r)
  {
    if ws != [] {
      WaitersMaxIsMax(priority, ws[1..], t,
                      if ws[0] != t && Key(priority, ws[0]) > v then Key(priority, ws[0]) else v);
    }
  }

  lemma {:induction false} LocksMaxIsMax(g: Graph, ls: seq<Lock>, t: Thread, v: int)
    ensures var r := LocksMax(g, ls, t, v);
            && r >= v
            && (forall l, w :: l in ls && w in Waiters(g, l) && w != t ==> Key(g.priority, w) <= r)
            && (r == v || exists l, w :: l in ls && w in Waiters(g, l) && w != t && Key(g.priority, w) == r)
  {
    if ls != [] {
      WaitersMaxIsMax(g.priority, Waiters(g, ls[0]), t, v);
      LocksMaxIsMax(g, ls[1..], t, WaitersMax(g.priority, Waiters(g, ls[0]), t, v));
    }
  }

  /** refresh_priority yields the maximum of the base priority and the priorities of all
      threads queued on held locks; the thread's own stale entry and its old priority do
      not matter. */
  lemma RefreshIsMax(g: Graph, t: Thread, prior: map<Thread, int>)
    requires forall w :: w != t ==> Key(prior, w) == Key(g.priority, w)
    ensures var r := Refreshed(g, t);
            && r >= Key(g.base, t)
            && (forall l, w :: l in Held(g, t) && w in Waiters(g, l) && w != t ==> Key(g.priority, w) <= r)
            && (r == Key(g.base, t)
                || exists l, w :: l in Held(g, t) && w in Waiters(g, l) && w != t && Key(g.priority, w) == r)
    ensures Refreshed(g, t) == Refreshed(g.(priority := prior), t)
  {
    LocksMaxIsMax(g, Held(g, t), t, Key(g.base, t));
    LocksMaxIgnores(g, Held(g, t), t, Key(g.base, t), prior);
  }

  lemma {:induction false} WaitersMaxIgnores(priority: map<Thread, int>, ws: seq<Thread>, t: Thread, v: int,
                                             prior: map<Thread, int>)
    requires forall w :: w != t ==> Key(prior, w) == Key(priority, w)
    ensures WaitersMax(priority, ws, t, v) == WaitersMax(prior, ws, t, v)
  {
    if ws != [] {
      WaitersMaxIgnores(priority, ws[1..], t,
                        if ws[0] != t && Key(priority, ws[0]) > v then Key(priority, ws[0]) else v, prior);
    }
  }

  lemma {:induction false} LocksMaxIgnores(g: Graph, ls: seq<Lock>, t: Thread, v: int, prior: map<Thread, int>)
    requires forall w :: w != t ==> Key(prior, w) == Key(g.priority, w)
    ensures LocksMax(g, ls, t, v) == LocksMax(g.(priority := prior), ls, t, v)
  {
    if ls != [] {
      WaitersMaxIgnores(g.priority, Waiters(g, ls[0]), t, v, prior);
      LocksMaxIgnores(g, ls[1..], t, WaitersMax(g.priority, Waiters(g, ls[0]), t, v), prior);
    }
  }

  // ----- what the code writes -----

  /** init_thread: nothing held, nothing waited for. */
  function Enter(g: Graph, t: Thread, base: int): Graph {
    g.(base := g.base[t := base], priority := g.priority[t := base],
       waiting := g.waiting[t := null], held := g.held[t := []])
  }

  /** t is recorded as the holder of l.  Its entry in l's waiter list stays. */
  function Take(g: Graph, t: Thread, l: Lock): Graph {
    g.(holder := g.holder[l := t], held := g.held[t := Held(g, t) + [l]], waiting := g.waiting[t := null])
  }

  function Enlist(g: Graph, t: Thread, l: Lock): Graph {
    g.(waiting := g.waiting[t := l], waiters := g.waiters[l := Insert(Waiters(g, l), g.priority, t)])
  }

  /** The contended path of lock_acquire, up to sema_down. */
  ghost function Contend(g: Graph, t: Thread, l: Lock, holder: Thread): Graph {
    var g1 := Enlist(g, t, l);
    g1.(priority := Donate(g1, g.priority, Key(g.priority, t), holder))
  }

  /** The lists and pointers of lock_release. */
  function Drop(g: Graph, t: Thread, l: Lock): Graph {
    g.(held := g.held[t := Without(Held(g, t), l)],
       waiters := g.waiters[l := Without(Waiters(g, l), t)],
       holder := g.holder[l := null])
  }

  /** refresh_priority. */
  function Refresh(g: Graph, t: Thread): Graph {
    g.(priority := g.priority[t := Refreshed(g, t)])
  }

  // ----- bookkeeping -----

  ghost predicate ThreadOk(g: Graph, t: Thread) {
    && Distinct(Held(g, t)) && (forall l :: l in Held(g, t) ==> Holder(g, l) == t)
    && (WaitsFor(g, t) != null ==> t in Waiters(g, WaitsFor(g, t)) && Holder(g, WaitsFor(g, t)) != t)
  }

  ghost predicate LockOk(g: Graph, l: Lock) {
    && (Holder(g, l) != null ==> Holder(g, l) in g.priority && l in Held(g, Holder(g, l)))
    && Distinct(Waiters(g, l))
    && (forall w :: w in Waiters(g, l) ==> w in g.priority && (Holder(g, l) == w || WaitsFor(g, w) == l))
  }

  ghost predicate Consistent(g: Graph) {
    && g.base.Keys == g.priority.Keys == g.waiting.Keys == g.held.Keys
    && (forall t :: t in g.priority ==> ThreadOk(g, t))
    && (forall l :: l in g.holder.Keys + g.waiters.Keys ==> LockOk(g, l))
  }

  /** lock->waiters minus the holder is the set of threads whose waiting_lock is the lock,
      and a thread's locks_held are the locks whose holder it is. */
  lemma ListsMatchPointers(g: Graph, l: Lock, t: Thread)
    requires Consistent(g)
    ensures t in Waiters(g, l) && Holder(g, l) != t <==> WaitsFor(g, t) == l
    ensures l in Held(g, t) <==> Holder(g, l) == t
    ensures ThreadOk(g, t) && LockOk(g, l)
  {
    assert t in g.priority ==> ThreadOk(g, t);
    assert l in g.holder.Keys + g.waiters.Keys ==> LockOk(g, l);
  }

  lemma DonateKeepsKeys(g: Graph, priority: map<Thread, int>, v: int, to: Thread)
    ensures Donate(g, priority, v, to).Keys == priority.Keys
    decreases |Poorer(priority, v)|
  {
    if to in priority && priority[to] < v {
      PoorerShrinks(priority, v, to);
      if Next(g, to) != null {
        DonateKeepsKeys(g, priority[to := v], v, Next(g, to));
      }
    }
  }

  predicate UpdatedAt<K(==), V(==)>(m: map<K, V>, n: map<K, V>, k: K) {
    n == m || (k in n && n == m[k := n[k]])
  }

  /** h differs from g in the records of t and, if it is not null, of l only. */
  ghost predicate Local(g: Graph, h: Graph, t: Thread, l: Lock?) {
    && h.base.Keys == h.priority.Keys == h.waiting.Keys == h.held.Keys
    && h.priority.Keys == g.priority.Keys + {t}
    && UpdatedAt(g.held, h.held, t) && UpdatedAt(g.waiting, h.waiting, t)
    && (if l == null then h.holder == g.holder && h.waiters == g.waiters
        else UpdatedAt(g.holder, h.holder, l) && UpdatedAt(g.waiters, h.waiters, l))
    && (forall m :: m in Held(g, t) && m != l ==> m in Held(h, t))
    && (WaitsFor(g, t) == null || WaitsFor(g, t) == l)
  }

  lemma SameRecord(g: Graph, h: Graph, t: Thread, l: Lock?, x: Thread)
    requires Local(g, h, t, l) && x != t
    ensures Held(h, x) == Held(g, x) && WaitsFor(h, x) == WaitsFor(g, x)
  {}

  lemma SameLock(g: Graph, h: Graph, t: Thread, l: Lock?, m: Lock)
    requires Local(g, h, t, l) && m != l
    ensures Holder(h, m) == Holder(g, m) && Waiters(h, m) == Waiters(g, m)
    ensures m in Held(g, t) ==> m in Held(h, t)
  {}

  lemma OtherThreadOk(g: Graph, h: Graph, t: Thread, l: Lock?, x: Thread)
    requires ThreadOk(g, x) && Local(g, h, t, l) && x != t
    requires l != null ==> forall w :: w in Waiters(g, l) && w != t ==> w in Waiters(h, l)
    requires l != null ==>
               Holder(h, l) == Holder(g, l) || Holder(h, l) == t || (Holder(g, l) == t && Holder(h, l) == null)
    requires l != null && Holder(g, l) != null && Holder(g, l) != t ==> Holder(h, l) == Holder(g, l)
    ensures ThreadOk(h, x)
  {
    hide Local, Holder, Waiters, Held, WaitsFor;
    SameRecord(g, h, t, l, x);
    var m := WaitsFor(g, x);
    if m != null && m != l {
      SameLock(g, h, t, l, m);
    }
    forall m | m in Held(h, x)
      ensures Holder(h, m) == x
    {
      if m != l {
        SameLock(g, h, t, l, m);
      }
    }
  }

  lemma OtherLockOk(g: Graph, h: Graph, t: Thread, l: Lock?, m: Lock)
    requires LockOk(g, m) && Local(g, h, t, l) && m != l
    ensures LockOk(h, m)
  {
    assert h.priority.Keys == g.priority.Keys + {t} && (WaitsFor(g, t) == m ==> m == l);
    hide Local, Waiters, Held, WaitsFor, Holder;
    SameLock(g, h, t, l, m);
    if Holder(g, m) != null && Holder(g, m) != t {
      SameRecord(g, h, t, l, Holder(g, m));
    }
    forall w | w in Waiters(g, m)
      ensures w in h.priority && (Holder(h, m) == w || WaitsFor(h, w) == m)
    {
      if w != t {
        SameRecord(g, h, t, l, w);
      }
    }
  }

  lemma LocalStep(g: Graph, h: Graph, t: Thread, l: Lock?)
    requires Consistent(g) && Local(g, h, t, l)
    requires ThreadOk(h, t) && (l != null ==> LockOk(h, l))
    requires l != null ==> forall w :: w in Waiters(g, l) && w != t ==> w in Waiters(h, l)
    requires l != null ==>
               Holder(h, l) == Holder(g, l) || Holder(h, l) == t || (Holder(g, l) == t && Holder(h, l) == null)
    requires l != null && Holder(g, l) != null && Holder(g, l) != t ==> Holder(h, l) == Holder(g, l)
    ensures Consistent(h)
  {
    assert h.base.Keys == h.priority.Keys == h.waiting.Keys == h.held.Keys;
    assert h.priority.Keys == g.priority.Keys + {t};
    hide ThreadOk, LockOk, Local, Waiters, Holder;
    forall x | x in h.priority
      ensures ThreadOk(h, x)
    {
      if x != t {
        assert x in g.priority && ThreadOk(g, x);
        OtherThreadOk(g, h, t, l, x);
      }
    }
    forall m | m in h.holder.Keys + h.waiters.Keys
      ensures LockOk(h, m)
    {
      if m != l {
        ListsMatchPointers(g, m, t);
        OtherLockOk(g, h, t, l, m);
      }
    }
  }

  lemma EnterDomains(g: Graph, t: Thread, base: int)
    requires g.base.Keys == g.priority.Keys == g.waiting.Keys == g.held.Keys
    ensures var h := Enter(g, t, base);
            && h.base.Keys == h.priority.Keys == h.waiting.Keys == h.held.Keys
            && h.priority.Keys == g.priority.Keys + {t}
  {}

  lemma EnterIsLocal(g: Graph, t: Thread, base: int)
    requires g.base.Keys == g.priority.Keys == g.waiting.Keys == g.held.Keys && t !in g.priority
    ensures Local(g, Enter(g, t, base), t, null)
  {
    EnterDomains(g, t, base);
    assert Held(g, t) == [] && WaitsFor(g, t) == null;
    assert Enter(g, t, base).held == g.held[t := []] && Enter(g, t, base).waiting == g.waiting[t := null];
  }

  lemma EnterThreadOk(g: Graph, t: Thread, base: int)
    ensures ThreadOk(Enter(g, t, base), t)
  {
    assert Held(Enter(g, t, base), t) == [] && WaitsFor(Enter(g, t, base), t) == null;
  }

  lemma StartIsConsistent(g: Graph, t: Thread, base: int)
    requires Consistent(g) && t !in g.priority
    ensures Consistent(Enter(g, t, base))
  {
    hide ThreadOk, LockOk, Local, Enter;
    EnterIsLocal(g, t, base);
    EnterThreadOk(g, t, base);
    LocalStep(g, Enter(g, t, base), t, null);
  }

  lemma ContendIsLocal(g: Graph, t: Thread, l: Lock)
    requires g.base.Keys == g.priority.Keys == g.waiting.Keys == g.held.Keys && t in g.priority
    requires WaitsFor(g, t) == null && Holder(g, l) != null
    ensures Local(g, Contend(g, t, l, Holder(g, l)), t, l)
  {
    hide Insert, Donate;
    assert Contend(g, t, l, Holder(g, l)).priority.Keys == g.priority.Keys by {
      DonateKeepsKeys(Enlist(g, t, l), g.priority, Key(g.priority, t), Holder(g, l));
    }
  }

  lemma ContendThreadOk(g: Graph, t: Thread, l: Lock)
    requires ThreadOk(g, t) && WaitsFor(g, t) == null && Holder(g, l) != null && Holder(g, l) != t
    ensures ThreadOk(Contend(g, t, l, Holder(g, l)), t)
  {
    hide Insert, Donate;
    MemberOfInsert(Waiters(g, l), g.priority, t, t);
  }

  lemma ContendLockOk(g: Graph, t: Thread, l: Lock)
    requires LockOk(g, l) && t in g.priority && t !in Waiters(g, l) && Holder(g, l) != null
    ensures LockOk(Contend(g, t, l, Holder(g, l)), l)
    ensures forall w :: w in Waiters(g, l) ==> w in Waiters(Contend(g, t, l, Holder(g, l)), l)
  {
    hide Insert, Donate;
    DonateKeepsKeys(Enlist(g, t, l), g.priority, Key(g.priority, t), Holder(g, l));
    InsertKeepsDistinct(Waiters(g, l), g.priority, t);
    forall w
      ensures w in Insert(Waiters(g, l), g.priority, t) <==> w == t || w in Waiters(g, l)
    {
      MemberOfInsert(Waiters(g, l), g.priority, t, w);
    }
    var h := Contend(g, t, l, Holder(g, l));
    assert Holder(h, l) in h.priority && l in Held(h, Holder(h, l));
    assert Distinct(Waiters(h, l));
  }

  lemma ContendIsConsistent(g: Graph, t: Thread, l: Lock)
    requires Consistent(g) && t in g.priority && WaitsFor(g, t) == null
    requires Holder(g, l) != null && Holder(g, l) != t
    ensures Consistent(Contend(g, t, l, Holder(g, l)))
  {
    var h := Contend(g, t, l, Holder(g, l));
    assert Holder(h, l) == Holder(g, l);
    hide ThreadOk, LockOk, Local, Contend, WaitsFor, Waiters, Held, Holder;
    ListsMatchPointers(g, l, t);
    ContendIsLocal(g, t, l);
    ContendThreadOk(g, t, l);
    ContendLockOk(g, t, l);
    LocalStep(g, h, t, l);
  }

  lemma TakeIsLocal(g: Graph, t: Thread, l: Lock)
    requires g.base.Keys == g.priority.Keys == g.waiting.Keys == g.held.Keys && t in g.priority
    requires WaitsFor(g, t) == null || WaitsFor(g, t) == l
    ensures Local(g, Take(g, t, l), t, l)
  {}

  lemma TakenThreadOk(g: Graph, t: Thread, l: Lock)
    requires ThreadOk(g, t) && Holder(g, l) == null
    ensures ThreadOk(Take(g, t, l), t)
  {
    var h := Take(g, t, l);
    assert Held(h, t) == Held(g, t) + [l] && WaitsFor(h, t) == null;
    assert l !in Held(g, t);
  }

  lemma TakenLockOk(g: Graph, t: Thread, l: Lock)
    requires LockOk(g, l) && Holder(g, l) == null && t in g.priority
    ensures LockOk(Take(g, t, l), l)
  {}

  lemma TakeIsConsistent(g: Graph, t: Thread, l: Lock)
    requires Consistent(g) && t in g.priority && Holder(g, l) == null
    requires WaitsFor(g, t) == null || WaitsFor(g, t) == l
    ensures Consistent(Take(g, t, l))
  {
    var h := Take(g, t, l);
    assert Waiters(h, l) == Waiters(g, l) && Holder(h, l) == t;
    hide ThreadOk, LockOk, Local, Take;
    ListsMatchPointers(g, l, t);
    TakeIsLocal(g, t, l);
    TakenThreadOk(g, t, l);
    TakenLockOk(g, t, l);
    LocalStep(g, h, t, l);
  }

  lemma DropIsLocal(g: Graph, t: Thread, l: Lock)
    requires g.base.Keys == g.priority.Keys == g.waiting.Keys == g.held.Keys && t in g.priority
    requires WaitsFor(g, t) == null
    ensures Local(g, Drop(g, t, l), t, l)
  {
    forall m
      ensures m in Without(Held(g, t), l) <==> m in Held(g, t) && m != l
    {
      WithoutMembers(Held(g, t), l, m);
    }
    hide Without;
  }

  lemma DroppedThreadOk(g: Graph, t: Thread, l: Lock)
    requires ThreadOk(g, t) && WaitsFor(g, t) == null && Holder(g, l) == t
    ensures ThreadOk(Drop(g, t, l), t)
  {
    assert Held(Drop(g, t, l), t) == Without(Held(g, t), l);
    WithoutKeepsDistinct(Held(g, t), l);
    forall m | m in Without(Held(g, t), l)
      ensures Holder(Drop(g, t, l), m) == t
    {
      WithoutMembers(Held(g, t), l, m);
    }
  }

  lemma DroppedLockOk(g: Graph, t: Thread, l: Lock)
    requires LockOk(g, l) && Holder(g, l) == t && WaitsFor(g, t) == null
    ensures LockOk(Drop(g, t, l), l)
    ensures forall w :: w in Waiters(g, l) && w != t ==> w in Waiters(Drop(g, t, l), l)
  {
    assert Waiters(Drop(g, t, l), l) == Without(Waiters(g, l), t);
    WithoutKeepsDistinct(Waiters(g, l), t);
    forall w
      ensures w in Without(Waiters(g, l), t) <==> w in Waiters(g, l) && w != t
    {
      WithoutMembers(Waiters(g, l), t, w);
    }
  }

  lemma DropIsConsistent(g: Graph, t: Thread, l: Lock)
    requires Consistent(g) && WaitsFor(g, t) == null && Holder(g, l) == t
    ensures Consistent(Drop(g, t, l))
  {
    var h := Drop(g, t, l);
    assert Holder(h, l) == null;
    hide ThreadOk, LockOk, Local, Drop;
    ListsMatchPointers(g, l, t);
    HolderIsKnown(g, l);
    DropIsLocal(g, t, l);
    DroppedThreadOk(g, t, l);
    DroppedLockOk(g, t, l);
    LocalStep(g, h, t, l);
  }

  lemma HolderIsKnown(g: Graph, l: Lock)
    requires LockOk(g, l) && Holder(g, l) != null
    ensures Holder(g, l) in g.priority
  {}

  lemma PriorityChangeKeepsThread(g: Graph, priority: map<Thread, int>, x: Thread)
    requires ThreadOk(g, x)
    ensures ThreadOk(g.(priority := priority), x)
  {
    hide Distinct;
  }

  lemma PriorityChangeKeepsLock(g: Graph, priority: map<Thread, int>, l: Lock)
    requires LockOk(g, l) && priority.Keys == g.priority.Keys
    ensures LockOk(g.(priority := priority), l)
  {
    hide Distinct;
  }

  lemma PriorityChangeIsConsistent(g: Graph, priority: map<Thread, int>)
    requires Consistent(g) && priority.Keys == g.priority.Keys
    ensures Consistent(g.(priority := priority))
  {
    hide ThreadOk, LockOk;
    var h := g.(priority := priority);
    forall x | x in h.priority
      ensures ThreadOk(h, x)
    {
      PriorityChangeKeepsThread(g, h.priority, x);
    }
    forall l | l in h.holder.Keys + h.waiters.Keys
      ensures LockOk(h, l)
    {
      PriorityChangeKeepsLock(g, h.priority, l);
    }
  }

  lemma RefreshIsConsistent(g: Graph, t: Thread)
    requires Consistent(g) && t in g.priority
    ensures Consistent(Refresh(g, t))
  {
    hide Refreshed, Consistent;
    PriorityChangeIsConsistent(g, g.priority[t := Refreshed(g, t)]);
  }

  lemma DomainsAgree(g: Graph)
    requires Consistent(g)
    ensures g.base.Keys == g.priority.Keys == g.waiting.Keys == g.held.Keys
  {}
}
