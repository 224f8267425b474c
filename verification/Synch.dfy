/** Semaphores and condition variables of src/threads/synch.c as they run: the methods
    update the records in place and are tied to the steps of module Semaphores.  Blocking
    and unblocking are the status changes of the threads here; SemaKernel does them with
    the scheduler. */
module Synch {
  import opened Objects
  import opened OrderedList
  import opened Semaphores
  import opened Locks
  import opened Options

  /** A semaphore's part of the step machine; `woken` is the history the kernel does not
      keep. */
  ghost function View(sema: Semaphore, woken: set<Thread>): Sema
    reads sema
  {
    Sema(sema.value, sema.waiters, woken)
  }

  /** list_insert_ordered with less_priority. */
  method InsertOrdered(list: seq<Thread>, t: Thread, ghost key: map<Thread, int>) returns (r: seq<Thread>)
    requires t.priority == Key(key, t) && forall u :: u in list ==> u.priority == Key(key, u)
    ensures r == Insert(list, key, t)
  {
    var i := 0;
    while i < |list| && list[i].priority >= t.priority
      invariant 0 <= i <= |list|
      invariant forall j :: 0 <= j < i ==> Key(key, t) <= Key(key, list[j])
    {
      i := i + 1;
    }
    InsertAt(list, key, t, i);
    r := list[..i] + [t] + list[i..];
  }

  /** The loop test of sema_down and what follows it: on success the caller has taken a
      unit, otherwise it is queued and has to block. */
  method SemaDownPass(sema: Semaphore, cur: Thread, ghost key: map<Thread, int>, ghost woken: set<Thread>)
    returns (success: bool)
    requires cur.priority == Key(key, cur) && forall u :: u in sema.waiters ==> u.priority == Key(key, u)
    modifies sema
    ensures success == (old(sema.value) > 0)
    ensures View(sema, woken - {cur}) == Attempt(old(View(sema, woken)), cur, key)
  {
    success := sema.value > 0;
    if success {
      sema.value := sema.value - 1;
    } else {
      sema.waiters := InsertOrdered(sema.waiters, cur, key);
    }
  }

  method SemaTryDown(sema: Semaphore, ghost woken: set<Thread>) returns (success: bool)
    modifies sema
    ensures success == (old(sema.value) > 0)
    ensures View(sema, woken) == TakeIfPositive(old(View(sema, woken)))
  {
    success := sema.value > 0;
    if success {
      sema.value := sema.value - 1;
    }
  }

  /** The queue and the counter in sema_up: the caller has to unblock the thread that is
      returned, with interrupts still disabled. */
  method SemaPost(sema: Semaphore, ghost woken: set<Thread>) returns (first: Option<Thread>)
    modifies sema
    ensures first == if old(sema.waiters) == [] then None else Some(old(sema.waiters)[0])
    ensures View(sema, woken + if first.Some? then {first.value} else {}) == Post(old(View(sema, woken)))
  {
    first := None;
    if sema.waiters != [] {
      first := Some(sema.waiters[0]);
      sema.waiters := sema.waiters[1..];
    }
    sema.value := sema.value + 1;
  }

  // ----- lock_try_acquire -----

  /** A lock's part of the machine of module Locks; `stage` says where each thread stands. */
  ghost function LockView(lock: Lock, woken: set<Thread>, stage: map<Thread, Stage>): LockState
    reads lock, lock.semaphore
  {
    LockState(View(lock.semaphore, woken), if lock.holder == null then None else Some(lock.holder), stage)
  }

  /** lock_try_acquire up to the end of sema_try_down. */
  method LockTryDown(cur: Thread, lock: Lock, ghost woken: set<Thread>, ghost stage: map<Thread, Stage>)
    returns (success: bool)
    modifies lock.semaphore
    ensures success == (old(lock.semaphore.value) > 0)
    ensures LockView(lock, woken, stage[cur := if success then Taken else Outside])
            == LockStep(old(LockView(lock, woken, stage)), TryAcquire(cur))
  {
    success := SemaTryDown(lock.semaphore, woken);
  }

  /** The rest of lock_try_acquire after a success, with interrupts on in between. */
  method LockTryRecord(cur: Thread, lock: Lock, ghost woken: set<Thread>, ghost stage: map<Thread, Stage>)
    modifies lock
    ensures LockView(lock, woken, stage[cur := Stage.Owner])
            == LockStep(old(LockView(lock, woken, stage)), RecordHolder(cur))
  {
    lock.holder := cur;
  }

  // ----- condition variables -----

  /** The threads of ts have queued the semaphores of ws, in this order; each is asleep on
      its own, alone, or has not yet come to sleep.  `key` gives their priorities. */
  ghost predicate Waiting(ws: seq<Semaphore>, ts: seq<Thread>, key: map<Thread, int>)
    reads ws, ts
  {
    && |ws| == |ts| && Distinct(ws) && Distinct(ts)
    && forall i :: 0 <= i < |ws| ==> WaitsOn(ws[i], ts[i], key)
  }

  ghost predicate WaitsOn(s: Semaphore, t: Thread, key: map<Thread, int>)
    reads s, t
  {
    t.priority == Key(key, t) && (s.waiters == [] || (s.waiters == [t] && t.status == Blocked))
  }

  ghost predicate AllAsleep(ws: seq<Semaphore>)
    reads ws
  {
    forall i :: 0 <= i < |ws| ==> ws[i].waiters != []
  }

  /** cond_wait up to the release of the lock: a new semaphore at 0, queued in arrival
      order, on which nobody sleeps yet. */
  method CondEnqueue(cond: Condition, cur: Thread, ghost ts: seq<Thread>, ghost key: map<Thread, int>)
    requires Waiting(cond.waiters, ts, key) && cur !in ts && cur.priority == Key(key, cur)
    modifies cond
    ensures Waiting(cond.waiters, ts + [cur], key) && |cond.waiters| == |ts| + 1
    ensures cond.waiters[..|ts|] == old(cond.waiters) && fresh(cond.waiters[|ts|])
    ensures cond.waiters[|ts|].waiters == [] && cond.waiters[|ts|].value == 0
  {
    var waiter := new Semaphore(0);
    ghost var ws := cond.waiters;
    cond.waiters := cond.waiters + [waiter];
    forall i | 0 <= i < |ws|
      ensures WaitsOn(ws[i], ts[i], key) && ws[i] != waiter
    {
      assert old(WaitsOn(ws[i], ts[i], key));
    }
    assert WaitsOn(waiter, cur, key);
  }

  /** cond_wait after the release of the lock: the i-th queued thread goes to sleep, unless
      it has been signalled in the meantime. */
  method CondBlock(ws: seq<Semaphore>, i: nat, cur: Thread, ghost ts: seq<Thread>, ghost key: map<Thread, int>)
    returns (success: bool)
    requires Waiting(ws, ts, key) && i < |ws| && cur == ts[i] && ws[i].waiters == []
    modifies ws[i], cur`status
    ensures success == (old(ws[i].value) > 0)
    ensures Waiting(ws, ts, key) && ws[i].waiters == if success then [] else [cur]
    ensures ws[i].value == if success then old(ws[i].value) - 1 else 0
  {
    success := SemaDownPass(ws[i], cur, key, {});
    if !success {
      cur.status := Blocked;
      assert ws[i].waiters == [cur];
    }
    forall j | 0 <= j < |ws|
      ensures WaitsOn(ws[j], ts[j], key)
    {
      assert old(WaitsOn(ws[j], ts[j], key));
    }
  }

  lemma FirstMaxOfOne(ts: seq<Thread>, key: map<Thread, int>)
    requires ts != []
    ensures FirstMax(ts[..1], key) == 0
  {}

  lemma FirstMaxStep(ts: seq<Thread>, i: nat, key: map<Thread, int>)
    requires 0 < i < |ts|
    ensures var max := FirstMax(ts[..i], key);
            FirstMax(ts[..i + 1], key) == if Key(key, ts[max]) < Key(key, ts[i]) then i else max
  {
    assert ts[..i + 1][..i] == ts[..i];
  }

  /** list_max with cond_sema_priority_cmp.  The comparison takes the front of both waiter
      lists; None stands for taking the front of an empty one, which the list library does
      not define. */
  method MostUrgent(ws: seq<Semaphore>, ghost ts: seq<Thread>, ghost key: map<Thread, int>) returns (m: Option<nat>)
    requires ws != [] && Waiting(ws, ts, key)
    ensures m.Some? <==> |ws| == 1 || AllAsleep(ws)
    ensures m.Some? ==> m.value < |ws| && m.value == FirstMax(ts, key)
  {
    hide FirstMax, Distinct, Key;
    var max := 0;
    var i := 1;
    FirstMaxOfOne(ts, key);
    while i < |ws|
      invariant 1 <= i <= |ws| && max < i
      invariant max == FirstMax(ts[..i], key)
      invariant i > 1 ==> forall j :: 0 <= j < i ==> ws[j].waiters != []
    {
      FirstMaxStep(ts, i, key);
      assert WaitsOn(ws[max], ts[max], key) && WaitsOn(ws[i], ts[i], key);
      if ws[max].waiters == [] || ws[i].waiters == [] {
        return None;
      }
      if ws[max].waiters[0].priority < ws[i].waiters[0].priority {
        max := i;
      }
      i := i + 1;
    }
    assert ts[..i] == ts;
    m := Some(max);
  }

  lemma RemovalIsDistinct<T>(s: seq<T>, m: nat)
    requires m < |s| && Distinct(s)
    ensures Distinct(RemoveAt(s, m)) && s[m] !in RemoveAt(s, m)
    ensures |RemoveAt(s, m)| == |s| - 1
    ensures forall i :: 0 <= i < |s| - 1 ==> RemoveAt(s, m)[i] == s[if i < m then i else i + 1]
  {}

  lemma MembersOfRemoval<T>(s: seq<T>, m: nat)
    requires m < |s|
    ensures forall x :: x in s <==> x == s[m] || x in RemoveAt(s, m)
    ensures |RemoveAt(s, m)| == |s| - 1 && forall i :: 0 <= i < |s| - 1 ==> RemoveAt(s, m)[i] in s
  {
    assert s == s[..m] + [s[m]] + s[m + 1..];
  }

  /** list_remove, sema_up. */
  method SignalAt(cond: Condition, m: nat, ghost ts: seq<Thread>, ghost key: map<Thread, int>)
    returns (unblocked: Option<Thread>)
    requires Waiting(cond.waiters, ts, key) && m < |ts|
    modifies cond, cond.waiters, ts`status
    ensures cond.waiters == RemoveAt(old(cond.waiters), m) && Waiting(cond.waiters, RemoveAt(ts, m), key)
    ensures old(cond.waiters)[m].waiters == []
    ensures old(cond.waiters)[m].value == old(cond.waiters[m].value) + 1
    ensures unblocked == (if old(cond.waiters[m].waiters) == [] then None else Some(ts[m]))
    ensures unblocked.Some? ==> ts[m].status == Ready
    ensures forall s :: s in cond.waiters ==> unchanged(s)
    ensures old(AllAsleep(cond.waiters)) ==> AllAsleep(cond.waiters)
  {
    var sema := cond.waiters[m];
    RemovalIsDistinct(cond.waiters, m);
    RemovalIsDistinct(ts, m);
    hide RemoveAt, Distinct, Post, Key;
    assert WaitsOn(sema, ts[m], key);
    cond.waiters := RemoveAt(cond.waiters, m);
    unblocked := SemaPost(sema, {});
    if unblocked.Some? {
      assert unblocked.value.status == Blocked;
      unblocked.value.status := Ready;
    }
  }

  /** cond_signal; the caller holds the lock.  It is well-defined if and only if at most one
      thread has queued or all queued threads are asleep.  Then the first of the most urgent
      threads is signalled, and woken if it is asleep; the others stay as they are. */
  method CondSignal(cond: Condition, ghost ts: seq<Thread>, ghost key: map<Thread, int>)
    returns (ok: bool, unblocked: Option<Thread>)
    requires Waiting(cond.waiters, ts, key)
    modifies cond, cond.waiters, ts`status
    ensures ok <==> |ts| <= 1 || old(AllAsleep(cond.waiters))
    ensures !ok || ts == [] ==> cond.waiters == old(cond.waiters) && unblocked == None
    ensures ok && ts != [] ==>
              var m := FirstMax(ts, key);
              && cond.waiters == RemoveAt(old(cond.waiters), m)
              && Waiting(cond.waiters, RemoveAt(ts, m), key)
              && old(cond.waiters)[m].waiters == []
              && old(cond.waiters)[m].value == old(cond.waiters[m].value) + 1
              && unblocked == (if old(cond.waiters[m].waiters) == [] then None else Some(ts[m]))
              && (unblocked.Some? ==> ts[m].status == Ready)
    ensures forall s :: s in cond.waiters ==> unchanged(s)
    ensures old(AllAsleep(cond.waiters)) ==>
              AllAsleep(cond.waiters) && (ts != [] ==> unblocked == Some(ts[FirstMax(ts, key)]))
  {
    WaitingLengths(cond.waiters, ts, key);
    hide FirstMax, RemoveAt, Waiting;
    ok, unblocked := true, None;
    if cond.waiters != [] {
      var max := MostUrgent(cond.waiters, ts, key);
      if max == None {
        return false, None;
      }
      unblocked := SignalAt(cond, max.value, ts, key);
    }
  }

  lemma WaitingLengths(ws: seq<Semaphore>, ts: seq<Thread>, key: map<Thread, int>)
    requires Waiting(ws, ts, key)
    ensures |ws| == |ts|
  {}

  lemma NextWoken(woken: seq<Thread>, ts: seq<Thread>, key: map<Thread, int>)
    requires ts != []
    ensures var m := FirstMax(ts, key);
            woken + StableSort(ts, key) == woken + [ts[m]] + StableSort(RemoveAt(ts, m), key)
  {
    hide StableSort, FirstMax, RemoveAt;
    FirstMaxHeadsTheSort(ts, key);
  }

  lemma NobodyLeft(key: map<Thread, int>)
    ensures StableSort([], key) == []
  {}

  /** cond_broadcast, under the same condition: all threads are signalled and none is left;
      if they were asleep they are woken in the stable order of descending priority. */
  method CondBroadcast(cond: Condition, ghost ts: seq<Thread>, ghost key: map<Thread, int>)
    returns (ok: bool, woken: seq<Thread>)
    requires Waiting(cond.waiters, ts, key)
    modifies cond, cond.waiters, ts`status
    ensures ok <==> |ts| <= 1 || old(AllAsleep(cond.waiters))
    ensures !ok ==> cond.waiters == old(cond.waiters) && woken == []
    ensures ok ==> cond.waiters == []
    ensures ok ==> forall s :: s in old(cond.waiters) ==> s.waiters == [] && s.value == old(s.value) + 1
    ensures old(AllAsleep(cond.waiters)) ==> woken == StableSort(ts, key) && forall t :: t in ts ==> t.status == Ready
  {
    hide Waiting, WaitsOn, StableSort, RemoveAt, FirstMax, Distinct, AllAsleep;
    ok, woken := true, [];
    WaitingLengths(cond.waiters, ts, key);
    ghost var left := ts;
    ghost var ws := cond.waiters;
    ghost var asleep := AllAsleep(cond.waiters);
    while cond.waiters != []
      invariant ok && Waiting(cond.waiters, left, key) && |left| == |cond.waiters|
      invariant || (cond.waiters == ws && left == ts && AllAsleep(cond.waiters) == asleep)
                || (asleep && AllAsleep(cond.waiters)) || (cond.waiters == [] && |ws| <= 1)
      invariant asleep ==> woken + StableSort(left, key) == StableSort(ts, key)
      invariant forall i :: 0 <= i < |left| ==> left[i] in ts
      invariant forall i :: 0 <= i < |cond.waiters| ==> cond.waiters[i] in ws
      invariant forall s :: s in cond.waiters ==> s.value == old(s.value) && s.waiters == old(s.waiters)
      invariant asleep ==> forall t :: t in ts ==> t in left || t.status == Ready
      invariant forall s :: s in ws ==> s in cond.waiters || (s.waiters == [] && s.value == old(s.value) + 1)
      decreases |cond.waiters|
    {
      ghost var m := FirstMax(left, key);
      NextWoken(woken, left, key);
      MembersOfRemoval(left, m);
      MembersOfRemoval(cond.waiters, m);
      var went, t := CondSignal(cond, left, key);
      if !went {
        return false, [];
      }
      if t.Some? {
        woken := woken + [t.value];
      }
      left := RemoveAt(left, m);
    }
    NobodyLeft(key);
  }

  /** The condition is needed: cond_signal between a second thread's release of the lock and
      its going to sleep compares with an empty waiter list. */
  method SignalTooEarly(a: Thread, b: Thread) returns (ok: bool)
    requires a != b
    modifies a`status, b`status
    ensures !ok
  {
    ghost var key := map t: Thread | t in {a, b} :: t.priority;
    assert Key(key, a) == a.priority && Key(key, b) == b.priority;
    var cond := new Condition();
    assert Waiting(cond.waiters, [], key);
    hide Waiting, Key;
    CondEnqueue(cond, a, [], key);
    var slept := CondBlock(cond.waiters, 0, a, [a], key);
    CondEnqueue(cond, b, [a], key);
    assert cond.waiters[1].waiters == [];
    var unblocked;
    ok, unblocked := CondSignal(cond, [a, b], key);
  }
}
