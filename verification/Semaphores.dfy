/** Semaphores of src/threads/synch.c as a step machine.  Each step is one stretch of code
    that runs with interrupts disabled, so any interleaving of threads is a sequence of
    steps.  sema_down re-tests its condition in a loop, so a woken thread can be overtaken
    (barging) and must queue again. */
module Semaphores {
  import opened Objects
  import opened OrderedList

  /** `woken` holds the threads that sema_up has unblocked and that have not yet come back
      to the loop test. */
  datatype Sema = Sema(value: nat, waiters: seq<Thread>, woken: set<Thread>)

  /** `key` gives the priorities at the moment of a queue insertion. */
  datatype SemaEvent =
    | Down(t: Thread, key: map<Thread, int>)
    | Recheck(t: Thread, key: map<Thread, int>)
    | TryDown(t: Thread)
    | Up

  /** One pass through the loop of sema_down: take the semaphore or queue up and block. */
  function Attempt(s: Sema, t: Thread, key: map<Thread, int>): Sema {
    if s.value > 0 then Sema(s.value - 1, s.waiters, s.woken - {t})
    else Sema(0, Insert(s.waiters, key, t), s.woken - {t})
  }

  function TakeIfPositive(s: Sema): Sema {
    if s.value > 0 then s.(value := s.value - 1) else s
  }

  function Post(s: Sema): Sema {
    if s.waiters == [] then s.(value := s.value + 1)
    else Sema(s.value + 1, s.waiters[1..], s.woken + {s.waiters[0]})
  }

  predicate Free(s: Sema, t: Thread) { t !in s.waiters && t !in s.woken }

  predicate SemaEnabled(s: Sema, e: SemaEvent) {
    match e
    case Down(t, _) => Free(s, t)
    case Recheck(t, _) => t in s.woken
    case TryDown(t) => Free(s, t)
    case Up => true
  }

  function SemaStep(s: Sema, e: SemaEvent): Sema {
    match e
    case Down(t, key) => Attempt(s, t, key)
    case Recheck(t, key) => Attempt(s, t, key)
    case TryDown(_) => TakeIfPositive(s)
    case Up => Post(s)
  }

  predicate SemaCanRun(s: Sema, es: seq<SemaEvent>)
    decreases |es|
  {
    es == [] || (SemaEnabled(s, es[0]) && SemaCanRun(SemaStep(s, es[0]), es[1..]))
  }

  function SemaRun(s: Sema, es: seq<SemaEvent>): Sema
    decreases |es|
  {
    if es == [] then s else SemaRun(SemaStep(s, es[0]), es[1..])
  }

  // ----- no lost wake-up -----

  /** A unit that could satisfy a queued thread is always matched by a woken thread that is
      still on its way to the loop test; nobody is queued twice or queued and woken. */
  ghost predicate NoLostWakeup(s: Sema) {
    && (s.waiters != [] ==> s.value <= |s.woken|)
    && (forall t :: t in s.waiters ==> multiset(s.waiters)[t] == 1 && t !in s.woken)
  }

  lemma AttemptKeepsWakeups(s: Sema, t: Thread, key: map<Thread, int>)
    requires NoLostWakeup(s) && t !in s.waiters
    ensures NoLostWakeup(Attempt(s, t, key))
  {
    var s1 := Attempt(s, t, key);
    if s.value == 0 {
      InsertIsPermutation(s.waiters, key, t);
      forall u | u in s1.waiters
        ensures multiset(s1.waiters)[u] == 1 && u !in s1.woken
      {
        MemberOfInsert(s.waiters, key, t, u);
      }
    } else if t in s.woken {
      assert |s.woken - {t}| == |s.woken| - 1;
    } else {
      assert s.woken - {t} == s.woken;
    }
  }

  lemma PostKeepsWakeups(s: Sema)
    requires NoLostWakeup(s)
    ensures NoLostWakeup(Post(s))
  {
    if s.waiters != [] {
      var first, rest := s.waiters[0], s.waiters[1..];
      assert s.waiters == [first] + rest;
      assert multiset(s.waiters) == multiset{first} + multiset(rest);
      assert multiset(rest)[first] == 0 && first !in s.woken;
      forall u | u in rest
        ensures multiset(rest)[u] == 1 && u !in s.woken + {first}
      {
        assert u in s.waiters && multiset(rest)[u] > 0;
      }
    }
  }

  lemma {:induction false} NoWakeupIsEverLost(s: Sema, es: seq<SemaEvent>)
    requires NoLostWakeup(s) && SemaCanRun(s, es)
    ensures NoLostWakeup(SemaRun(s, es))
    decreases |es|
  {
    if es != [] {
      match es[0] {
        case Down(t, key) => AttemptKeepsWakeups(s, t, key);
        case Recheck(t, key) => AttemptKeepsWakeups(s, t, key);
        case TryDown(_) =>
        case Up => PostKeepsWakeups(s);
      }
      NoWakeupIsEverLost(SemaStep(s, es[0]), es[1..]);
    }
  }

  /** Once every woken thread has come back, a thread can only be waiting on an exhausted
      semaphore: from sema_init, over all interleavings. */
  lemma QuietMeansExhausted(value: nat, es: seq<SemaEvent>)
    requires SemaCanRun(Sema(value, [], {}), es)
    ensures var s := SemaRun(Sema(value, [], {}), es);
            s.woken == {} ==> s.waiters == [] || s.value == 0
  {
    NoWakeupIsEverLost(Sema(value, [], {}), es);
  }

  // ----- conservation -----

  function UpCount(es: seq<SemaEvent>): nat {
    if es == [] then 0 else (if es[0].Up? then 1 else 0) + UpCount(es[1..])
  }

  /** How many sema_down and sema_try_down calls of a run have succeeded. */
  function Successes(s: Sema, es: seq<SemaEvent>): nat
    decreases |es|
  {
    if es == [] then 0
    else (if !es[0].Up? && s.value > 0 then 1 else 0) + Successes(SemaStep(s, es[0]), es[1..])
  }

  lemma {:induction false} UnitsAreConserved(s: Sema, es: seq<SemaEvent>)
    ensures SemaRun(s, es).value == s.value + UpCount(es) - Successes(s, es)
    decreases |es|
  {
    if es != [] {
      UnitsAreConserved(SemaStep(s, es[0]), es[1..]);
    }
  }

  // ----- wake-up order -----

  /** All insertions of a run see the same priorities. */
  predicate FixedPriorities(es: seq<SemaEvent>, key: map<Thread, int>) {
    forall i :: 0 <= i < |es| ==> (es[i].Down? || es[i].Recheck?) ==> es[i].key == key
  }

  /** The reference semaphore queues in arrival order and wakes the first maximum. */
  function ScanStep(r: Sema, e: SemaEvent, key: map<Thread, int>): Sema {
    match e
    case Down(t, _) => ScanAttempt(r, t)
    case Recheck(t, _) => ScanAttempt(r, t)
    case TryDown(_) => TakeIfPositive(r)
    case Up =>
      if r.waiters == [] then r.(value := r.value + 1)
      else
        var m := FirstMax(r.waiters, key);
        Sema(r.value + 1, RemoveAt(r.waiters, m), r.woken + {r.waiters[m]})
  }

  function ScanAttempt(r: Sema, t: Thread): Sema {
    if r.value > 0 then Sema(r.value - 1, r.waiters, r.woken - {t})
    else Sema(0, r.waiters + [t], r.woken - {t})
  }

  function ScanRun(r: Sema, es: seq<SemaEvent>, key: map<Thread, int>): Sema
    decreases |es|
  {
    if es == [] then r else ScanRun(ScanStep(r, es[0], key), es[1..], key)
  }

  /** While priorities stay fixed, the sorted waiter list always wakes the longest-waiting
      thread of maximum priority. */
  lemma {:induction false} UpWakesMostUrgent(s: Sema, r: Sema, es: seq<SemaEvent>, key: map<Thread, int>)
    requires FixedPriorities(es, key)
    requires s.value == r.value && s.woken == r.woken && s.waiters == StableSort(r.waiters, key)
    ensures var (s1, r1) := (SemaRun(s, es), ScanRun(r, es, key));
            s1.value == r1.value && s1.woken == r1.woken && s1.waiters == StableSort(r1.waiters, key)
    decreases |es|
  {
    hide SemaStep, ScanStep, StableSort;
    if es != [] {
      StepMatches(s, r, es[0], key);
      UpWakesMostUrgent(SemaStep(s, es[0]), ScanStep(r, es[0], key), es[1..], key);
    }
  }

  lemma StepMatches(s: Sema, r: Sema, e: SemaEvent, key: map<Thread, int>)
    requires e.Down? || e.Recheck? ==> e.key == key
    requires s.value == r.value && s.woken == r.woken && s.waiters == StableSort(r.waiters, key)
    ensures var (s1, r1) := (SemaStep(s, e), ScanStep(r, e, key));
            s1.value == r1.value && s1.woken == r1.woken && s1.waiters == StableSort(r1.waiters, key)
  {
    if e.Down? || e.Recheck? {
      assert (r.waiters + [e.t])[..|r.waiters|] == r.waiters;
    } else if e.Up? && r.waiters != [] {
      FirstMaxHeadsTheSort(r.waiters, key);
      hide StableSort;
    }
  }

  function Ups(n: nat): (es: seq<SemaEvent>)
    ensures |es| == n
  {
    seq(n, _ => Up)
  }

  /** The next sema_up wakes a thread that is, by the priorities of now, most urgent. */
  predicate WakesMostUrgent(s: Sema, now: map<Thread, int>) {
    && s.waiters != [] && Post(s).woken == s.woken + {s.waiters[0]} && Post(s).waiters == s.waiters[1..]
    && forall x :: x in s.waiters ==> Key(now, x) <= Key(now, s.waiters[0])
  }

  lemma {:induction false} DrainedQueue(s: Sema, n: nat)
    requires n <= |s.waiters|
    ensures SemaRun(s, Ups(n)).waiters == s.waiters[n..]
    decreases n
  {
    if n > 0 {
      assert Ups(n)[1..] == Ups(n - 1);
      DrainedQueue(Post(s), n - 1);
    }
  }

  /** The exact condition.  Draining a queue without further arrivals wakes a thread of
      maximum current priority each time if and only if the list is sorted by the current
      priorities when it begins. */
  lemma DrainIsByUrgencyIff(s: Sema, now: map<Thread, int>)
    ensures (forall k :: 0 <= k < |s.waiters| ==> WakesMostUrgent(SemaRun(s, Ups(k)), now))
            <==> Sorted(s.waiters, now)
  {
    forall k | 0 <= k < |s.waiters|
      ensures SemaRun(s, Ups(k)).waiters == s.waiters[k..]
    {
      DrainedQueue(s, k);
    }
    hide SemaRun, Ups;
    if Sorted(s.waiters, now) {
      forall k | 0 <= k < |s.waiters|
        ensures WakesMostUrgent(SemaRun(s, Ups(k)), now)
      {
        SortedFrom(s.waiters, now, k);
      }
    }
    if forall k :: 0 <= k < |s.waiters| ==> WakesMostUrgent(SemaRun(s, Ups(k)), now) {
      forall i, j | 0 <= i < j < |s.waiters|
        ensures Key(now, s.waiters[i]) >= Key(now, s.waiters[j])
      {
        assert WakesMostUrgent(SemaRun(s, Ups(i)), now);
        assert s.waiters[i..][j - i] == s.waiters[j];
      }
    }
  }

  lemma SortedFrom(ws: seq<Thread>, now: map<Thread, int>, k: nat)
    requires Sorted(ws, now) && k < |ws|
    ensures forall x :: x in ws[k..] ==> Key(now, x) <= Key(now, ws[k..][0])
  {}

  /** The list need not stay sorted: a thread whose priority rises while it is queued keeps
      its place, and sema_up passes it over. */
  lemma LaterRiseIsIgnored(a: Thread, b: Thread)
    requires a != b
    ensures var (before, now) := (map[a := 3, b := 5], map[a := 9, b := 5]);
            var s := SemaRun(Sema(0, [], {}), [Down(a, before), Down(b, before)]);
            && SemaCanRun(Sema(0, [], {}), [Down(a, before), Down(b, before)])
            && Post(s).woken == {b} && Key(now, b) < Key(now, a) && a in s.waiters
  {
    var before := map[a := 3, b := 5];
    var es := [Down(a, before), Down(b, before)];
    assert es[1..] == [Down(b, before)] && es[1..][1..] == [];
    var s1 := SemaStep(Sema(0, [], {}), es[0]);
    assert s1.waiters == [a] && s1.woken == {};
    var s2 := SemaStep(s1, es[1]);
    assert s2 == Sema(0, [b, a], {});
    assert SemaRun(Sema(0, [], {}), es) == SemaRun(s1, es[1..]) == SemaRun(s2, es[1..][1..]) == s2;
  }
}
