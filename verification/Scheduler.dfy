/** The scheduler of src/threads/thread.c and the timer handler of src/devices/timer.c as
    one step machine: `Step(s, e)` is the state in which the kernel leaves event e.

    `mlfqs` is the boot flag thread_mlfqs.  `scan` selects between the kernel (false) and
    a reference machine (true) that keeps ready and sleeping threads in arrival order and
    scans for the most urgent one; SchedulerRefinement proves that nobody can tell them
    apart. */
module Scheduler {
  import opened Objects
  import opened OrderedList
  import opened Buckets
  import opened MlfqsMath
  import FixedPoint

  const TIME_SLICE := 4
  const PRIORITY_PERIOD := 4
  const BUCKETS := PRI_MAX - PRI_MIN + 1

  datatype State = State(
    mlfqs: bool,
    scan: bool,
    status: map<Thread, Status>,
    priority: map<Thread, int>,
    base: map<Thread, int>,
    nice: map<Thread, int>,
    recentCpu: map<Thread, int>,
    wakeup: map<Thread, int>,
    all: seq<Thread>,
    ready: seq<Thread>,
    buckets: seq<seq<Thread>>,
    sleepers: seq<Thread>,
    cur: Thread,
    idle: Thread,
    loadAvg: int,
    ticks: int,
    threadTicks: int)

  datatype Event =
    | Enroll(t: Thread, priority: int)
    | Block
    | Wake(t: Thread)
    | CheckPreemption
    | YieldCpu
    | Exit
    | SetNice(n: int)
    | SetPriority(p: int)
    | Refresh
    | Sleep(start: int, n: int)
    | Tick

  /** A thread without a record has been destroyed. */
  function StatusOf(s: State, t: Thread): Status {
    if t in s.status then s.status[t] else Dying
  }

  /** The sleep list is ordered by earliest deadline. */
  function Urgency(wakeup: map<Thread, int>): map<Thread, int> {
    map t | t in wakeup :: -wakeup[t]
  }

  function Queue(s: State): seq<Thread> {
    if s.mlfqs then Flat(s.buckets) else s.ready
  }

  /** Under MLFQS a priority selects a bucket; otherwise any priority will do. */
  predicate HasBucket(mlfqs: bool, p: int) {
    mlfqs ==> PRI_MIN <= p <= PRI_MAX
  }

  // ----- the run queue -----

  /** mlfqs_insert or the ordered insertion into ready_list.  A priority without a bucket
      would be an out-of-bounds access in the kernel; Invariant rules it out. */
  function Enqueue(s: State, t: Thread): State {
    s.(buckets := if s.mlfqs then PushAt(s.buckets, Key(s.priority, t), t) else s.buckets,
       ready := if s.mlfqs then s.ready
                else if s.scan then s.ready + [t]
                else Insert(s.ready, s.priority, t))
  }

  function PushAt(b: seq<seq<Thread>>, p: int, t: Thread): seq<seq<Thread>> {
    if 0 <= p < |b| then Push(b, p, t) else b
  }

  /** Where the next thread stands in a non-empty ready list. */
  function Front(s: State): (i: nat)
    requires s.ready != []
    ensures i < |s.ready|
  {
    if s.scan then FirstMax(s.ready, s.priority) else 0
  }

  function NextThread(s: State): Thread {
    if s.mlfqs then
      if Top(s.buckets) >= 0 then s.buckets[Top(s.buckets)][0] else s.idle
    else
      if s.ready != [] then s.ready[Front(s)] else s.idle
  }

  function Dequeue(s: State): State {
    s.(buckets := if s.mlfqs && Top(s.buckets) >= 0 then PopFront(s.buckets, Top(s.buckets)) else s.buckets,
       ready := if !s.mlfqs && s.ready != [] then RemoveAt(s.ready, Front(s)) else s.ready)
  }

  function SetStatus(s: State, t: Thread, status: Status): State {
    s.(status := s.status[t := status])
  }

  /** schedule: dispatch the next thread and start a new time slice. */
  function Schedule(s: State): State {
    var next := NextThread(s);
    SetStatus(Dequeue(s), next, Running).(cur := next, threadTicks := 0)
  }

  function MakeReady(s: State, t: Thread): State {
    Enqueue(SetStatus(s, t, Ready), t)
  }

  /** thread_yield up to the call of schedule: the idle thread is never queued. */
  function Requeue(s: State): State {
    var queued := MakeReady(s, s.cur);
    queued.(buckets := if s.cur == s.idle then s.buckets else queued.buckets,
            ready := if s.cur == s.idle then s.ready else queued.ready)
  }

  function UpdatePriority(s: State, t: Thread): State {
    s.(priority := if t == s.idle then s.priority else Reprioritised(s, t))
  }

  /** mlfqs_update_priority for a thread other than the idle one. */
  function Reprioritised(s: State, t: Thread): map<Thread, int> {
    s.priority[t := PriorityFor(Key(s.recentCpu, t), Key(s.nice, t))]
  }

  function Unblock(s: State, t: Thread): State {
    MakeReady(s.(priority := if s.mlfqs && t != s.idle then Reprioritised(s, t) else s.priority), t)
  }

  /** check_preemption and thread_yield_if_necessary: both look at ready_list only. */
  predicate ReadyPreempts(s: State) {
    s.ready != [] && Key(s.priority, s.ready[Front(s)]) > Key(s.priority, s.cur)
  }

  /** mlfqs_check_preemption: looks at the buckets only. */
  predicate BucketPreempts(s: State) {
    Top(s.buckets) > Key(s.priority, s.cur)
  }

  predicate Preempts(s: State) {
    if s.mlfqs then BucketPreempts(s) else ReadyPreempts(s)
  }

  // ----- thread life cycle -----

  function InitThread(s: State, t: Thread, priority: int): State {
    var nice := if s.mlfqs then Key(s.nice, s.cur) else 0;
    var cpu := if s.mlfqs then Key(s.recentCpu, s.cur) else 0;
    s.(status := s.status[t := Blocked],
       priority := s.priority[t := if s.mlfqs && t != s.idle then PriorityFor(cpu, nice) else priority],
       base := s.base[t := priority],
       nice := s.nice[t := nice],
       recentCpu := s.recentCpu[t := cpu],
       wakeup := s.wakeup[t := 0],
       all := s.all + [t])
  }

  function Forget(s: State, t: Thread): State {
    s.(status := s.status - {t},
       priority := s.priority - {t},
       base := s.base - {t},
       nice := s.nice - {t},
       recentCpu := s.recentCpu - {t},
       wakeup := s.wakeup - {t},
       all := Without(s.all, t))
  }

  function Renice(s: State, n: int): State {
    UpdatePriority(s.(nice := s.nice[s.cur := ClampNice(n)]), s.cur)
  }

  function FallAsleep(s: State, deadline: int): State {
    var wakeup := s.wakeup[s.cur := deadline];
    s.(wakeup := wakeup,
       sleepers := if s.scan then s.sleepers + [s.cur] else Insert(s.sleepers, Urgency(wakeup), s.cur))
  }

  // ----- the timer interrupt -----

  function UnblockAll(s: State, ts: seq<Thread>): State
    decreases |ts|
  {
    if ts == [] then s else UnblockAll(Unblock(s, ts[0]), ts[1..])
  }

  /** timer_wakeup: pop the sleep list while its head is due. */
  function WakeHeads(s: State): State
    decreases |s.sleepers|
  {
    if s.sleepers == [] || Key(s.wakeup, s.sleepers[0]) > s.ticks then s
    else WakeHeads(Unblock(s.(sleepers := s.sleepers[1..]), s.sleepers[0]))
  }

  function Due(s: State): seq<Thread> {
    AtLeast(s.sleepers, Urgency(s.wakeup), -s.ticks)
  }

  function NotDue(s: State): seq<Thread> {
    Below(s.sleepers, Urgency(s.wakeup), -s.ticks)
  }

  /** The reference: look at every sleeper, wake those who are due, earliest first. */
  function WakeScan(s: State): State {
    UnblockAll(s.(sleepers := NotDue(s)), StableSort(Due(s), Urgency(s.wakeup)))
  }

  function WakeSleepers(s: State): State {
    if s.scan then WakeScan(s) else WakeHeads(s)
  }

  function ThreadTick(s: State): State {
    var charged :=
      if s.mlfqs && s.cur != s.idle then
        s.recentCpu[s.cur := FixedPoint.FpAddInt(Key(s.recentCpu, s.cur), 1)]
      else s.recentCpu;
    s.(recentCpu := charged, threadTicks := s.threadTicks + 1)
  }

  /** mlfqs_update_priority over all threads. */
  function NewPriorities(s: State): map<Thread, int> {
    map t | t in s.all ::
      if t == s.idle then Key(s.priority, t) else PriorityFor(Key(s.recentCpu, t), Key(s.nice, t))
  }

  /** mlfqs_ready_threads. */
  function ReadyThreads(s: State): nat {
    |Flat(s.buckets)| + if s.cur == s.idle then 0 else 1
  }

  /** mlfqs_update_recent_cpu over all threads. */
  function DecayedCpus(s: State): map<Thread, int> {
    map t | t in s.all ::
      if t == s.idle then Key(s.recentCpu, t)
      else RecentCpuAfter(s.loadAvg, Key(s.recentCpu, t), Key(s.nice, t))
  }

  /** thread_tick and timer_wakeup. */
  function CountAndWake(s: State): State {
    WakeSleepers(ThreadTick(s.(ticks := s.ticks + 1)))
  }

  predicate FourthTick(s: State) { s.mlfqs && s.ticks % PRIORITY_PERIOD == 0 }

  predicate FullSecond(s: State) { s.mlfqs && s.ticks % TIMER_FREQ == 0 }

  /** mlfqs_update_priority_all, every fourth tick. */
  function Reprioritise(s: State): State {
    var due := FourthTick(s);
    s.(priority := if due then NewPriorities(s) else s.priority,
       buckets := if due then Rebucket(s.buckets, NewPriorities(s)) else s.buckets)
  }

  /** mlfqs_update_rcpu_la, every second: recent_cpu decays by the old load average. */
  function DecayEverySecond(s: State): State {
    var due := FullSecond(s);
    s.(recentCpu := if due then DecayedCpus(s) else s.recentCpu,
       loadAvg := if due then LoadAvgAfter(s.loadAvg, ReadyThreads(s)) else s.loadAvg)
  }

  /** The body of timer_interrupt. */
  function Interrupt(s: State): State {
    DecayEverySecond(Reprioritise(CountAndWake(s)))
  }

  /** Whether the handler asks for a yield on return. */
  predicate YieldOnReturn(s: State) {
    || s.threadTicks + 1 >= TIME_SLICE
    || var s1 := Reprioritise(CountAndWake(s)); FourthTick(s1) && BucketPreempts(s1)
  }

  // ----- events -----

  /** What the kernel's callers and assertions guarantee. */
  predicate Enabled(s: State, e: Event) {
    match e
    case Enroll(t, p) => s.cur != s.idle && t !in s.all && PRI_MIN <= p <= PRI_MAX
    case Wake(t) => t in s.all && t != s.idle && StatusOf(s, t) == Blocked && t !in s.sleepers
    case Exit => s.cur != s.idle
    case SetNice(_) => s.cur != s.idle
    case SetPriority(p) => s.cur != s.idle && HasBucket(s.mlfqs, p)
    case Refresh => s.cur != s.idle
    case Sleep(start, _) => s.cur != s.idle && start <= s.ticks
    case _ => true
  }

  /** The state after e and before the yield that e may end with. */
  function Effect(s: State, e: Event): State {
    match e
    case Enroll(t, p) => InitThread(s, t, p)
    case Block => s
    case Wake(t) => Unblock(s, t)
    case CheckPreemption => s
    case YieldCpu => s
    case Exit => Forget(s, s.cur)
    case SetNice(n) => Renice(s, n)
    case SetPriority(p) => s.(priority := s.priority[s.cur := p])
    case Refresh => s.(priority := s.priority[s.cur := Key(s.base, s.cur)])
    case Sleep(start, n) => if n <= 0 then s else FallAsleep(s, start + n)
    case Tick => Interrupt(s)
  }

  predicate WantsYield(s: State, e: Event) {
    match e
    case CheckPreemption => Preempts(s)
    case YieldCpu => true
    case SetNice(_) => BucketPreempts(Effect(s, e))
    case SetPriority(_) => ReadyPreempts(Effect(s, e))
    case Refresh => ReadyPreempts(Effect(s, e))
    case Tick => YieldOnReturn(s)
    case _ => false
  }

  /** Whether e hands the processor out anew. */
  predicate Dispatches(s: State, e: Event) {
    e == Block || e == Exit || (e.Sleep? && e.n > 0) || WantsYield(s, e)
  }

  /** The state in which e calls schedule: the current thread has been blocked, has
      exited, or has been put back in the run queue. */
  function Leave(s: State, e: Event): State {
    match e
    case Block => SetStatus(s, s.cur, Blocked)
    case Exit => Effect(s, e)
    case Sleep(_, _) => SetStatus(Effect(s, e), s.cur, Blocked)
    case _ => Requeue(Effect(s, e))
  }

  function Step(s: State, e: Event): State {
    if Dispatches(s, e) then Schedule(Leave(s, e)) else Effect(s, e)
  }

  /** Every event of es is enabled in its turn. */
  predicate CanRun(s: State, es: seq<Event>)
    decreases |es|
  {
    es == [] || (Enabled(s, es[0]) && CanRun(Step(s, es[0]), es[1..]))
  }

  function Run(s: State, es: seq<Event>): State
    decreases |es|
  {
    if es == [] then s else Run(Step(s, es[0]), es[1..])
  }
}
