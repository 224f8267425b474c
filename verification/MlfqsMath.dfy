/** The three MLFQS recurrences of src/threads/thread.c and what they keep. */
module MlfqsMath {
  import opened FixedPoint
  import opened Options

  const PRI_MIN := 0
  const PRI_MAX := 63
  const NICE_MIN := -20
  const NICE_MAX := 20
  const TIMER_FREQ := 100

  /** 2 * load_avg / (2 * load_avg + 1). */
  function DecayCoefficient(load: int): int {
    var twoLoad := FpMulInt(load, 2);
    var denom := FpAddInt(twoLoad, 1);
    if denom == 0 then 0 else FpDiv(twoLoad, denom)
  }

  function RecentCpuAfter(load: int, cpu: int, nice: int): int {
    FpAddInt(FpMul(DecayCoefficient(load), cpu), nice)
  }

  function PriorityFor(cpu: int, nice: int): (p: int)
    ensures PRI_MIN <= p <= PRI_MAX
  {
    var middle := FpToInt(FpDivInt(cpu, 4));
    var raw := PRI_MAX - middle - nice * 2;
    if raw > PRI_MAX then PRI_MAX else if raw < PRI_MIN then PRI_MIN else raw
  }

  function LoadAvgAfter(load: int, ready: int): int {
    var a := FpMul(FpDivInt(IntToFp(59), 60), load);
    var b := FpMulInt(FpDivInt(IntToFp(1), 60), ready);
    FpAdd(a, b)
  }

  function ClampNice(n: int): (r: int)
    ensures NICE_MIN <= r <= NICE_MAX
    ensures NICE_MIN <= n <= NICE_MAX ==> r == n
    ensures n > NICE_MAX ==> r == NICE_MAX
    ensures n < NICE_MIN ==> r == NICE_MIN
  {
    var m := if n > NICE_MAX then NICE_MAX else n;
    if m < NICE_MIN then NICE_MIN else m
  }

  /** q is PRI_MAX - recent_cpu / 4 - nice * 2, with recent_cpu / 4 brought to an integer by
      truncation; the priority is q, moved into the range of priorities. */
  lemma PriorityForIsTheFormula(cpu: int, nice: int, q: int)
    requires IsTruncated(cpu, 4 * F, (PRI_MAX - 2 * nice - q) * (4 * F))
    ensures PriorityFor(cpu, nice) == if q > PRI_MAX then PRI_MAX else if q < PRI_MIN then PRI_MIN else q
  {
    TruncDivIsTheCQuotient(cpu, 4 * F, PRI_MAX - 2 * nice - q);
    TruncTwice(cpu);
  }

  lemma TruncTwice(x: int)
    ensures TruncDiv(TruncDiv(x, 4), F) == TruncDiv(x, 4 * F)
  {}

  /** q is c * recent_cpu + nice, where c is 2 * load_avg / (2 * load_avg + 1) and both
      quotients of the fixed-point operations are truncated. */
  lemma RecentCpuIsTheFormula(load: int, cpu: int, nice: int, c: int, q: int)
    requires load >= 0 && IsTruncated(2 * load * F, 2 * load + F, c * (2 * load + F))
    requires IsTruncated(c * cpu, F, (q - nice * F) * F)
    ensures RecentCpuAfter(load, cpu, nice) == q
  {
    TruncDivIsTheCQuotient(2 * load * F, 2 * load + F, c);
    TruncDivIsTheCQuotient(c * cpu, F, q - nice * F);
  }

  /** q is a * load_avg + b * ready, where a is 59/60 and b is 1/60, all quotients
      truncated. */
  lemma LoadAvgIsTheFormula(load: int, ready: int, a: int, b: int, q: int)
    requires IsTruncated(59 * F, 60, a * 60) && IsTruncated(F, 60, b * 60)
    requires IsTruncated(a * load, F, (q - b * ready) * F)
    ensures LoadAvgAfter(load, ready) == q
  {
    TruncDivIsTheCQuotient(59 * F, 60, a);
    TruncDivIsTheCQuotient(F, 60, b);
    TruncDivIsTheCQuotient(a * load, F, q - b * ready);
  }

  // ----- load_avg -----

  /** load_avg over a run of per-second updates with the given ready counts. */
  function LoadRun(load: int, readies: seq<nat>): int
    decreases |readies|
  {
    if readies == [] then load
    else LoadAvgAfter(LoadRun(load, readies[..|readies| - 1]), readies[|readies| - 1])
  }

  /** The recurrence of README.md over the reals. */
  function ExactLoadRun(load: real, readies: seq<nat>): real
    decreases |readies|
  {
    if readies == [] then load
    else
      59.0 / 60.0 * ExactLoadRun(load, readies[..|readies| - 1])
      + readies[|readies| - 1] as real / 60.0
  }

  lemma LoadAvgStepBound(load: int, ready: nat, most: nat)
    requires 0 <= load <= 16383 * most && ready <= most
    ensures 0 <= LoadAvgAfter(load, ready) <= 16383 * most
  {
    TruncDivBounds(16110 * load, F);
  }

  lemma {:induction false} LoadAvgStaysBounded(readies: seq<nat>, most: nat)
    requires forall i :: 0 <= i < |readies| ==> readies[i] <= most
    ensures 0 <= LoadRun(0, readies) <= 16383 * most
    decreases |readies|
  {
    if readies != [] {
      var before := readies[..|readies| - 1];
      LoadAvgStaysBounded(before, most);
      LoadAvgStepBound(LoadRun(0, before), readies[|readies| - 1], most);
    }
  }

  /** The fixed-point average never runs ahead of the exact one and lags it by at most
      60 * (most + 1) units of 1/F, however long the run. */
  lemma {:induction false} LoadAvgTracksExact(readies: seq<nat>, most: nat)
    requires forall i :: 0 <= i < |readies| ==> readies[i] <= most
    ensures 0.0 <= F as real * ExactLoadRun(0.0, readies) - LoadRun(0, readies) as real
                <= 60.0 * (most + 1) as real
    decreases |readies|
  {
    if readies != [] {
      var before := readies[..|readies| - 1];
      LoadAvgTracksExact(before, most);
      LoadAvgStaysBounded(before, most);
      TrackingStep(ExactLoadRun(0.0, before), LoadRun(0, before), readies[|readies| - 1], most);
    }
  }

  lemma TrackingStep(exact: real, load: int, ready: nat, most: nat)
    requires 0 <= load <= 16383 * most && ready <= most
    requires 0.0 <= F as real * exact - load as real <= 60.0 * (most + 1) as real
    ensures 0.0 <= F as real * (59.0 / 60.0 * exact + ready as real / 60.0) - LoadAvgAfter(load, ready) as real
                <= 60.0 * (most + 1) as real
  {
    TruncDivBounds(16110 * load, F);
    var a := TruncDiv(16110 * load, F);
    assert 16384.0 * a as real <= 16110.0 * load as real < 16384.0 * a as real + 16384.0;
    assert LoadAvgAfter(load, ready) as real == a as real + 273.0 * ready as real;
  }

  /** With a constant ready count the average climbs and never falls back. */
  lemma LoadAvgClimbs(ready: nat, n: nat)
    ensures LoadRun(0, Repeat(ready, n)) <= LoadRun(0, Repeat(ready, n + 1))
    decreases n
  {
    assert Repeat(ready, n + 1)[..n] == Repeat(ready, n);
    if n == 0 {
      LoadAvgStepBound(0, ready, ready);
    } else {
      LoadAvgClimbs(ready, n - 1);
      assert Repeat(ready, n)[..n - 1] == Repeat(ready, n - 1);
      TruncDivMonotone(16110 * LoadRun(0, Repeat(ready, n - 1)), 16110 * LoadRun(0, Repeat(ready, n)), F);
    }
  }

  function Repeat(r: nat, n: nat): (s: seq<nat>)
    ensures |s| == n && forall i :: 0 <= i < n ==> s[i] == r
  {
    seq(n, _ => r)
  }

  /** With nothing ready a positive average falls at every update, so it is zero for
      good after at most `load` of them. */
  lemma {:induction false} LoadAvgDrains(load: nat, n: nat)
    ensures 0 <= LoadRun(load, Repeat(0, n))
    ensures LoadRun(load, Repeat(0, n)) > 0 ==> LoadRun(load, Repeat(0, n + 1)) < LoadRun(load, Repeat(0, n))
    ensures LoadRun(load, Repeat(0, n)) <= if n <= load then load - n else 0
    decreases n
  {
    assert Repeat(0, n + 1)[..n] == Repeat(0, n);
    if n > 0 {
      LoadAvgDrains(load, n - 1);
      assert Repeat(0, n)[..n - 1] == Repeat(0, n - 1);
      TruncDivBounds(16110 * LoadRun(load, Repeat(0, n - 1)), F);
    }
    TruncDivBounds(16110 * LoadRun(load, Repeat(0, n)), F);
  }

  // ----- recent_cpu -----

  lemma DecayCoefficientBelowOne(load: int)
    requires load >= 0
    ensures 0 <= DecayCoefficient(load) < F
    ensures DecayCoefficient(load) * F <= 2 * load * (F - DecayCoefficient(load))
  {
    var two, d := 2 * load, 2 * load + F;
    TruncDivBounds(two * F, d);
    var c := DecayCoefficient(load);
    assert c * d == 2 * (c * load) + c * F;
    assert 2 * load * (F - c) == 2 * load * F - 2 * (c * load);
    Cancel(c, F, d);
  }

  lemma Cancel(x: int, y: int, d: int)
    requires d > 0 && x * d < y * d
    ensures x < y
  {
    assert x >= y ==> x * d >= y * d;
  }

  const CPU_SLACK := 20

  function CpuCeiling(most: nat): int { (240 * most + CPU_SLACK) * F }

  function CpuFloor(most: nat): int { -CPU_SLACK * (2 * most + 1) * F }

  /** One per-second decay brings recent_cpu, which may have gained 100 ticks since the
      last one, back below the ceiling, and keeps it above the floor. */
  lemma DecayKeepsCpuBounded(load: int, cpu: int, nice: int, most: nat)
    requires 0 <= load <= 16383 * most && NICE_MIN <= nice <= NICE_MAX
    requires CpuFloor(most) <= cpu <= CpuCeiling(most) + TIMER_FREQ * F
    ensures CpuFloor(most) <= RecentCpuAfter(load, cpu, nice) <= CpuCeiling(most)
  {
    var c := DecayCoefficient(load);
    DecayCoefficientBelowOne(load);
    CoefficientRatio(load, c, most);
    var w := 2 * most + 1;
    ScaledBetween(c, cpu, -20 * w * F, 120 * w * F);
    assert c * (-20 * w * F) == -20 * F * (c * w);
    assert c * (120 * w * F) == 120 * F * (c * w);
    TruncDivMonotone(-40 * most * F * F, c * cpu, F);
    TruncDivMonotone(c * cpu, 240 * most * F * F, F);
    TruncDivBounds(-40 * most * F * F, F);
    TruncDivBounds(240 * most * F * F, F);
  }

  lemma ScaledBetween(c: nat, x: int, lo: int, hi: int)
    requires lo <= x <= hi
    ensures c * lo <= c * x <= c * hi
  {}

  lemma CoefficientRatio(load: int, c: int, most: nat)
    requires 0 <= load <= 16383 * most && 0 <= c < F
    requires c * F <= 2 * load * (F - c)
    ensures c * (2 * most + 1) <= 2 * most * F
  {
    assert 2 * load * (F - c) <= 2 * (most * F) * (F - c);
    assert 2 * (most * F) * (F - c) == (2 * most * (F - c)) * F;
    assert c * (2 * most + 1) == 2 * most * c + c;
    assert 2 * most * (F - c) == 2 * most * F - 2 * most * c;
  }

  // ----- machine widths -----

  function RecentCpuAfter32(load: int, cpu: int, nice: int): Option<int> {
    var twoLoad :- Mul32(load, 2);
    var denom :- FpAddInt32(twoLoad, 1);
    var coef :- FpDiv32(twoLoad, denom);
    var scaled :- FpMul32(coef, cpu);
    FpAddInt32(scaled, nice)
  }

  function PriorityFor32(cpu: int, nice: int): Option<int> {
    var middle := FpToInt(FpDivInt(cpu, 4));
    var twice :- Mul32(nice, 2);
    var part :- Narrow(PRI_MAX - middle);
    var raw :- Narrow(part - twice);
    Some(if raw > PRI_MAX then PRI_MAX else if raw < PRI_MIN then PRI_MIN else raw)
  }

  function LoadAvgAfter32(load: int, ready: int): Option<int> {
    var nearOne :- Mul32(59, F);
    var one :- Mul32(1, F);
    var a :- FpMul32(FpDivInt(nearOne, 60), load);
    var b :- Mul32(FpDivInt(one, 60), ready);
    Add32(a, b)
  }

  const MOST_WITHOUT_OVERFLOW: nat := 545

  /** With at most 545 threads competing, C's 32- and 64-bit intermediates all fit, so
      the machine computes exactly the unbounded functions. */
  lemma NoOverflow(load: int, cpu: int, nice: int, ready: nat, most: nat)
    requires ready <= most <= MOST_WITHOUT_OVERFLOW
    requires 0 <= load <= 16383 * most && NICE_MIN <= nice <= NICE_MAX
    requires CpuFloor(most) <= cpu <= CpuCeiling(most) + TIMER_FREQ * F
    ensures Int32(cpu)
    ensures cpu <= CpuCeiling(most) + (TIMER_FREQ - 1) * F ==> FpAddInt32(cpu, 1) == Some(FpAddInt(cpu, 1))
    ensures RecentCpuAfter32(load, cpu, nice) == Some(RecentCpuAfter(load, cpu, nice))
    ensures PriorityFor32(cpu, nice) == Some(PriorityFor(cpu, nice))
    ensures LoadAvgAfter32(load, ready) == Some(LoadAvgAfter(load, ready))
    ensures Mul32(load, 100) == Some(FpMulInt(load, 100))
  {
    assert Int32(cpu);
    NoOverflowInDecay(load, cpu, nice, most);
    TruncDivBounds(cpu, 4);
    TruncDivBounds(FpDivInt(cpu, 4), F);
    TruncDivBounds(16110 * load, F);
  }

  lemma NoOverflowInDecay(load: int, cpu: int, nice: int, most: nat)
    requires most <= MOST_WITHOUT_OVERFLOW
    requires 0 <= load <= 16383 * most && NICE_MIN <= nice <= NICE_MAX
    requires CpuFloor(most) <= cpu <= CpuCeiling(most) + TIMER_FREQ * F
    ensures RecentCpuAfter32(load, cpu, nice) == Some(RecentCpuAfter(load, cpu, nice))
  {
    var c := DecayCoefficient(load);
    DecayCoefficientBelowOne(load);
    DecayKeepsCpuBounded(load, cpu, nice, most);
    assert Int32(cpu);
    ScaledBetween(c, cpu, -0x8000_0000, 0x8000_0000);
    assert c * 0x8000_0000 <= 0x4000 * 0x8000_0000;
    assert Int64(c * cpu);
    TruncDivBounds(c * cpu, F);
  }

  /** 545 is the last count for which the bounds exclude overflow: beyond it the ceiling
      itself leaves C's int, and a recent_cpu that the bounds allow overflows at the next
      tick. */
  lemma OverflowBeyond545(most: nat)
    requires most > MOST_WITHOUT_OVERFLOW
    ensures !Int32(CpuCeiling(most) + TIMER_FREQ * F)
    ensures exists cpu :: && CpuFloor(most) <= cpu <= CpuCeiling(most) + (TIMER_FREQ - 1) * F
                          && Int32(cpu) && FpAddInt32(cpu, 1) == None
  {
    var cpu := 0x7FFF_FFFF;
    assert FpAddInt32(cpu, 1) == None;
    assert CpuFloor(most) <= cpu <= CpuCeiling(most) + (TIMER_FREQ - 1) * F;
  }

  // ----- dominance -----

  /** recent_cpu after a run of per-second decays with the given load averages. */
  function DecayRun(loads: seq<nat>, cpu: int, nice: int): int
    decreases |loads|
  {
    if loads == [] then cpu
    else RecentCpuAfter(loads[|loads| - 1], DecayRun(loads[..|loads| - 1], cpu, nice), nice)
  }

  /** A thread that has used no more CPU and is no nicer than another keeps both leads
      through every shared decay, and is never given the lower priority. */
  lemma {:induction false} DominanceIsKept(loads: seq<nat>, cpuA: int, niceA: int, cpuB: int, niceB: int)
    requires cpuA <= cpuB && niceA <= niceB
    ensures DecayRun(loads, cpuA, niceA) <= DecayRun(loads, cpuB, niceB)
    ensures PriorityFor(DecayRun(loads, cpuA, niceA), niceA) >= PriorityFor(DecayRun(loads, cpuB, niceB), niceB)
    decreases |loads|
  {
    if loads != [] {
      var before, load := loads[..|loads| - 1], loads[|loads| - 1];
      DominanceIsKept(before, cpuA, niceA, cpuB, niceB);
      DecayCoefficientBelowOne(load);
      var c, a, b := DecayCoefficient(load), DecayRun(before, cpuA, niceA), DecayRun(before, cpuB, niceB);
      ScaledBetween(c, a, a, b);
      TruncDivMonotone(c * a, c * b, F);
    }
    PriorityIsAntitone(DecayRun(loads, cpuA, niceA), niceA, DecayRun(loads, cpuB, niceB), niceB);
  }

  lemma PriorityIsAntitone(cpuA: int, niceA: int, cpuB: int, niceB: int)
    requires cpuA <= cpuB && niceA <= niceB
    ensures PriorityFor(cpuA, niceA) >= PriorityFor(cpuB, niceB)
  {
    TruncDivMonotone(cpuA, cpuB, 4);
    TruncDivMonotone(FpDivInt(cpuA, 4), FpDivInt(cpuB, 4), F);
  }
}
