/** timer_calibrate of src/devices/timer.c: successive approximation of the number of busy
    loops that fit into a tick, on 32-bit unsigned numbers.  The measurement itself is a
    threshold: a tick is too short for `loops` iterations iff loops > threshold. */
module Calibrate {
  import opened Options

  const WORD := 0x1_0000_0000

  function Pow2(n: nat): (p: nat)
    ensures p > 0
  {
    if n == 0 then 1 else 2 * Pow2(n - 1)
  }

  /** x << 1 and x >> 1 on 32-bit words. */
  function ShiftLeft(x: nat): nat { (2 * x) % WORD }

  function ShiftRight(x: nat): nat { x / 2 }

  /** x | y, bit by bit. */
  function Or(x: nat, y: nat): nat
    decreases x + y
  {
    if x == 0 && y == 0 then 0
    else (if x % 2 == 1 || y % 2 == 1 then 1 else 0) + 2 * Or(x / 2, y / 2)
  }

  predicate TooManyLoops(loops: nat, threshold: nat) { loops > threshold }

  lemma {:induction false} OrWithZero(x: nat)
    ensures Or(x, 0) == x
  {
    if x > 0 {
      OrWithZero(x / 2);
    }
  }

  /** The k lowest bits of x are 0. */
  predicate Clear(x: nat, k: nat) {
    k == 0 || (x % 2 == 0 && Clear(x / 2, k - 1))
  }

  lemma {:induction false} ClearPower(k: nat)
    ensures Clear(Pow2(k), k)
  {
    if k > 0 {
      assert Pow2(k) == 2 * Pow2(k - 1);
      ClearPower(k - 1);
    }
  }

  lemma {:induction false} ClearFewer(x: nat, k: nat)
    requires Clear(x, k + 1)
    ensures Clear(x, k)
  {
    if k > 0 {
      ClearFewer(x / 2, k - 1);
    }
  }

  /** Setting a bit of a number that has this bit and all lower ones clear adds it. */
  lemma {:induction false} OrIsAddition(x: nat, k: nat)
    requires Clear(x, k + 1)
    ensures Or(x, Pow2(k)) == x + Pow2(k) && Clear(x + Pow2(k), k)
    decreases k
  {
    if k == 0 {
      OrWithZero(x / 2);
    } else {
      OrIsAddition(x / 2, k - 1);
      assert (x + Pow2(k)) / 2 == x / 2 + Pow2(k - 1);
    }
  }

  lemma Pow2Facts(k: nat)
    ensures Pow2(k + 1) == 2 * Pow2(k)
    ensures ShiftRight(Pow2(k + 1)) == Pow2(k)
  {}

  lemma {:induction false} Pow2Grows(j: nat, k: nat)
    requires j <= k
    ensures Pow2(j) <= Pow2(k) && (j < k ==> Pow2(j) < Pow2(k))
    decreases k
  {
    if j < k {
      Pow2Grows(j, k - 1);
    }
  }

  lemma LargePowers()
    ensures Pow2(30) == 0x4000_0000 && Pow2(31) == WORD / 2
  {
    assert Pow2(10) == 1024;
    ShiftByTen(20);
    ShiftByTen(30);
  }

  lemma ShiftByTen(k: nat)
    requires k >= 10
    ensures Pow2(k) == 1024 * Pow2(k - 10) == 512 * Pow2(k - 9)
  {
    assert Pow2(k) == 4 * Pow2(k - 2);
    assert Pow2(k - 2) == 4 * Pow2(k - 4);
    assert Pow2(k - 4) == 4 * Pow2(k - 6);
    assert Pow2(k - 6) == 4 * Pow2(k - 8);
    assert Pow2(k - 8) == 4 * Pow2(k - 10);
  }

  lemma DoubledPower(k: nat)
    requires 10 <= k <= 31
    ensures Pow2(k) < WORD && ShiftLeft(Pow2(k)) == if k == 31 then 0 else Pow2(k + 1)
    ensures k < 31 ==> 2 * Pow2(k) <= WORD / 2
    ensures k == 31 ==> Pow2(k) == WORD / 2
  {
    LargePowers();
    Pow2Grows(k, 31);
    if k < 31 {
      Pow2Grows(k, 30);
    }
  }

  /** The first loop: the largest power of two from 1024 up that is not too many.  None
      stands for the failed assertion loops_per_tick != 0. */
  method DoubleUntilTooMany(threshold: nat) returns (high: Option<nat>, ghost k: nat)
    ensures high == None <==> threshold >= WORD / 2
    ensures high.Some? ==> 10 <= k < 31 && high.value == Pow2(k)
    ensures high.Some? ==> if threshold < 1024 then high.value == 1024 else high.value <= threshold < 2 * high.value
  {
    assert Pow2(10) == 1024;
    var loops := 1024;
    k := 10;
    DoubledPower(k);
    while !TooManyLoops(ShiftLeft(loops), threshold)
      invariant 10 <= k <= 31 && loops == Pow2(k)
      invariant loops == 1024 || loops <= threshold
      decreases 31 - k
    {
      DoubledPower(k);
      Pow2Grows(10, k);
      loops := ShiftLeft(loops);
      if loops == 0 {
        return None, k;
      }
      k := k + 1;
    }
    DoubledPower(k);
    Pow2Grows(10, k);
    high := Some(loops);
  }

  /** loops is the threshold with all but its ten leading bits cleared; high is the
      leading one. */
  ghost predicate TenBitsOf(loops: nat, threshold: nat, high: nat) {
    && high <= loops <= threshold < 2 * high
    && threshold < loops + high / 512
    && exists n: nat :: Pow2(n) == high / 512 && Clear(loops, n)
  }

  /** The second loop: nine more bits, below the high bit. */
  method Refine(threshold: nat, high: nat, ghost k: nat) returns (loops: nat)
    requires 10 <= k < 31 && high == Pow2(k)
    ensures high <= threshold < 2 * high ==> TenBitsOf(loops, threshold, high)
    ensures threshold < high ==> loops == high
  {
    loops := high;
    var last := high / 1024;
    ghost var j := k - 1;
    ShiftByTen(k);
    ClearPower(k);
    var testBit := ShiftRight(high);
    while testBit != last
      invariant k - 10 <= j < k && testBit == Pow2(j) && Clear(loops, j + 1)
      invariant high <= loops && loops + 2 * Pow2(j) <= 2 * high
      invariant high <= threshold < 2 * high ==> loops <= threshold < loops + 2 * Pow2(j)
      invariant threshold < high ==> loops == high
      decreases j
    {
      assert j > k - 10;
      OrIsAddition(loops, j);
      ClearFewer(loops, j);
      if !TooManyLoops(Or(loops, testBit), threshold) {
        loops := Or(loops, testBit);
      }
      testBit := ShiftRight(testBit);
      j := j - 1;
      Pow2Facts(j);
    }
    Pow2Grows(k - 10, j);
  }

  /** timer_calibrate: its assertion holds if and only if the threshold fits into 31 bits;
      then the result keeps the ten leading bits of the threshold, unless a tick is
      shorter than 1024 loops. */
  method TimerCalibrate(threshold: nat) returns (r: Option<nat>, high: nat)
    ensures r == None <==> threshold >= WORD / 2
    ensures r.Some? && threshold >= 1024 ==> TenBitsOf(r.value, threshold, high)
    ensures r.Some? && threshold < 1024 ==> r.value == 1024
  {
    var bit, k := DoubleUntilTooMany(threshold);
    if bit == None {
      return None, 0;
    }
    high := bit.value;
    var loops := Refine(threshold, high, k);
    r := Some(loops);
  }
}
