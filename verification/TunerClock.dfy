/** The tuner against a clock of whole microseconds (src/transfer.cpp:84-115): on a channel of
    constant bandwidth the measured time is the truncated one, so the size the loop computes is
    not quite that of module Tuner's ideal channel. It settles all the same. */
module TunerClock {
  import opened Basics
  import opened Tuner

  /** duration_cast to microseconds, for `block` bytes at `rate` bytes per second. */
  function Clock(rate: nat, block: nat): nat
    requires rate > 0
  {
    block * 1000000 / rate
  }

  function Step(rate: nat, block: nat): nat
    requires rate > 0
  {
    Adjust(block, Clock(rate, block) as real)
  }

  lemma ClockBounds(rate: nat, block: nat)
    requires rate > 0
    ensures var e := Clock(rate, block); e * rate <= block * 1000000 < (e + 1) * rate
  {
    var n := block * 1000000;
    assert n == n / rate * rate + n % rate;
  }

  lemma MulMono(a: nat, b: nat, e: nat)
    requires a <= b
    ensures a * e <= b * e
  { }

  lemma StepIsTuned(rate: nat, block: nat) returns (raw: nat)
    requires rate > 0
    ensures RawIs(block, Clock(rate, block), raw) && RoundedUp(raw, Step(rate, block))
  {
    AdjustIsTuned(block, Clock(rate, block), Step(rate, block));
    raw :| RawIs(block, Clock(rate, block), raw) && RoundedUp(raw, Step(rate, block));
  }

  // ----- sizes up to the rate -----

  lemma FastRaw(rate: nat, block: nat, e: nat, raw: nat)
    requires 0 < e <= 1000000 && RawIs(block, e, raw) && e * rate <= block * 1000000
    ensures rate <= raw
  {
    assert rate * e < (raw + 1) * e;
    CancelFactor(rate, raw + 1, e);
  }

  /** A send of at most a second that the clock noticed: the next size is at least the rate. */
  lemma NoticedFast(rate: nat, block: nat)
    requires rate > 0 && 0 < Clock(rate, block) <= 1000000
    ensures Step(rate, block) >= Min(rate, MAX_BLOCK)
  {
    var raw := StepIsTuned(rate, block);
    ClockBounds(rate, block);
    FastRaw(rate, block, Clock(rate, block), raw);
  }

  /** At a gigabyte per second or more no send lasts longer than a second. */
  lemma AlwaysFast(rate: nat, block: nat)
    requires MAX_BLOCK <= rate && block <= MAX_BLOCK
    ensures Clock(rate, block) <= 1000000
  {
    ClockBounds(rate, block);
    if Clock(rate, block) > 1000000 {
      MulMono(1000001, Clock(rate, block), rate);
    }
  }

  /** A send that the clock did not notice doubles the size. */
  lemma UnnoticedDoubles(rate: nat, block: nat)
    requires rate > 0 && Clock(rate, block) == 0
    ensures RoundedUp(block + block, Step(rate, block)) && block * 1000000 < rate
  {
    NoTimeDoubles(block, 0);
    ClockBounds(rate, block);
  }

  lemma HighStep(rate: nat, block: nat)
    requires MAX_BLOCK <= rate && 0 < block <= MAX_BLOCK && block % ALIGN == 0
    ensures Step(rate, block) % ALIGN == 0
    ensures block + ALIGN <= Step(rate, block) <= MAX_BLOCK || Step(rate, block) == MAX_BLOCK
  {
    var raw := StepIsTuned(rate, block);
    AlwaysFast(rate, block);
    if Clock(rate, block) == 0 {
      UnnoticedDoubles(rate, block);
      MultiplesApart(ALIGN, block);
    } else {
      NoticedFast(rate, block);
    }
  }

  // ----- sizes above the rate -----

  /** What is left alone: a size within a fifth of a step of the rate, up to the error of the
      clock, a millionth. */
  predicate Near(rate: nat, block: nat) {
    rate <= block <= rate + 5 * (ALIGN - 1) + rate / 1000000
  }

  lemma AboveIsSlow(rate: nat, block: nat)
    requires 0 < rate <= block
    ensures Clock(rate, block) >= 1000000
  {
    ClockBounds(rate, block);
    CancelFactor(1000000, Clock(rate, block) + 1, rate) by {
      assert 1000000 * rate <= block * 1000000;
    }
  }

  lemma ExactSecond(rate: nat, block: nat)
    requires 0 < rate <= block <= MAX_BLOCK && block % ALIGN == 0 && Clock(rate, block) == 1000000
    ensures Step(rate, block) == block && Near(rate, block)
  {
    var raw := StepIsTuned(rate, block);
    ClockBounds(rate, block);
    MultiplesApart(ALIGN, block);
    var next := Step(rate, block);
    assert raw == block;
    if next < MAX_BLOCK { MultiplesApart(block, next); }
    MultiplesApart(next, block);
  }

  /** Above the rate a step never goes up, and never below the rate. */
  lemma SlowBounds(rate: nat, block: nat)
    requires 0 < rate < MAX_BLOCK && rate <= block <= MAX_BLOCK && block % ALIGN == 0 && Clock(rate, block) > 1000000
    ensures rate <= Step(rate, block) <= block && Step(rate, block) % ALIGN == 0
    ensures Step(rate, block) == block ==> Near(rate, block)
  {
    var e, next := Clock(rate, block), Step(rate, block);
    var raw := StepIsTuned(rate, block);
    ClockBounds(rate, block);
    RawBetween(rate, block, e, raw);
    MultiplesApart(next, block);
    if next == block {
      if block > ALIGN {
        SettledNear(rate, block, e, raw);
      }
    }
  }

  lemma RawBetween(rate: nat, block: nat, e: nat, raw: nat)
    requires rate <= block && e > 1000000 && RawIs(block, e, raw) && e * rate <= block * 1000000
    ensures rate <= raw < block || block == 0
  {
    if block > 0 {
      MulMono(rate, block, e);
      assert 5 * ((raw + 1) * e) > 5 * (rate * e);
      CancelFactor(rate, raw + 1, e);
      assert block * 1000000 < block * e;
      assert raw * e < block * e;
      CancelFactor(raw, block, e);
    }
  }

  lemma Distribute(x: int, y: int, k: int, e: int)
    ensures (x - y - k) * e == x * e - y * e - k * e
  { }

  lemma SmallGap(gap: int, e: nat, rate: nat)
    requires gap * e < rate && e > 1000000
    ensures gap <= rate / 1000000
  {
    if gap > 0 {
      MulMono(1000000, e, gap);
      assert gap * 1000000 < rate;
    }
  }

  lemma SettledNear(rate: nat, block: nat, e: nat, raw: nat)
    requires rate <= block && e > 1000000 && RawIs(block, e, raw) && block * 1000000 < (e + 1) * rate
    requires block - ALIGN < raw
    ensures Near(rate, block)
  {
    var low := block - (ALIGN - 1);
    if low >= 0 {
      MulMono(low, raw, e);
    }
    Distribute(block, 0, ALIGN - 1, e);
    assert raw * e >= block * e - (ALIGN - 1) * e by {
      if low < 0 { assert low * e <= 0; }
    }
    Distribute(block, rate, 5 * (ALIGN - 1), e);
    assert (e + 1) * rate == rate * e + rate;
    SmallGap(block - rate - 5 * (ALIGN - 1), e, rate);
  }

  lemma NextMultiple(x: nat, y: nat)
    requires x % ALIGN == 0 && y % ALIGN == 0 && x < y
    ensures x + ALIGN <= y
  {
    var p, q := x / ALIGN, y / ALIGN;
    assert x == p * ALIGN && y == q * ALIGN;
    assert p < q;
  }

  lemma AboveStep(rate: nat, block: nat)
    requires 0 < rate < MAX_BLOCK && rate <= block <= MAX_BLOCK && block % ALIGN == 0
    ensures rate <= Step(rate, block) && Step(rate, block) % ALIGN == 0
    ensures (Step(rate, block) == block && Near(rate, block)) || Step(rate, block) + ALIGN <= block
  {
    AboveIsSlow(rate, block);
    if Clock(rate, block) == 1000000 {
      ExactSecond(rate, block);
    } else {
      SlowBounds(rate, block);
      if Step(rate, block) < block { NextMultiple(Step(rate, block), block); }
    }
  }

  // ----- settling -----

  function Steps(rate: nat, block: nat, n: nat): nat
    requires rate > 0
    decreases n
  {
    if n == 0 then block else Step(rate, Steps(rate, block, n - 1))
  }

  lemma {:induction false} StepsAdd(rate: nat, block: nat, m: nat, n: nat)
    requires rate > 0
    ensures Steps(rate, Steps(rate, block, m), n) == Steps(rate, block, m + n)
    decreases n
  {
    if n > 0 { StepsAdd(rate, block, m, n - 1); }
  }

  /** A size at which the tuner stays, and where it is. */
  predicate Fixed(rate: nat, block: nat)
    requires rate > 0
  {
    Step(rate, block) == block && if rate >= MAX_BLOCK then block == MAX_BLOCK else Near(rate, block)
  }

  lemma {:induction false} FixedStays(rate: nat, block: nat, n: nat)
    requires rate > 0 && Fixed(rate, block)
    ensures Steps(rate, block, n) == block
    decreases n
  {
    if n > 0 { FixedStays(rate, block, n - 1); }
  }

  lemma {:induction false} SettlesAbove(rate: nat, block: nat) returns (n: nat)
    requires 0 < rate < MAX_BLOCK && rate <= block <= MAX_BLOCK && block % ALIGN == 0
    ensures n <= block / ALIGN && Fixed(rate, Steps(rate, block, n))
    decreases block
  {
    AboveStep(rate, block);
    n := 0;
    if Step(rate, block) != block {
      n := SettlesAbove(rate, Step(rate, block));
      StepsAdd(rate, block, 1, n);
      assert Steps(rate, block, 1) == Step(rate, Steps(rate, block, 0));
      FewerMultiples(Step(rate, block), block);
      n := n + 1;
    }
  }

  lemma FewerMultiples(x: nat, y: nat)
    requires x % ALIGN == 0 && y % ALIGN == 0 && x + ALIGN <= y
    ensures x / ALIGN + 1 <= y / ALIGN
  { }

  lemma {:induction false} SettlesHigh(rate: nat, block: nat, k: nat) returns (n: nat)
    requires MAX_BLOCK <= rate && 0 < block <= MAX_BLOCK && block % ALIGN == 0 && block + k * ALIGN >= MAX_BLOCK
    ensures n <= k && Fixed(rate, Steps(rate, block, n))
    decreases k
  {
    HighStep(rate, block);
    n := 0;
    if block < MAX_BLOCK {
      n := SettlesHigh(rate, Step(rate, block), k - 1);
      StepsAdd(rate, block, 1, n);
      assert Steps(rate, block, 1) == Step(rate, Steps(rate, block, 0));
      n := n + 1;
    }
  }

  /** From an aligned size below the rate at most two steps lead above it. */
  lemma ReachesRate(rate: nat, block: nat) returns (n: nat)
    requires 0 < rate < MAX_BLOCK && 0 < block <= MAX_BLOCK && block % ALIGN == 0
    ensures n <= 1 && rate <= Steps(rate, block, n) <= MAX_BLOCK && Steps(rate, block, n) % ALIGN == 0
  {
    n := 0;
    if block < rate {
      n := 1;
      var raw := StepIsTuned(rate, block);
      ClockBounds(rate, block);
      MultiplesApart(ALIGN, block);
      BelowIsFast(rate, block);
      NoticedFast(rate, block);
      assert Steps(rate, block, 1) == Step(rate, Steps(rate, block, 0));
    }
  }

  lemma BelowIsFast(rate: nat, block: nat)
    requires 0 < block < rate < MAX_BLOCK && block >= ALIGN
    ensures 0 < Clock(rate, block) <= 1000000
  {
    ClockBounds(rate, block);
    CancelFactor(Clock(rate, block), 1000000, rate) by { assert block * 1000000 < 1000000 * rate; }
  }

  /** On a channel of constant bandwidth the block size settles, from any start, within
      2^14 + 3 sends, although the clock only counts whole microseconds: at 1 GiB for a rate of
      1 GiB/s or more, otherwise between the rate and 5 * (64 KiB - 1) plus a millionth above it. */
  lemma Settles(rate: nat, start: nat) returns (n: nat)
    requires rate > 0 && 0 < start <= MAX_BLOCK
    ensures n <= 0x4003 && Fixed(rate, Steps(rate, start, n))
  {
    var raw := StepIsTuned(rate, start);
    var next := Step(rate, start);
    assert Steps(rate, start, 1) == Step(rate, Steps(rate, start, 0)) == next;
    assert MAX_BLOCK / ALIGN == 0x4000;
    if rate >= MAX_BLOCK {
      n := SettlesHigh(rate, next, 0x4000);
      StepsAdd(rate, start, 1, n);
      n := n + 1;
    } else {
      var m := ReachesRate(rate, next);
      n := SettlesAbove(rate, Steps(rate, next, m));
      assert Steps(rate, next, m) / ALIGN <= 0x4000;
      StepsAdd(rate, next, m, n);
      StepsAdd(rate, start, 1, m + n);
      n := 1 + (m + n);
    }
  }

  /** And stays there. */
  lemma SettledFrom(rate: nat, start: nat, m: nat)
    requires rate > 0 && 0 < start <= MAX_BLOCK && m >= 0x4003
    ensures Fixed(rate, Steps(rate, start, m))
  {
    var n := Settles(rate, start);
    var size, more := Steps(rate, start, n), m - n;
    FixedStays(rate, size, more);
    StepsAdd(rate, start, n, more);
    assert n + more == m;
  }
}
