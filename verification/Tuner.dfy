/** The bandwidth-driven choice of the next block size (src/transfer.cpp:80-115).
    The source's doubles are exact reals here; its uint64_t arithmetic is shown not to wrap. */
module Tuner {
  import opened Basics

  const MAX_BLOCK: nat := 0x4000_0000
  const ALIGN: nat := 0x1_0000
  const INIT_BLOCK: nat := 0x10_0000

  /** A double cast to uint64_t: truncation of a non-negative value. */
  function Truncate(x: real): (r: nat)
    requires x >= 0.0
    ensures r as real <= x < r as real + 1.0
  {
    x.Floor
  }

  /** The raw next size, before alignment and clamping, when a send of `block`
      bytes took `elapsed` microseconds. */
  function RawSize(block: nat, elapsed: real): nat {
    if elapsed <= 0.0 then
      block * 2
    else if elapsed <= 1000000.0 then
      Truncate(block as real * 1000000.0 / elapsed)
    else
      Truncate(block as real * 0.8 + block as real * 1000000.0 / elapsed * 0.2)
  }

  function AlignUp(size: nat): nat {
    (size + ALIGN - 1) / ALIGN * ALIGN
  }

  function Clamp(size: nat): nat {
    if size > MAX_BLOCK then MAX_BLOCK else if size == 0 then ALIGN else size
  }

  /** The whole adjustment of one channel's block size. */
  function Adjust(block: nat, elapsed: real): nat {
    Clamp(AlignUp(RawSize(block, elapsed)))
  }

  lemma AlignUpMeaning(size: nat)
    ensures AlignUp(size) % ALIGN == 0
    ensures size <= AlignUp(size) < size + ALIGN
  {
    var q := (size + ALIGN - 1) / ALIGN;
    assert AlignUp(size) == q * ALIGN;
    assert (q * ALIGN) % ALIGN == 0;
  }

  /** x/e is monotone in the ways the tuner needs. */
  lemma QuotientBounds(x: real, e: real, lo: real)
    requires x >= 0.0 && e >= lo > 0.0
    ensures 0.0 <= x / e <= x / lo
  {
    assert x / lo - x / e == x * (e - lo) / (lo * e);
  }

  /** Measured in whole microseconds, the raw size stays far below 2^64. */
  lemma RawSizeBounded(block: nat, elapsed: int)
    requires block <= MAX_BLOCK
    ensures RawSize(block, elapsed as real) <= MAX_BLOCK * 1000000
  {
    if elapsed > 0 {
      var x := block as real * 1000000.0;
      QuotientBounds(x, elapsed as real, 1.0);
      assert x / elapsed as real <= x;
      if elapsed > 1000000 {
        QuotientBounds(x, elapsed as real, 1000000.0);
        assert x / 1000000.0 == block as real;
      }
    }
  }

  /** Whatever the clock says, the next size is a multiple of 64 KiB between 64 KiB and
      1 GiB, it fits the uint32_t it is cast to, and no uint64_t in between wraps. */
  lemma AdjustBounds(block: nat, elapsed: int)
    requires 0 < block <= MAX_BLOCK
    ensures ALIGN <= Adjust(block, elapsed as real) <= MAX_BLOCK
    ensures Adjust(block, elapsed as real) % ALIGN == 0
    ensures 65536 <= Adjust(block, elapsed as real) <= 1073741824 && Adjust(block, elapsed as real) % 65536 == 0
    ensures U32(Adjust(block, elapsed as real)) == Adjust(block, elapsed as real)
    ensures block * 1000 * 1000 < TWO64 && block * 2 < TWO64
    ensures RawSize(block, elapsed as real) + ALIGN - 1 < TWO64
  {
    RawSizeBounded(block, elapsed);
    var raw := RawSize(block, elapsed as real);
    AlignUpMeaning(raw);
    assert MAX_BLOCK % ALIGN == 0;
    var a := AlignUp(raw);
    assert a > 0 ==> a >= ALIGN;
  }

  // ----- convergence under a constant bandwidth -----

  /** The next size on a channel that moves exactly `rate` bytes per second. */
  function RateStep(rate: nat, block: nat): nat
    requires rate > 0
  {
    Adjust(block, block as real * 1000000.0 / rate as real)
  }

  function Iterate(rate: nat, block: nat, n: nat): nat
    requires rate > 0
    decreases n
  {
    if n == 0 then block else Iterate(rate, RateStep(rate, block), n - 1)
  }

  lemma Cancel(block: nat, rate: nat)
    requires block > 0 && rate > 0
    ensures var e := block as real * 1000000.0 / rate as real;
            e > 0.0 && block as real * 1000000.0 / e == rate as real
  {
    var x := block as real * 1000000.0;
    var r := rate as real;
    var e := x / r;
    assert e * r == x;
    assert e > 0.0;
    assert x / e == r by {
      assert x / e * e == x;
      assert (x / e - r) * e == 0.0;
    }
  }

  /** A block that took at most a second is replaced by the bandwidth itself. */
  lemma FastStep(rate: nat, block: nat)
    requires rate > 0 && 0 < block <= rate
    ensures RateStep(rate, block) == Clamp(AlignUp(rate))
  {
    Cancel(block, rate);
    var e := block as real * 1000000.0 / rate as real;
    assert e <= 1000000.0 by {
      QuotientBounds(block as real * 1000000.0, rate as real, block as real);
      assert block as real * 1000000.0 / block as real == 1000000.0;
    }
    assert RawSize(block, e) == rate;
  }

  /** A block that took longer than a second moves a fifth of the way towards the bandwidth. */
  lemma SlowRaw(rate: nat, block: nat)
    requires 0 < rate < block
    ensures RawSize(block, block as real * 1000000.0 / rate as real) == (4 * block + rate) / 5
  {
    Cancel(block, rate);
    var e := block as real * 1000000.0 / rate as real;
    assert (e - 1000000.0) * rate as real == (block - rate) as real * 1000000.0;
    assert e > 1000000.0;
    var v := block as real * 0.8 + rate as real * 0.2;
    assert RawSize(block, e) == v.Floor;
    var q := (4 * block + rate) / 5;
    assert 5 * q <= 4 * block + rate < 5 * q + 5;
    assert v * 5.0 == (4 * block + rate) as real;
  }

  /** A size that the slow branch leaves alone. */
  predicate Settled(rate: nat, block: nat) {
    rate <= block && block - rate <= 5 * (ALIGN - 1)
  }

  lemma SlowAligned(rate: nat, block: nat)
    requires 0 < rate < block <= MAX_BLOCK && block % ALIGN == 0
    ensures RateStep(rate, block) == AlignUp((4 * block + rate) / 5) <= block
  {
    SlowRaw(rate, block);
    var raw := (4 * block + rate) / 5;
    AlignUpMeaning(raw);
    MultiplesApart(AlignUp(raw), block);
  }

  lemma SlowShrinks(rate: nat, block: nat, next: nat)
    requires 0 < rate < block <= MAX_BLOCK && block % ALIGN == 0
    requires next == AlignUp((4 * block + rate) / 5) <= block
    ensures next == block <==> Settled(rate, block)
    ensures !Settled(rate, block) ==> rate <= next <= block - ALIGN
    ensures next % ALIGN == 0
  {
    var raw := (4 * block + rate) / 5;
    AlignUpMeaning(raw);
    if Settled(rate, block) {
      assert raw > block - ALIGN;
      MultiplesApart(block, next);
    } else {
      assert raw <= block - ALIGN;
      assert (block - ALIGN) % ALIGN == 0;
      MultiplesApart(next, block - ALIGN);
    }
  }

  /** From an aligned size above the bandwidth, the slow branch either stays put (exactly
      when settled) or loses at least 64 KiB without falling below the bandwidth. */
  lemma SlowStep(rate: nat, block: nat)
    requires 0 < rate < block <= MAX_BLOCK && block % ALIGN == 0
    ensures RateStep(rate, block) == block <==> Settled(rate, block)
    ensures !Settled(rate, block) ==> rate <= RateStep(rate, block) <= block - ALIGN
    ensures RateStep(rate, block) % ALIGN == 0
  {
    SlowAligned(rate, block);
    SlowShrinks(rate, block, RateStep(rate, block));
  }

  /** Two multiples of 64 KiB less than 64 KiB apart are ordered exactly. */
  lemma MultiplesApart(x: nat, y: nat)
    requires x % ALIGN == 0 && y % ALIGN == 0 && x < y + ALIGN
    ensures x <= y
  {
    var p, q := x / ALIGN, y / ALIGN;
    assert x == p * ALIGN && y == q * ALIGN;
    assert (p - q) * ALIGN < ALIGN;
  }

  lemma {:induction false} ConvergeFromAbove(rate: nat, block: nat) returns (n: nat)
    requires 0 < rate < block <= MAX_BLOCK && block % ALIGN == 0
    ensures n <= block / ALIGN
    ensures var b := Iterate(rate, block, n);
            RateStep(rate, b) == b && rate <= b < rate + 5 * ALIGN
    decreases block
  {
    SlowStep(rate, block);
    if Settled(rate, block) {
      n := 0;
    } else {
      var next := RateStep(rate, block);
      assert next > rate by {
        // 5 * 65535 below `block` the slow step still leaves a gap
        SlowRaw(rate, block);
        AlignUpMeaning((4 * block + rate) / 5);
      }
      var m := ConvergeFromAbove(rate, next);
      n := m + 1;
      assert next / ALIGN + 1 <= block / ALIGN by {
        assert next / ALIGN <= (block - ALIGN) / ALIGN == block / ALIGN - 1;
      }
    }
  }

  /** Once aligned, the sizes reach a fixed point within 2^14 + 1 further sends. */
  lemma ConvergeAligned(rate: nat, block: nat) returns (n: nat)
    requires 0 < rate && 0 < block <= MAX_BLOCK && block % ALIGN == 0
    ensures n <= 0x4001
    ensures var b := Iterate(rate, block, n);
            RateStep(rate, b) == b &&
            if rate >= MAX_BLOCK then b == MAX_BLOCK else rate <= b < rate + 5 * ALIGN
  {
    if rate < block {
      n := ConvergeFromAbove(rate, block);
    } else {
      FastStep(rate, block);
      AlignUpMeaning(rate);
      var next := RateStep(rate, block);
      if rate >= MAX_BLOCK {
        assert next == MAX_BLOCK;
        FastStep(rate, MAX_BLOCK);
        n := 1;
        assert Iterate(rate, block, 1) == Iterate(rate, next, 0);
      } else {
        assert MAX_BLOCK % ALIGN == 0;
        MultiplesApart(AlignUp(rate), MAX_BLOCK);
        assert next == AlignUp(rate);
        if next == rate {
          FastStep(rate, next);
          n := 1;
          assert Iterate(rate, block, 1) == Iterate(rate, next, 0);
        } else {
          var m := ConvergeFromAbove(rate, next);
          n := m + 1;
        }
      }
    }
  }

  /** On a channel of constant bandwidth the block size settles, from any start, within
      2^14 + 2 sends: at 1 GiB for a rate of 1 GiB/s or more, and otherwise less than
      5 * 64 KiB above the number of bytes the channel moves in one second. */
  lemma Converges(rate: nat, start: nat) returns (n: nat)
    requires 0 < rate && 0 < start <= MAX_BLOCK
    ensures n <= 0x4002
    ensures var b := Iterate(rate, start, n);
            RateStep(rate, b) == b &&
            if rate >= MAX_BLOCK then b == MAX_BLOCK else rate <= b < rate + 5 * ALIGN
  {
    var next := RateStep(rate, start);
    assert 0 < next <= MAX_BLOCK && next % ALIGN == 0 by {
      AlignUpMeaning(RawSize(start, start as real * 1000000.0 / rate as real));
      assert MAX_BLOCK % ALIGN == 0;
    }
    var m := ConvergeAligned(rate, next);
    n := m + 1;
    assert Iterate(rate, start, n) == Iterate(rate, next, m);
  }

  // ----- the adjustment in whole numbers -----

  /** The size before alignment, told by its bounds: double the block when no time has passed;
      up to a second, the bytes that a second would have carried; beyond, four fifths of the
      block and one fifth of those bytes. */
  predicate RawIs(block: nat, elapsed: int, raw: nat) {
    if elapsed <= 0 then raw == block + block
    else if elapsed <= 1000000 then raw * elapsed <= block * 1000000 < (raw + 1) * elapsed
    else 5 * (raw * elapsed) <= 4 * (block * elapsed) + block * 1000000 < 5 * ((raw + 1) * elapsed)
  }

  /** The least multiple of 64 KiB from 64 KiB on that holds `raw`, or 1 GiB if that is less. */
  predicate RoundedUp(raw: nat, next: nat) {
    && next % ALIGN == 0 && ALIGN <= next <= MAX_BLOCK
    && (next < MAX_BLOCK ==> raw <= next) && (next > ALIGN ==> next - ALIGN < raw)
  }

  ghost predicate Tuned(block: nat, elapsed: int, next: nat) {
    exists raw: nat :: RawIs(block, elapsed, raw) && RoundedUp(raw, next)
  }

  lemma {:induction false} MulReal(a: nat, b: nat)
    ensures (a * b) as real == a as real * b as real
    decreases a
  {
    if a > 0 {
      MulReal(a - 1, b);
      assert a * b == (a - 1) * b + b;
      assert a as real * b as real == (a - 1) as real * b as real + b as real;
    }
  }

  lemma MulLess(x: real, y: real, e: real)
    requires e > 0.0
    ensures x < y ==> x * e < y * e
    ensures x <= y ==> x * e <= y * e
  {
    assert y * e - x * e == (y - x) * e;
  }

  lemma ProductBounds(r: nat, e: nat, q: real, n: nat)
    requires e > 0 && q * e as real == n as real && r as real <= q < r as real + 1.0
    ensures r * e <= n < (r + 1) * e
  {
    MulReal(r, e);
    MulReal(r + 1, e);
    MulLess(r as real, q, e as real);
    MulLess(q, (r + 1) as real, e as real);
  }

  /** x microseconds for a product, taken apart. */
  lemma SlowProduct(block: nat, elapsed: nat, q: real)
    requires elapsed > 0 && q * elapsed as real == block as real * 1000000.0
    ensures (block as real * 0.8 + q * 0.2) * (5 * elapsed) as real == (4 * (block * elapsed) + block * 1000000) as real
  {
    MulReal(block, elapsed);
    var e := elapsed as real;
    assert (5 * elapsed) as real == 5.0 * e;
    assert block as real * 0.8 * (5.0 * e) == 4.0 * (block as real * e);
    assert q * 0.2 * (5.0 * e) == q * e;
  }

  lemma SlowRawIs(block: nat, elapsed: nat)
    requires elapsed > 1000000
    ensures RawIs(block, elapsed, RawSize(block, elapsed as real))
  {
    var raw, q := RawSize(block, elapsed as real), block as real * 1000000.0 / elapsed as real;
    assert q * elapsed as real == block as real * 1000000.0;
    SlowProduct(block, elapsed, q);
    ProductBounds(raw, 5 * elapsed, block as real * 0.8 + q * 0.2, 4 * (block * elapsed) + block * 1000000);
    FiveTimes(raw, elapsed);
    FiveTimes(raw + 1, elapsed);
  }

  lemma FiveTimes(a: nat, e: nat)
    ensures a * (5 * e) == 5 * (a * e)
  { }

  lemma RawSizeIs(block: nat, elapsed: int)
    ensures RawIs(block, elapsed, RawSize(block, elapsed as real))
  {
    if elapsed > 1000000 {
      SlowRawIs(block, elapsed);
    } else if elapsed > 0 {
      var q := block as real * 1000000.0 / elapsed as real;
      assert q * elapsed as real == (block * 1000000) as real;
      ProductBounds(RawSize(block, elapsed as real), elapsed, q, block * 1000000);
    }
  }

  lemma CancelFactor(a: nat, b: nat, e: nat)
    requires a * e < b * e
    ensures a < b
  {
    assert (b - a) * e > 0;
  }

  lemma RawIsUnique(block: nat, elapsed: int, raw: nat, other: nat)
    requires RawIs(block, elapsed, raw) && RawIs(block, elapsed, other)
    ensures raw == other
  {
    if elapsed > 0 {
      CancelFactor(raw, other + 1, elapsed);
      CancelFactor(other, raw + 1, elapsed);
    }
  }

  lemma RoundedUpIs(raw: nat, next: nat)
    ensures RoundedUp(raw, next) <==> next == Clamp(AlignUp(raw))
  {
    AlignUpMeaning(raw);
    var a := AlignUp(raw);
    assert MAX_BLOCK % ALIGN == 0;
    if a > 0 { MultiplesApart(ALIGN, a); }
    if RoundedUp(raw, next) && next != Clamp(a) {
      if next < Clamp(a) { MultiplesApart(a, next); } else { MultiplesApart(next, Clamp(a)); }
    }
  }

  /** The next size is a function of block size and elapsed time, and exactly this one: no
      statement of the computation is repeated here. */
  lemma AdjustIsTuned(block: nat, elapsed: int, next: nat)
    ensures Tuned(block, elapsed, next) <==> next == Adjust(block, elapsed as real)
  {
    var raw := RawSize(block, elapsed as real);
    RawSizeIs(block, elapsed);
    RoundedUpIs(raw, next);
    if Tuned(block, elapsed, next) {
      var other: nat :| RawIs(block, elapsed, other) && RoundedUp(other, next);
      RawIsUnique(block, elapsed, raw, other);
    }
  }

  lemma DoubleAligned(block: nat)
    requires block > 0 && block % ALIGN == 0
    ensures (2 * block) % ALIGN == 0 && 2 * block >= ALIGN
  {
    var q := block / ALIGN;
    assert block == q * ALIGN && 2 * block == (2 * q) * ALIGN;
    assert ((2 * q) * ALIGN) % ALIGN == 0;
  }

  /** When the clock did not advance the size doubles, rounded up, to at most 1 GiB. */
  lemma NoTimeDoubles(block: nat, elapsed: int)
    requires elapsed <= 0
    ensures RoundedUp(block + block, Adjust(block, elapsed as real))
    ensures block > 0 && block % ALIGN == 0 ==> Adjust(block, elapsed as real) == Min(2 * block, MAX_BLOCK)
  {
    AdjustIsTuned(block, elapsed, Adjust(block, elapsed as real));
    if block > 0 && block % ALIGN == 0 {
      DoubleAligned(block);
      assert MAX_BLOCK % ALIGN == 0;
      RoundedUpIs(block + block, Min(2 * block, MAX_BLOCK));
      RoundedUpIs(block + block, Adjust(block, elapsed as real));
    }
  }

  /** The size after a list of sends, from the times they took. */
  function After(first: nat, elapsed: seq<int>): nat
    decreases |elapsed|
  {
    if elapsed == [] then first
    else Adjust(After(first, elapsed[..|elapsed| - 1]), elapsed[|elapsed| - 1] as real)
  }

  lemma {:induction false} AfterBounds(first: nat, elapsed: seq<int>)
    requires 0 < first <= MAX_BLOCK
    ensures 0 < After(first, elapsed) <= MAX_BLOCK
    ensures elapsed != [] ==> After(first, elapsed) % ALIGN == 0
    decreases |elapsed|
  {
    if elapsed != [] {
      AfterBounds(first, elapsed[..|elapsed| - 1]);
      AdjustBounds(After(first, elapsed[..|elapsed| - 1]), elapsed[|elapsed| - 1]);
    }
  }
}
