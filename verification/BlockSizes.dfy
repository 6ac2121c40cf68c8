/** Block sizes in whole runs of the transfer (src/transfer.cpp:34-118): a size that was asked for
    is kept and shows in every block; otherwise each channel's size is what the tuner makes of the
    times its own sends took, and settles when they tell of a constant bandwidth. */
module BlockSizes {
  import opened Basics
  import opened TransferModel
  import opened TransferInvariant
  import TC = TunerClock
  import TT = TransferTheorems
  import Tuner

  /** The times the sends of channel c took, in order. */
  function Elapsed(labels: seq<Label>, c: nat): seq<int>
    decreases |labels|
  {
    if labels == [] then []
    else
      var l := labels[|labels| - 1];
      Elapsed(labels[..|labels| - 1], c) + if l.SrcTune? && l.c == c then [l.elapsed] else []
  }

  lemma SizeStep(cfg: Config, s: State, l: Label, c: nat)
    requires Enabled(cfg, s, l) && c < |s.chans| && 0 < s.chans[c].src.blockSize <= Tuner.MAX_BLOCK
    ensures var s' := Apply(cfg, s, l);
            && c < |s'.chans|
            && s'.chans[c].src.blockSize
               == if l.SrcTune? && l.c == c && !cfg.fixedSize
                  then Tuner.Adjust(s.chans[c].src.blockSize, l.elapsed as real) else s.chans[c].src.blockSize
  {
    if l.SrcTune? { Tuner.AdjustBounds(s.chans[c].src.blockSize, l.elapsed); }
  }

  /** In every run a channel's size is the one asked for, or what its elapsed times make of the
      first; Tuner.AdjustIsTuned says in whole numbers what one of them makes of it. */
  lemma {:induction false} SizeInRun(cfg: Config, labels: seq<Label>, c: nat)
    requires cfg.Valid() && Exec(cfg, labels).Some? && c < cfg.channels
    ensures var s := Exec(cfg, labels).value;
            && c < |s.chans|
            && s.chans[c].src.blockSize
               == if cfg.fixedSize then cfg.firstBlock else Tuner.After(cfg.firstBlock, Elapsed(labels, c))
    decreases |labels|
  {
    if labels != [] {
      var before, l := labels[..|labels| - 1], labels[|labels| - 1];
      SizeInRun(cfg, before, c);
      Tuner.AfterBounds(cfg.firstBlock, Elapsed(before, c));
      SizeStep(cfg, Exec(cfg, before).value, l, c);
      if l.SrcTune? && l.c == c {
        assert Elapsed(labels, c)[..|Elapsed(before, c)|] == Elapsed(before, c);
      } else {
        assert Elapsed(labels, c) == Elapsed(before, c);
      }
    }
  }

  /** The block a claim takes: as many bytes as the channel's size, or what is left. */
  predicate Takes(cfg: Config, b: Block, f: nat, curr: nat, size: nat)
    requires f < |cfg.files|
  {
    b.file == f && b.off == curr < |cfg.files[f]| && b.size == Min(size, |cfg.files[f]| - curr)
  }

  /** What a claim with this size does. */
  ghost predicate ClaimDone(cfg: Config, s: State, s': State, f: nat, size: nat) {
    && f < |cfg.files| && f < |s.offset| == |s'.offset| && f < |s.claims| == |s'.claims|
    && s'.offset[f] == s.offset[f] + size
    && if s.offset[f] >= |cfg.files[f]| then s'.claims == s.claims
       else |s'.claims[f]| == |s.claims[f]| + 1 && s'.claims == s.claims[f := s'.claims[f]] && s.claims[f] <= s'.claims[f]
            && Takes(cfg, s'.claims[f][|s.claims[f]|], f, s.offset[f], size)
  }

  lemma ClaimDoes(cfg: Config, s: State, c: nat)
    requires Enabled(cfg, s, SrcClaim(c)) && ExactClaim(cfg, s, c)
    ensures ClaimDone(cfg, s, Apply(cfg, s, SrcClaim(c)), s.chans[c].src.file, s.chans[c].src.blockSize)
  { }

  /** So in every run the next claim of a channel takes a block of that size at the offset it
      finds, exactly when that lies inside the file, and moves the offset by that size. */
  lemma ClaimsOfRun(cfg: Config, labels: seq<Label>, c: nat)
    requires cfg.Valid() && Exec(cfg, labels).Some? && Enabled(cfg, Exec(cfg, labels).value, SrcClaim(c))
    ensures var s := Exec(cfg, labels).value;
            var size := if cfg.fixedSize then cfg.firstBlock else Tuner.After(cfg.firstBlock, Elapsed(labels, c));
            ClaimDone(cfg, s, Apply(cfg, s, SrcClaim(c)), s.chans[c].src.file, size)
  {
    SizeInRun(cfg, labels, c);
    TT.NoWrap(cfg, labels, c);
    ClaimDoes(cfg, Exec(cfg, labels).value, c);
  }

  /** With a fixed size every block of every run has it, but for the last of a file. */
  ghost predicate FixedClaims(cfg: Config, s: State) {
    forall f, i {:trigger s.claims[f][i]} :: 0 <= f < |s.claims| && f < |cfg.files| && 0 <= i < |s.claims[f]| ==>
      Takes(cfg, s.claims[f][i], f, s.claims[f][i].off, cfg.firstBlock)
  }

  lemma ClaimsKept(cfg: Config, s: State, l: Label)
    requires Enabled(cfg, s, l) && !l.SrcClaim?
    ensures Apply(cfg, s, l).claims == s.claims
  { }

  /** A fixed size stays, and shows in every block ever claimed. */
  lemma {:induction false} FixedSizes(cfg: Config, labels: seq<Label>)
    requires cfg.Valid() && cfg.fixedSize && Exec(cfg, labels).Some?
    ensures var s := Exec(cfg, labels).value;
            && (forall c :: 0 <= c < |s.chans| ==> s.chans[c].src.blockSize == cfg.firstBlock)
            && |s.chans| == cfg.channels && |s.claims| == |cfg.files| && FixedClaims(cfg, s)
    decreases |labels|
  {
    ReachableInv(cfg, labels);
    var s := Exec(cfg, labels).value;
    forall c | 0 <= c < |s.chans| ensures s.chans[c].src.blockSize == cfg.firstBlock { SizeInRun(cfg, labels, c); }
    if labels != [] {
      var before, l := labels[..|labels| - 1], labels[|labels| - 1];
      FixedSizes(cfg, before);
      if l.SrcClaim? {
        ClaimFixed(cfg, before, l.c);
      } else {
        ClaimsKept(cfg, Exec(cfg, before).value, l);
      }
    }
  }

  lemma ClaimFixed(cfg: Config, labels: seq<Label>, c: nat)
    requires cfg.Valid() && cfg.fixedSize && Exec(cfg, labels).Some?
    requires Enabled(cfg, Exec(cfg, labels).value, SrcClaim(c)) && FixedClaims(cfg, Exec(cfg, labels).value)
    ensures FixedClaims(cfg, Apply(cfg, Exec(cfg, labels).value, SrcClaim(c)))
  {
    ClaimsOfRun(cfg, labels, c);
    var s := Exec(cfg, labels).value;
    var s' := Apply(cfg, s, SrcClaim(c));
    forall g, i | 0 <= g < |s'.claims| && g < |cfg.files| && 0 <= i < |s'.claims[g]|
      ensures Takes(cfg, s'.claims[g][i], g, s'.claims[g][i].off, cfg.firstBlock)
    {
      if i < |s.claims[g]| { assert s'.claims[g][i] == s.claims[g][i]; }
    }
  }

  // ----- a constant bandwidth -----

  /** Every send took what the size it was sent with takes at `rate` bytes per second, in whole
      microseconds. */
  predicate AtRate(first: nat, elapsed: seq<int>, rate: nat)
    requires rate > 0
  {
    forall i :: 0 <= i < |elapsed| ==> elapsed[i] == TC.Clock(rate, Tuner.After(first, elapsed[..i]))
  }

  lemma {:induction false} AfterIsSteps(first: nat, elapsed: seq<int>, rate: nat)
    requires rate > 0 && AtRate(first, elapsed, rate)
    ensures Tuner.After(first, elapsed) == TC.Steps(rate, first, |elapsed|)
    decreases |elapsed|
  {
    if elapsed != [] {
      var before := elapsed[..|elapsed| - 1];
      forall i | 0 <= i < |before| ensures before[i] == TC.Clock(rate, Tuner.After(first, before[..i])) {
        assert before[..i] == elapsed[..i];
      }
      AfterIsSteps(first, before, rate);
    }
  }

  lemma SettledAfter(first: nat, elapsed: seq<int>, rate: nat)
    requires 0 < first <= Tuner.MAX_BLOCK && rate > 0 && AtRate(first, elapsed, rate) && |elapsed| >= 0x4003
    ensures TC.Fixed(rate, Tuner.After(first, elapsed))
  {
    AfterIsSteps(first, elapsed, rate);
    TC.SettledFrom(rate, first, |elapsed|);
  }

  /** A channel whose sends tell of a constant bandwidth has settled after 2^14 + 3 of them, in
      the run itself and whatever the other channels do: at 1 GiB, or at most 5 * (64 KiB - 1)
      and a millionth above what it moves in a second; and there it stays. */
  lemma SettlesInRun(cfg: Config, labels: seq<Label>, c: nat, rate: nat)
    requires cfg.Valid() && !cfg.fixedSize && Exec(cfg, labels).Some? && c < cfg.channels
    requires rate > 0 && AtRate(cfg.firstBlock, Elapsed(labels, c), rate) && |Elapsed(labels, c)| >= 0x4003
    ensures var s := Exec(cfg, labels).value;
            && c < |s.chans|
            && var size := s.chans[c].src.blockSize;
               && Tuner.Tuned(size, TC.Clock(rate, size), size)
               && if rate >= Tuner.MAX_BLOCK then size == Tuner.MAX_BLOCK
                  else rate <= size <= rate + 5 * (Tuner.ALIGN - 1) + rate / 1000000
  {
    SizeInRun(cfg, labels, c);
    SettledAfter(cfg.firstBlock, Elapsed(labels, c), rate);
    var size := Exec(cfg, labels).value.chans[c].src.blockSize;
    Tuner.AdjustIsTuned(size, TC.Clock(rate, size), size);
  }

  /** The same when the clock happens to be exact. */
  predicate ExactlyAtRate(first: nat, elapsed: seq<int>, rate: nat) {
    forall i :: 0 <= i < |elapsed| ==> elapsed[i] * rate == Tuner.After(first, elapsed[..i]) * 1000000
  }

  lemma ExactElapsed(block: nat, elapsed: int, rate: nat)
    requires rate > 0 && elapsed * rate == block * 1000000
    ensures elapsed as real == block as real * 1000000.0 / rate as real
  {
    assert elapsed < 0 ==> elapsed * rate < 0;
    Tuner.MulReal(elapsed, rate);
    assert block as real * 1000000.0 == (block * 1000000) as real;
  }

  lemma {:induction false} IterateNext(rate: nat, block: nat, n: nat)
    requires rate > 0
    ensures Tuner.Iterate(rate, block, n + 1) == Tuner.RateStep(rate, Tuner.Iterate(rate, block, n))
    decreases n
  {
    if n > 0 {
      IterateNext(rate, Tuner.RateStep(rate, block), n - 1);
    } else {
      assert Tuner.Iterate(rate, Tuner.RateStep(rate, block), 0) == Tuner.RateStep(rate, block);
    }
  }

  lemma {:induction false} AfterIsIterate(first: nat, elapsed: seq<int>, rate: nat)
    requires rate > 0 && ExactlyAtRate(first, elapsed, rate)
    ensures Tuner.After(first, elapsed) == Tuner.Iterate(rate, first, |elapsed|)
    decreases |elapsed|
  {
    if elapsed != [] {
      var n := |elapsed| - 1;
      var before := elapsed[..n];
      forall i | 0 <= i < n ensures before[i] * rate == Tuner.After(first, before[..i]) * 1000000 {
        assert before[..i] == elapsed[..i];
      }
      AfterIsIterate(first, before, rate);
      ExactElapsed(Tuner.After(first, before), elapsed[n], rate);
      IterateNext(rate, first, n);
    }
  }

  lemma {:induction false} IterateStays(rate: nat, block: nat, n: nat, m: nat)
    requires rate > 0 && Tuner.RateStep(rate, Tuner.Iterate(rate, block, n)) == Tuner.Iterate(rate, block, n) && n <= m
    ensures Tuner.Iterate(rate, block, m) == Tuner.Iterate(rate, block, n)
    decreases m
  {
    if n < m {
      IterateStays(rate, block, n, m - 1);
      IterateNext(rate, block, m - 1);
    }
  }

  /** Then the range of Tuner.Converges is reached in the run. */
  lemma ConvergesInRun(cfg: Config, labels: seq<Label>, c: nat, rate: nat)
    requires cfg.Valid() && !cfg.fixedSize && Exec(cfg, labels).Some? && c < cfg.channels
    requires rate > 0 && ExactlyAtRate(cfg.firstBlock, Elapsed(labels, c), rate) && |Elapsed(labels, c)| >= 0x4002
    ensures var s := Exec(cfg, labels).value;
            && c < |s.chans|
            && var size := s.chans[c].src.blockSize;
               if rate >= Tuner.MAX_BLOCK then size == Tuner.MAX_BLOCK else rate <= size < rate + 5 * Tuner.ALIGN
  {
    SizeInRun(cfg, labels, c);
    var elapsed := Elapsed(labels, c);
    AfterIsIterate(cfg.firstBlock, elapsed, rate);
    var n := Tuner.Converges(rate, cfg.firstBlock);
    IterateStays(rate, cfg.firstBlock, n, |elapsed|);
  }
}
