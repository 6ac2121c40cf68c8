/** What a finished message says about the files when channels have failed
    (src/transfer.cpp:331-356): the exact condition, in every run. */
module Completion {
  import opened Basics
  import opened TransferModel
  import opened TransferInvariant
  import opened TransferTheorems
  import L = Ledger
  import P = TransferProgress

  /** Every channel that failed had all its claimed blocks counted. */
  ghost predicate FailedDrained(s: State) {
    forall c :: 0 <= c < |s.chans| && ChannelFailed(s.chans[c].dst) ==> s.chans[c].pend == []
  }

  /** Every file was claimed to its end. */
  predicate AllClaimed(cfg: Config, s: State)
    requires Shape(cfg, s)
  {
    forall f :: 0 <= f < |cfg.files| ==> s.offset[f] >= |cfg.files[f]|
  }

  predicate AllFull(cfg: Config, s: State)
    requires Shape(cfg, s)
  {
    forall f :: 0 <= f < |cfg.files| ==> s.received[f] == |cfg.files[f]|
  }

  // ----- complete -----

  lemma AllExited(cfg: Config, s: State)
    requires Inv(cfg, s) && s.portal != Waiting
    ensures forall c :: 0 <= c < |s.chans| ==> s.chans[c].dst.Exited?
  {
    SumFlags(ExitFlags(s));
    forall c | 0 <= c < |s.chans| ensures s.chans[c].dst.Exited? {
      assert ExitFlags(s)[c] == 1;
    }
  }

  lemma NothingPending(cfg: Config, s: State)
    requires Inv(cfg, s) && s.portal != Waiting && FailedDrained(s)
    ensures forall c :: 0 <= c < |s.chans| ==> s.chans[c].dst.Exited? && s.chans[c].pend == []
  {
    AllExited(cfg, s);
    forall c | 0 <= c < |s.chans| ensures s.chans[c].pend == [] {
      assert ChanInv(cfg, s.chans[c]);
    }
  }

  lemma CompleteFile(cfg: Config, s: State, f: nat)
    requires Inv(cfg, s) && f < |cfg.files| && s.offset[f] >= |cfg.files[f]|
    requires forall c :: 0 <= c < |s.chans| ==> s.chans[c].dst.Exited? && s.chans[c].pend == []
    ensures s.dst[f] == cfg.files[f] && s.received[f] == |cfg.files[f]| && !s.mapped[f]
  {
    var l := LedgerOf(cfg, s);
    L.DrainedMeansFull(l, f);
    L.FullMeansAll(l, f);
    assert !SomeReleasing(s, f);
  }

  // ----- incomplete -----

  /** A destination that left its loop in the middle of a block did not fill it. */
  ghost predicate PartsOpen(s: State) {
    forall c :: 0 <= c < |s.chans| && !s.chans[c].dst.Counting? && PartOf(s.chans[c].dst).Part? ==>
      PartOf(s.chans[c].dst).got < PartOf(s.chans[c].dst).b.size
  }

  lemma OpenStep(cfg: Config, s: State, l: Label)
    requires Enabled(cfg, s, l) && PartsOpen(s) && !Apply(cfg, s, l).aborted
    ensures PartsOpen(Apply(cfg, s, l))
  { }

  lemma {:induction false} OpenRun(cfg: Config, labels: seq<Label>)
    requires cfg.Valid() && Exec(cfg, labels).Some?
    ensures PartsOpen(Exec(cfg, labels).value)
    decreases |labels|
  {
    if labels != [] {
      var n := |labels| - 1;
      OpenRun(cfg, labels[..n]);
      NeverAborts(cfg, labels);
      OpenStep(cfg, Exec(cfg, labels[..n]).value, labels[n]);
    }
  }

  /** The first byte of a channel's oldest block that it has not filled. */
  function NextByte(ch: Chan): nat
    requires ch.pend != []
  {
    ch.pend[0].off + if PartOf(ch.dst).Part? then PartOf(ch.dst).got else 0
  }

  lemma PendingUnwritten(cfg: Config, s: State, c: nat)
    requires Inv(cfg, s) && PartsOpen(s) && c < |s.chans| && s.chans[c].pend != [] && !s.chans[c].dst.Counting?
    ensures var f, p := s.chans[c].pend[0].file, NextByte(s.chans[c]);
            f < |cfg.files| && p < |cfg.files[f]| && p !in s.written[f]
  {
    assert ChanInv(cfg, s.chans[c]);
    var l := LedgerOf(cfg, s);
    var b := s.chans[c].pend[0];
    var p := NextByte(s.chans[c]);
    assert l.BlockOk(l.pend[c][0]);
    assert L.Covers(l.pend[c][0], l.pend[c][0].file, p);
    forall d | 0 <= d < |s.chans| ensures !InPart(s.chans[d].dst, b.file, p) {
      assert ChanInv(cfg, s.chans[d]);
      if PartOf(s.chans[d].dst).Part? {
        assert l.pend[d][0] == s.chans[d].pend[0];
        assert d != c ==> L.Apart(l.pend[c][0], l.pend[d][0]);
      }
    }
    assert !SomePart(s, b.file, p);
  }

  lemma UnclaimedUnwritten(cfg: Config, s: State, f: nat)
    requires Inv(cfg, s) && f < |cfg.files| && s.offset[f] < |cfg.files[f]|
    ensures s.offset[f] !in s.written[f]
  {
    var l := LedgerOf(cfg, s);
    var p := s.offset[f];
    forall d | 0 <= d < |s.chans| ensures !InPart(s.chans[d].dst, f, p) {
      assert ChanInv(cfg, s.chans[d]);
      if PartOf(s.chans[d].dst).Part? {
        assert l.BlockOk(l.pend[d][0]);
      }
    }
    assert !SomePart(s, f, p);
  }

  /** Position p of file f was never stored by the run, so it holds its initial value. */
  ghost predicate LeftOut(cfg: Config, labels: seq<Label>, f: nat, p: nat)
    requires cfg.Valid()
  {
    f < |cfg.files| && p < |cfg.files[f]| && WriteCount(cfg, labels, f, p) == 0
  }

  /** What the caller sees of it. */
  lemma LeftOutIsInitial(cfg: Config, labels: seq<Label>, f: nat, p: nat)
    requires cfg.Valid() && Exec(cfg, labels).Some? && LeftOut(cfg, labels, f, p)
    ensures var s := Exec(cfg, labels).value;
            && |s.dst| == |s.received| == |cfg.files| && |s.dst[f]| == |cfg.files[f]|
            && s.dst[f][p] == cfg.initial[f][p] && s.received[f] != |cfg.files[f]|
  {
    ReachableInv(cfg, labels);
    WriteOnce(cfg, labels, f, p);
    WriteCountIsWritten(cfg, labels, f, p);
    L.FullMeansAll(LedgerOf(cfg, Exec(cfg, labels).value), f);
  }

  lemma SomethingLeftOut(cfg: Config, labels: seq<Label>)
    requires cfg.Valid() && Exec(cfg, labels).Some? && Exec(cfg, labels).value.portal != Waiting
    requires Shape(cfg, Exec(cfg, labels).value)
    requires !(FailedDrained(Exec(cfg, labels).value) && AllClaimed(cfg, Exec(cfg, labels).value))
    ensures exists f, p :: LeftOut(cfg, labels, f, p)
  {
    ReachableInv(cfg, labels);
    OpenRun(cfg, labels);
    var s := Exec(cfg, labels).value;
    AllExited(cfg, s);
    var f, p;
    if !FailedDrained(s) {
      var c :| 0 <= c < |s.chans| && ChannelFailed(s.chans[c].dst) && s.chans[c].pend != [];
      PendingUnwritten(cfg, s, c);
      f, p := s.chans[c].pend[0].file, NextByte(s.chans[c]);
    } else {
      f :| 0 <= f < |cfg.files| && s.offset[f] < |cfg.files[f]|;
      UnclaimedUnwritten(cfg, s, f);
      p := s.offset[f];
    }
    WriteCountIsWritten(cfg, labels, f, p);
    assert LeftOut(cfg, labels, f, p);
  }

  /** Every file is complete, equals its source and was released. */
  ghost predicate Complete(cfg: Config, s: State)
    requires Shape(cfg, s)
  {
    AllFull(cfg, s) && s.dst == cfg.files && forall f :: 0 <= f < |cfg.files| ==> !s.mapped[f]
  }

  lemma FinishedComplete(cfg: Config, s: State)
    requires Inv(cfg, s) && s.portal != Waiting && FailedDrained(s) && AllClaimed(cfg, s)
    ensures Complete(cfg, s)
  {
    NothingPending(cfg, s);
    forall f: nat | f < |cfg.files| ensures s.dst[f] == cfg.files[f] && s.received[f] == |cfg.files[f]| && !s.mapped[f] {
      CompleteFile(cfg, s, f);
    }
  }

  lemma FinishedIncomplete(cfg: Config, labels: seq<Label>)
    requires cfg.Valid() && Exec(cfg, labels).Some? && Exec(cfg, labels).value.portal != Waiting
    requires Shape(cfg, Exec(cfg, labels).value)
    requires !(FailedDrained(Exec(cfg, labels).value) && AllClaimed(cfg, Exec(cfg, labels).value))
    ensures (exists f, p :: LeftOut(cfg, labels, f, p)) && !AllFull(cfg, Exec(cfg, labels).value)
  {
    SomethingLeftOut(cfg, labels);
    var f, p :| LeftOut(cfg, labels, f, p);
    LeftOutIsInitial(cfg, labels, f, p);
  }

  lemma LeftOutMeansNotFull(cfg: Config, labels: seq<Label>)
    requires cfg.Valid() && Exec(cfg, labels).Some? && Shape(cfg, Exec(cfg, labels).value)
    ensures (exists f, p :: LeftOut(cfg, labels, f, p)) ==> !AllFull(cfg, Exec(cfg, labels).value)
  {
    if f, p :| LeftOut(cfg, labels, f, p) {
      LeftOutIsInitial(cfg, labels, f, p);
    }
  }

  /** In every run in which the portal has finished, failed channels or not: all files are
      complete if and only if every channel that failed had counted all the blocks claimed for
      it and every file was claimed to its end. Otherwise some byte was never stored, and by
      LeftOutIsInitial still holds its initial value. */
  lemma FinishedExactly(cfg: Config, labels: seq<Label>)
    requires cfg.Valid() && Exec(cfg, labels).Some? && Exec(cfg, labels).value.portal == Finished
    ensures Shape(cfg, Exec(cfg, labels).value)
    ensures var s := Exec(cfg, labels).value;
            && (Complete(cfg, s) <==> FailedDrained(s) && AllClaimed(cfg, s))
            && (Complete(cfg, s) <==> AllFull(cfg, s))
            && (Complete(cfg, s) <==> !exists f, p :: LeftOut(cfg, labels, f, p))
  {
    ReachableInv(cfg, labels);
    var s := Exec(cfg, labels).value;
    if FailedDrained(s) && AllClaimed(cfg, s) {
      FinishedComplete(cfg, s);
      LeftOutMeansNotFull(cfg, labels);
    } else {
      FinishedIncomplete(cfg, labels);
    }
  }

  // ----- one failure suffices -----

  /** A run that only channel c has disturbed: the portal waits and no other channel failed. */
  ghost predicate OthersSound(s: State, c: nat) {
    && s.portal == Waiting && c < |s.chans|
    && forall d :: 0 <= d < |s.chans| && d != c ==> !P.SourceFailed(s.chans[d].src) && !ChannelFailed(s.chans[d].dst)
  }

  predicate OnlyFails(labels: seq<Label>, c: nat) {
    forall i :: 0 <= i < |labels| && Failing(labels[i]) ==> labels[i] == DstFail(c)
  }

  lemma SoundStep(cfg: Config, s: State, l: Label, c: nat)
    requires Enabled(cfg, s, l) && OthersSound(s, c) && !l.PortalPass? && !l.PortalFail?
    requires l.c == c || !Failing(l)
    ensures OthersSound(Apply(cfg, s, l), c)
    ensures l.c != c ==> Apply(cfg, s, l).chans[c] == s.chans[c]
  {
    var s' := Apply(cfg, s, l);
    forall d | 0 <= d < |s'.chans| && d != c ensures !P.SourceFailed(s'.chans[d].src) && !ChannelFailed(s'.chans[d].dst) {
      assert !P.SourceFailed(s.chans[d].src) && !ChannelFailed(s.chans[d].dst);
    }
  }

  /** Some channel other than c can go on, or all have exited and the portal can. */
  lemma OthersGoOn(cfg: Config, s: State, c: nat) returns (l: Label)
    requires Inv(cfg, s) && OthersSound(s, c) && s.chans[c].dst.Exited?
    ensures Enabled(cfg, s, l) && !Failing(l) && (l.PortalPass? || l.c != c)
  {
    if d :| 0 <= d < |s.chans| && d != c && !P.ChanDone(s.chans[d]) {
      assert ChanInv(cfg, s.chans[d]);
      P.ChannelNotStuck(cfg, s.chans[d], d);
      l := P.NextOf(s.chans[d], d);
    } else {
      forall d | 0 <= d < |s.chans| ensures ExitFlags(s)[d] == 1 {
        assert d != c ==> P.ChanDone(s.chans[d]);
      }
      SumConstant(ExitFlags(s), 1);
      l := PortalPass;
    }
  }

  /** A run in which channel c is gone and nothing else failed. */
  ghost predicate OneGone(cfg: Config, labels: seq<Label>, c: nat)
    requires cfg.Valid()
  {
    && Exec(cfg, labels).Some? && OnlyFails(labels, c)
    && var s := Exec(cfg, labels).value;
       Inv(cfg, s) && OthersSound(s, c) && s.chans[c].dst.Exited?
  }

  lemma GoOn(cfg: Config, labels: seq<Label>, c: nat, l: Label)
    requires cfg.Valid() && OneGone(cfg, labels, c) && Enabled(cfg, Exec(cfg, labels).value, l)
    requires !Failing(l) && !l.PortalPass? && l.c != c
    ensures OneGone(cfg, labels + [l], c)
    ensures var s, s' := Exec(cfg, labels).value, Exec(cfg, labels + [l]).value;
            s'.chans[c] == s.chans[c] && P.Work(cfg, s') < P.Work(cfg, s)
  {
    ExtendRun(cfg, labels, l);
    StepInv(cfg, Exec(cfg, labels).value, l);
    P.StepWork(cfg, Exec(cfg, labels).value, l);
    SoundStep(cfg, Exec(cfg, labels).value, l, c);
  }

  /** So the run goes on without another failure until the portal has finished. */
  lemma {:induction false} OthersFinish(cfg: Config, labels: seq<Label>, c: nat) returns (longer: seq<Label>)
    requires cfg.Valid() && OneGone(cfg, labels, c)
    ensures Exec(cfg, longer).Some? && Exec(cfg, longer).value.portal == Finished && OnlyFails(longer, c)
    ensures var s' := Exec(cfg, longer).value; c < |s'.chans| && s'.chans[c] == Exec(cfg, labels).value.chans[c]
    decreases P.Work(cfg, Exec(cfg, labels).value)
  {
    var l := OthersGoOn(cfg, Exec(cfg, labels).value, c);
    if l.PortalPass? {
      ExtendRun(cfg, labels, l);
      longer := labels + [l];
    } else {
      GoOn(cfg, labels, c, l);
      longer := OthersFinish(cfg, labels + [l], c);
    }
  }

  /** Only channel c has claimed anything, and it is about to claim from file k. */
  ghost predicate ClaimsFrom(cfg: Config, s: State, c: nat, k: nat) {
    && Shape(cfg, s) && c < |s.chans| && k < |cfg.files| && OthersSound(s, c)
    && s.chans[c] == Chan(Src(k, cfg.firstBlock, Claiming), [], RecvHead, [])
    && forall f :: k <= f < |cfg.files| ==> s.offset[f] == 0
  }

  lemma ClaimNext(cfg: Config, s: State, c: nat, k: nat)
    requires cfg.Valid() && !s.aborted && ClaimsFrom(cfg, s, c, k)
    ensures Enabled(cfg, s, SrcClaim(c))
    ensures |cfg.files[k]| == 0 && k + 1 < |cfg.files| ==> ClaimsFrom(cfg, Apply(cfg, s, SrcClaim(c)), c, k + 1)
    ensures |cfg.files[k]| > 0 ==> var s' := Apply(cfg, s, SrcClaim(c));
              c < |s'.chans| && s'.chans[c].dst == RecvHead && s'.chans[c].pend != []
  {
    SoundStep(cfg, s, SrcClaim(c), c);
  }

  /** Channel c claims until it holds a block. */
  lemma {:induction false} ClaimFirst(cfg: Config, labels: seq<Label>, c: nat, k: nat, f: nat) returns (longer: seq<Label>)
    requires cfg.Valid() && Exec(cfg, labels).Some? && ClaimsFrom(cfg, Exec(cfg, labels).value, c, k) && OnlyFails(labels, c)
    requires k <= f < |cfg.files| && |cfg.files[f]| > 0
    ensures Exec(cfg, longer).Some? && OthersSound(Exec(cfg, longer).value, c) && OnlyFails(longer, c)
    ensures Exec(cfg, longer).value.chans[c].dst == RecvHead && Exec(cfg, longer).value.chans[c].pend != []
    decreases f - k
  {
    NeverAborts(cfg, labels);
    ClaimNext(cfg, Exec(cfg, labels).value, c, k);
    ExtendRun(cfg, labels, SrcClaim(c));
    SoundStep(cfg, Exec(cfg, labels).value, SrcClaim(c), c);
    longer := labels + [SrcClaim(c)];
    if |cfg.files[k]| == 0 {
      longer := ClaimFirst(cfg, longer, c, k + 1, f);
    }
  }

  lemma FailAndExit(cfg: Config, labels: seq<Label>, c: nat) returns (longer: seq<Label>)
    requires cfg.Valid() && Exec(cfg, labels).Some? && OthersSound(Exec(cfg, labels).value, c) && OnlyFails(labels, c)
    requires Exec(cfg, labels).value.chans[c].dst == RecvHead
    ensures Exec(cfg, longer).Some? && OthersSound(Exec(cfg, longer).value, c) && OnlyFails(longer, c)
    ensures var ch, ch' := Exec(cfg, labels).value.chans[c], Exec(cfg, longer).value.chans[c];
            ch'.dst == Exited(false, NoPart) && ch'.pend == ch.pend
  {
    ReachableInv(cfg, labels);
    ExtendRun(cfg, labels, DstFail(c));
    SoundStep(cfg, Exec(cfg, labels).value, DstFail(c), c);
    longer := labels + [DstFail(c)];
    ReachableInv(cfg, longer);
    ExtendRun(cfg, longer, DstExit(c));
    SoundStep(cfg, Exec(cfg, longer).value, DstExit(c), c);
    longer := longer + [DstExit(c)];
  }

  /** For any number of channels, any one of them and any files that are not all empty: one
      failed receive on that channel, and nothing else going wrong, is enough for a run in which
      the portal finishes and some byte was never stored. */
  lemma OneFailureSuffices(cfg: Config, c: nat, f: nat) returns (labels: seq<Label>)
    requires cfg.Valid() && c < cfg.channels && f < |cfg.files| && |cfg.files[f]| > 0
    ensures Exec(cfg, labels).Some? && Exec(cfg, labels).value.portal == Finished && OnlyFails(labels, c)
    ensures exists g, p :: LeftOut(cfg, labels, g, p)
  {
    labels := ClaimFirst(cfg, [], c, 0, f);
    labels := FailAndExit(cfg, labels, c);
    ReachableInv(cfg, labels);
    labels := OthersFinish(cfg, labels, c);
    ReachableInv(cfg, labels);
    assert !FailedDrained(Exec(cfg, labels).value);
    FinishedIncomplete(cfg, labels);
  }
}
