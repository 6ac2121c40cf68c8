/** What the transfer promises about whole runs: any number of channels and files, any file
    and block sizes, any interleaving, with or without failing sockets. */
module TransferTheorems {
  import opened Basics
  import opened TransferModel
  import opened TransferInvariant
  import Tuner
  import L = Ledger

  // ----- claims -----

  /** The blocks claimed from a file are non-empty, pairwise disjoint, and cover exactly what
      the shared offset handed out; once every channel has left the file, that is the whole
      file. An empty file yields no block. */
  lemma Partition(cfg: Config, labels: seq<Label>, f: nat)
    requires cfg.Valid() && Exec(cfg, labels).Some? && f < |cfg.files|
    ensures var s := Exec(cfg, labels).value;
            var blocks := s.claims[f];
            var end := Min(s.offset[f], |cfg.files[f]|);
            && (forall i | 0 <= i < |blocks| :: blocks[i].file == f && blocks[i].size > 0)
            && (forall i, j | 0 <= i < |blocks| && 0 <= j < |blocks| :: i != j ==> L.Apart(blocks[i], blocks[j]))
            && (forall p: nat :: L.InSome(blocks, f, p) <==> p < end)
            && ((forall c | 0 <= c < |s.chans| :: s.chans[c].src.file > f) ==> end == |cfg.files[f]|)
            && (|cfg.files[f]| == 0 ==> blocks == [])
  {
    ReachableInv(cfg, labels);
    var s := Exec(cfg, labels).value;
    L.TilesPartition(s.claims[f], f, Min(s.offset[f], |cfg.files[f]|));
    assert s.chans[0].src.file > f ==> s.offset[f] >= |cfg.files[f]|;
    if s.claims[f] != [] {
      assert L.Covers(s.claims[f][0], f, s.claims[f][0].off);
      assert L.InSome(s.claims[f], f, s.claims[f][0].off);
    }
  }

  /** With N channels no offset passes file_size + (N + 1) * 1 GiB, which fits 64 bits. */
  lemma OffsetBound(cfg: Config, labels: seq<Label>, f: nat)
    requires cfg.Valid() && Exec(cfg, labels).Some? && f < |cfg.files|
    ensures var s := Exec(cfg, labels).value;
            |s.offset| == |cfg.files| &&
            s.offset[f] <= |cfg.files[f]| + (cfg.channels + 1) * Tuner.MAX_BLOCK < TWO64
  {
    ReachableInv(cfg, labels);
    var s := Exec(cfg, labels).value;
    SumFlags(PassedFlags(s, f));
  }

  /** So no claim of any run wraps, and the uint32_t size of the last block is exact: a claim
      takes the next `blockSize` bytes, or what is left of the file, or nothing. */
  lemma NoWrap(cfg: Config, labels: seq<Label>, c: nat)
    requires cfg.Valid() && Exec(cfg, labels).Some?
    requires Enabled(cfg, Exec(cfg, labels).value, SrcClaim(c))
    ensures ExactClaim(cfg, Exec(cfg, labels).value, c)
  {
    ReachableInv(cfg, labels);
    var s := Exec(cfg, labels).value;
    assert ChanInv(cfg, s.chans[c]);
    ClaimExact(cfg, s, c);
  }

  /** The head room is needed: for any file and offset, the branch on `curr + block` sends the
      right number of bytes if and only if that sum does not wrap. A wrapped sum looks like a
      block in the middle of the file and would be sent whole, past the end. */
  lemma ClaimExactIff(fileSize: nat, curr: nat, block: nat)
    requires curr < fileSize < TWO64 && 0 < block <= Tuner.MAX_BLOCK
    ensures ClaimSize(fileSize, curr, block) == Min(block, fileSize - curr) <==> curr + block < TWO64
  { }

  // ----- writes -----

  predicate WritesAt(cfg: Config, s: State, l: Label, f: nat, p: nat) {
    && l.DstByte? && Enabled(cfg, s, l)
    && s.chans[l.c].dst.b.file == f && s.chans[l.c].dst.b.off + s.chans[l.c].dst.got == p
  }

  /** How often a run stored a received byte at position p of file f. */
  function WriteCount(cfg: Config, labels: seq<Label>, f: nat, p: nat): nat
    requires cfg.Valid()
    decreases |labels|
  {
    if labels == [] then 0
    else
      var n := |labels| - 1;
      WriteCount(cfg, labels[..n], f, p) +
      if Exec(cfg, labels[..n]).Some? && WritesAt(cfg, Exec(cfg, labels[..n]).value, labels[n], f, p)
      then 1 else 0
  }

  /** The next position of a channel was not counted, and no other channel has it in hands. */
  lemma NextIsUnclaimed(cfg: Config, s: State, c: nat)
    requires Shape(cfg, s) && ChansInv(cfg, s) && L.Inv(LedgerOf(cfg, s)) && c < |s.chans|
    requires s.chans[c].dst.RecvBody? && s.chans[c].dst.b.file < |cfg.files|
    ensures var b := s.chans[c].dst.b;
            var p := b.off + s.chans[c].dst.got;
            p !in s.counted[b.file] && !SomePart(s, b.file, p)
  {
    assert ChanInv(cfg, s.chans[c]);
    var l := LedgerOf(cfg, s);
    var b := s.chans[c].dst.b;
    var p := b.off + s.chans[c].dst.got;
    assert l.pend[c][0] == b;
    assert L.Covers(l.pend[c][0], l.pend[c][0].file, p);
    forall d | 0 <= d < |s.chans| ensures !InPart(s.chans[d].dst, b.file, p) {
      assert ChanInv(cfg, s.chans[d]);
      if PartOf(s.chans[d].dst).Part? {
        assert l.pend[d][0] == s.chans[d].pend[0];
        assert d != c ==> L.Apart(l.pend[c][0], l.pend[d][0]);
      }
    }
  }

  /** So it was never written before. */
  lemma WriteIsFresh(cfg: Config, s: State, c: nat)
    requires cfg.Valid() && Shape(cfg, s) && ChansInv(cfg, s) && L.Inv(LedgerOf(cfg, s)) && DataInv(cfg, s)
    requires c < |s.chans| && s.chans[c].dst.RecvBody? && s.chans[c].dst.b.file < |cfg.files|
    ensures var b := s.chans[c].dst.b;
            b.off + s.chans[c].dst.got !in s.written[b.file]
  {
    NextIsUnclaimed(cfg, s, c);
  }

  lemma ByteHits(cfg: Config, s: State, c: nat)
    requires Inv(cfg, s) && Enabled(cfg, s, DstByte(c))
    ensures WriteHits(cfg, s, c) && s.chans[c].dst.b == s.chans[c].pend[0]
    ensures var b := s.chans[c].dst.b; b.off + s.chans[c].dst.got !in s.written[b.file]
  {
    assert ChanInv(cfg, s.chans[c]);
    OldestIsMapped(cfg, s, c);
    WriteIsFresh(cfg, s, c);
  }

  lemma WrittenByByte(cfg: Config, s: State, c: nat, f: nat, p: nat)
    requires Enabled(cfg, s, DstByte(c)) && WriteHits(cfg, s, c) && f < |cfg.files|
    ensures f < |ApplyDstByte(cfg, s, c).written|
    ensures p in ApplyDstByte(cfg, s, c).written[f] <==> p in s.written[f] || WritesAt(cfg, s, DstByte(c), f, p)
  {
    ByteEffect(cfg, s, c);
  }

  lemma OthersWriteNothing(cfg: Config, s: State, l: Label)
    requires Enabled(cfg, s, l) && !l.DstByte?
    ensures Apply(cfg, s, l).written == s.written
  { }

  lemma WrittenStep(cfg: Config, s: State, l: Label, f: nat, p: nat)
    requires Inv(cfg, s) && Enabled(cfg, s, l) && f < |cfg.files|
    ensures f < |Apply(cfg, s, l).written|
    ensures p in Apply(cfg, s, l).written[f] <==> p in s.written[f] || WritesAt(cfg, s, l, f, p)
    ensures WritesAt(cfg, s, l, f, p) ==> p !in s.written[f]
  {
    if l.DstByte? {
      ByteHits(cfg, s, l.c);
      WrittenByByte(cfg, s, l.c, f, p);
    } else {
      OthersWriteNothing(cfg, s, l);
    }
  }

  lemma {:induction false} WriteCountIsWritten(cfg: Config, labels: seq<Label>, f: nat, p: nat)
    requires cfg.Valid() && Exec(cfg, labels).Some? && f < |cfg.files|
    ensures |Exec(cfg, labels).value.written| == |cfg.files|
    ensures WriteCount(cfg, labels, f, p) == if p in Exec(cfg, labels).value.written[f] then 1 else 0
    decreases |labels|
  {
    if labels != [] {
      var n := |labels| - 1;
      ReachableInv(cfg, labels[..n]);
      ReachableInv(cfg, labels);
      WriteCountIsWritten(cfg, labels[..n], f, p);
      WrittenStep(cfg, Exec(cfg, labels[..n]).value, labels[n], f, p);
    }
  }

  /** In every run, failing ones included, no destination byte is stored twice, and at every
      moment it is either untouched or the source's byte at the same file and offset. */
  lemma WriteOnce(cfg: Config, labels: seq<Label>, f: nat, p: nat)
    requires cfg.Valid() && Exec(cfg, labels).Some? && f < |cfg.files| && p < |cfg.files[f]|
    ensures WriteCount(cfg, labels, f, p) <= 1
    ensures var s := Exec(cfg, labels).value;
            && |s.dst| == |cfg.files| && |s.dst[f]| == |cfg.files[f]|
            && s.dst[f][p] == if WriteCount(cfg, labels, f, p) == 1 then cfg.files[f][p] else cfg.initial[f][p]
  {
    ReachableInv(cfg, labels);
    WriteCountIsWritten(cfg, labels, f, p);
  }

  // ----- counting and mappings -----

  predicate CountsFor(cfg: Config, s: State, l: Label, f: nat) {
    l.DstCount? && Enabled(cfg, s, l) && s.chans[l.c].dst.b.file == f
  }

  predicate Completes(cfg: Config, s: State, l: Label, f: nat) {
    && CountsFor(cfg, s, l, f) && f < |cfg.files|
    && U64(s.received[f] + s.chans[l.c].dst.b.size) == |cfg.files[f]|
  }

  predicate Unmaps(cfg: Config, s: State, l: Label, f: nat) {
    l.DstRelease? && Enabled(cfg, s, l) && s.chans[l.c].dst.file == f
  }

  /** Totals of a run for one file: bytes in counted blocks, the channels that saw the file
      complete, and those that unmapped it. */
  datatype Tally = Tally(bytes: nat, completedBy: seq<nat>, unmappedBy: seq<nat>)

  function AddStep(cfg: Config, s: State, l: Label, f: nat, t: Tally): Tally {
    Tally(t.bytes + (if CountsFor(cfg, s, l, f) then s.chans[l.c].dst.b.size else 0),
          t.completedBy + (if Completes(cfg, s, l, f) then [l.c] else []),
          t.unmappedBy + (if Unmaps(cfg, s, l, f) then [l.c] else []))
  }

  function TallyOf(cfg: Config, labels: seq<Label>, f: nat): Tally
    requires cfg.Valid()
    decreases |labels|
  {
    if labels == [] then Tally(0, [], [])
    else
      var n := |labels| - 1;
      var t := TallyOf(cfg, labels[..n], f);
      match Exec(cfg, labels[..n])
      case None => t
      case Some(s) => AddStep(cfg, s, labels[n], f, t)
  }

  /** What the tallies must be, given the shared state of the file. */
  ghost predicate TallyOk(cfg: Config, s: State, f: nat, t: Tally) {
    && Shape(cfg, s) && f < |cfg.files|
    && t.bytes == s.received[f] <= |cfg.files[f]|
    && |t.completedBy| == (if |cfg.files[f]| > 0 && s.received[f] == |cfg.files[f]| then 1 else 0)
    && |t.unmappedBy| == (if |cfg.files[f]| > 0 && !s.mapped[f] then 1 else 0)
    && t.unmappedBy <= t.completedBy
    && forall c: nat :: IsReleasing(s, c, f) ==> t.completedBy == [c]
  }

  /** How one step may move what the tallies are compared with. */
  ghost predicate TallyMove(cfg: Config, s: State, l: Label, f: nat, s': State) {
    && Shape(cfg, s) && Shape(cfg, s') && f < |cfg.files| && Enabled(cfg, s, l)
    && (CountsFor(cfg, s, l, f) ==>
          0 < s.chans[l.c].dst.b.size && s.received[f] + s.chans[l.c].dst.b.size <= |cfg.files[f]| < TWO64)
    && s'.received[f] == s.received[f] + (if CountsFor(cfg, s, l, f) then s.chans[l.c].dst.b.size else 0)
    && s'.mapped[f] == (s.mapped[f] && !Unmaps(cfg, s, l, f))
    && (Unmaps(cfg, s, l, f) ==> s.mapped[f] && |cfg.files[f]| > 0 && IsReleasing(s, l.c, f))
    && forall c: nat :: IsReleasing(s', c, f) ==> IsReleasing(s, c, f) || (Completes(cfg, s, l, f) && l.c == c)
  }

  lemma CountFits(cfg: Config, s: State, c: nat)
    requires Inv(cfg, s) && Enabled(cfg, s, DstCount(c))
    ensures DstInv(s.chans[c]) && OldestFits(cfg, s, c) && 0 < s.chans[c].pend[0].size
  {
    assert ChanInv(cfg, s.chans[c]);
    OldestIsMapped(cfg, s, c);
  }

  lemma CountTally(cfg: Config, s: State, c: nat, f: nat)
    requires cfg.Valid() && Enabled(cfg, s, DstCount(c)) && f < |cfg.files|
    requires DstInv(s.chans[c]) && OldestFits(cfg, s, c) && 0 < s.chans[c].pend[0].size
    ensures TallyMove(cfg, s, DstCount(c), f, ApplyDstCount(cfg, s, c))
  {
    CountEffect(cfg, s, c);
  }

  lemma ReleaseFits(cfg: Config, s: State, c: nat)
    requires Inv(cfg, s) && Enabled(cfg, s, DstRelease(c))
    ensures var f := s.chans[c].dst.file;
            f < |cfg.files| && s.mapped[f] && |cfg.files[f]| > 0
  {
    assert IsReleasing(s, c, s.chans[c].dst.file);
  }

  lemma OtherTally(cfg: Config, s: State, l: Label, f: nat)
    requires Enabled(cfg, s, l) && f < |cfg.files| && !l.DstCount?
    requires l.DstRelease? ==>
               s.chans[l.c].dst.file < |cfg.files| && s.mapped[s.chans[l.c].dst.file] && cfg.Size(s.chans[l.c].dst.file) > 0
    requires Shape(cfg, Apply(cfg, s, l))
    ensures TallyMove(cfg, s, l, f, Apply(cfg, s, l))
  { }

  lemma TallyStep(cfg: Config, s: State, l: Label, f: nat, s': State, t: Tally)
    requires TallyMove(cfg, s, l, f, s') && TallyOk(cfg, s, f, t)
    ensures TallyOk(cfg, s', f, AddStep(cfg, s, l, f, t))
  { }

  lemma TallyStepInv(cfg: Config, s: State, l: Label, f: nat, t: Tally)
    requires Inv(cfg, s) && Enabled(cfg, s, l) && TallyOk(cfg, s, f, t)
    requires Shape(cfg, Apply(cfg, s, l))
    ensures TallyOk(cfg, Apply(cfg, s, l), f, AddStep(cfg, s, l, f, t))
  {
    if l.DstCount? {
      CountFits(cfg, s, l.c);
      CountTally(cfg, s, l.c, f);
    } else {
      if l.DstRelease? { ReleaseFits(cfg, s, l.c); }
      OtherTally(cfg, s, l, f);
    }
    TallyStep(cfg, s, l, f, Apply(cfg, s, l), t);
  }

  lemma {:induction false} TallyHolds(cfg: Config, labels: seq<Label>, f: nat)
    requires cfg.Valid() && Exec(cfg, labels).Some? && f < |cfg.files|
    ensures TallyOk(cfg, Exec(cfg, labels).value, f, TallyOf(cfg, labels, f))
    decreases |labels|
  {
    if labels != [] {
      var n := |labels| - 1;
      var s, l := Exec(cfg, labels[..n]).value, labels[n];
      ReachableInv(cfg, labels[..n]);
      ReachableInv(cfg, labels);
      TallyHolds(cfg, labels[..n], f);
      TallyStepInv(cfg, s, l, f, TallyOf(cfg, labels[..n], f));
    }
  }

  /** The mapping of a file lives exactly as long as it is needed. While a channel fills or
      counts a block, the block's file is mapped and the block lies inside it. `received_size`
      is the sum of the fully written blocks. Exactly one channel sees a non-empty file
      complete, and that same channel unmaps it, exactly once, not before. */
  lemma MappingLifetime(cfg: Config, labels: seq<Label>, f: nat)
    requires cfg.Valid() && Exec(cfg, labels).Some? && f < |cfg.files|
    ensures var s := Exec(cfg, labels).value;
            forall c | 0 <= c < |s.chans| ::
              var part := PartOf(s.chans[c].dst);
              part.Part? ==>
                part.b.file < |cfg.files| && s.mapped[part.b.file] && part.b.off + part.b.size <= |cfg.files[part.b.file]|
    ensures var s := Exec(cfg, labels).value;
            var t := TallyOf(cfg, labels, f);
            && s.received[f] == t.bytes <= |cfg.files[f]|
            && |t.completedBy| <= 1 && (t.unmappedBy == [] || t.unmappedBy == t.completedBy)
            && (|t.completedBy| == 1 <==> 0 < |cfg.files[f]| == s.received[f])
            && (s.mapped[f] <==> 0 < |cfg.files[f]| && t.unmappedBy == [])
  {
    ReachableInv(cfg, labels);
    TallyHolds(cfg, labels, f);
    var s := Exec(cfg, labels).value;
    forall c | 0 <= c < |s.chans| && PartOf(s.chans[c].dst).Part?
      ensures var part := PartOf(s.chans[c].dst);
              part.b.file < |cfg.files| && s.mapped[part.b.file] && part.b.off + part.b.size <= |cfg.files[part.b.file]|
    {
      assert ChanInv(cfg, s.chans[c]);
      OldestIsMapped(cfg, s, c);
    }
  }

  /** None of the destination's asserts can fire, and no body byte misses the mapping. */
  lemma NeverAborts(cfg: Config, labels: seq<Label>)
    requires cfg.Valid() && Exec(cfg, labels).Some?
    ensures !Exec(cfg, labels).value.aborted
  {
    ReachableInv(cfg, labels);
  }

  // ----- the whole transfer -----

  predicate ChannelFailed(dst: Dst) { (dst.Exiting? || dst.Exited?) && !dst.ok }

  ghost predicate SomeFailed(s: State) {
    exists c :: 0 <= c < |s.chans| && ChannelFailed(s.chans[c].dst)
  }

  /** A destination channel has failed only if some step of the run was such a failure. */
  lemma {:induction false} FailureHasCause(cfg: Config, labels: seq<Label>)
    requires cfg.Valid() && Exec(cfg, labels).Some?
    requires forall i :: 0 <= i < |labels| ==> !labels[i].DstFail?
    ensures !SomeFailed(Exec(cfg, labels).value)
    decreases |labels|
  {
    if labels != [] {
      var n := |labels| - 1;
      FailureHasCause(cfg, labels[..n]);
      NoNewFailure(cfg, Exec(cfg, labels[..n]).value, labels[n]);
    }
  }

  lemma NoNewFailure(cfg: Config, s: State, l: Label)
    requires Enabled(cfg, s, l) && !l.DstFail? && !SomeFailed(s)
    ensures !SomeFailed(Apply(cfg, s, l))
  {
    var s' := Apply(cfg, s, l);
    forall c | 0 <= c < |s'.chans| ensures !ChannelFailed(s'.chans[c].dst) {
      assert !ChannelFailed(s.chans[c].dst);
    }
  }

  /** Once the gate has N signals every destination channel is gone, and none of them failed,
      so nothing is left on its way. */
  lemma PassedMeansDrained(cfg: Config, s: State)
    requires Inv(cfg, s) && s.portal != Waiting && !SomeFailed(s)
    ensures forall c :: 0 <= c < |s.chans| ==>
              s.chans[c].dst.Exited? && s.chans[c].pend == [] && s.chans[c].src.pc == SrcDone
  {
    SumFlags(ExitFlags(s));
    forall c | 0 <= c < |s.chans|
      ensures s.chans[c].dst.Exited? && s.chans[c].pend == [] && s.chans[c].src.pc == SrcDone
    {
      assert ExitFlags(s)[c] == 1;
      assert ChanInv(cfg, s.chans[c]);
      assert !ChannelFailed(s.chans[c].dst);
    }
  }

  lemma DrainedFile(cfg: Config, s: State, f: nat)
    requires Inv(cfg, s) && f < |cfg.files|
    requires forall c :: 0 <= c < |s.chans| ==>
               s.chans[c].dst.Exited? && s.chans[c].pend == [] && s.chans[c].src.pc == SrcDone
    ensures s.dst[f] == cfg.files[f] && s.received[f] == |cfg.files[f]| && !s.mapped[f]
  {
    assert ChanInv(cfg, s.chans[0]);
    var l := LedgerOf(cfg, s);
    L.DrainedMeansFull(l, f);
    L.FullMeansAll(l, f);
    assert !SomeReleasing(s, f);
  }

  /** End to end: in every run in which no destination channel failed to receive, by the time
      the destination portal has passed its gate and sent the finished message, every
      destination file equals its source byte for byte and every mapping was released. */
  lemma EndToEnd(cfg: Config, labels: seq<Label>)
    requires cfg.Valid() && Exec(cfg, labels).Some?
    requires forall i :: 0 <= i < |labels| ==> !labels[i].DstFail?
    requires Exec(cfg, labels).value.portal == Finished
    ensures var s := Exec(cfg, labels).value;
            && s.dst == cfg.files
            && forall f :: 0 <= f < |cfg.files| ==> s.received[f] == |cfg.files[f]| && !s.mapped[f]
  {
    ReachableInv(cfg, labels);
    FailureHasCause(cfg, labels);
    var s := Exec(cfg, labels).value;
    PassedMeansDrained(cfg, s);
    forall f: nat | f < |cfg.files|
      ensures s.dst[f] == cfg.files[f] && s.received[f] == |cfg.files[f]| && !s.mapped[f]
    {
      DrainedFile(cfg, s, f);
    }
  }

  // ----- what does not hold when a destination channel fails -----

  /** The first n channels fail at their first receive. */
  function FailedRun(n: nat): seq<Label> {
    if n == 0 then [] else FailedRun(n - 1) + [DstFail(n - 1), DstExit(n - 1)]
  }

  function FailedState(cfg: Config, n: nat): State
    requires cfg.Valid()
  {
    Init(cfg).(
      chans := seq(cfg.channels, c => Chan(InitSrc(cfg), [], if c < n then Exited(false, NoPart) else RecvHead, [])),
      signals := n)
  }

  lemma FailOne(cfg: Config, n: nat)
    requires cfg.Valid() && n < cfg.channels
    ensures Enabled(cfg, FailedState(cfg, n), DstFail(n))
    ensures var s := Apply(cfg, FailedState(cfg, n), DstFail(n));
            Enabled(cfg, s, DstExit(n)) && Apply(cfg, s, DstExit(n)) == FailedState(cfg, n + 1)
  {
    var s := Apply(cfg, FailedState(cfg, n), DstFail(n));
    assert Apply(cfg, s, DstExit(n)).chans == FailedState(cfg, n + 1).chans;
  }

  lemma ExtendRun(cfg: Config, labels: seq<Label>, l: Label)
    requires cfg.Valid() && Exec(cfg, labels).Some? && Enabled(cfg, Exec(cfg, labels).value, l)
    ensures Exec(cfg, labels + [l]) == Some(Apply(cfg, Exec(cfg, labels).value, l))
  {
    assert (labels + [l])[..|labels|] == labels;
  }

  lemma {:induction false} FailedRunLeads(cfg: Config, n: nat)
    requires cfg.Valid() && n <= cfg.channels
    ensures Exec(cfg, FailedRun(n)) == Some(FailedState(cfg, n))
  {
    if n == 0 {
      assert Init(cfg).chans == FailedState(cfg, 0).chans;
    } else {
      FailedRunLeads(cfg, n - 1);
      FailOne(cfg, n - 1);
      ExtendRun(cfg, FailedRun(n - 1), DstFail(n - 1));
      ExtendRun(cfg, FailedRun(n - 1) + [DstFail(n - 1)], DstExit(n - 1));
      FailedRunGrows(n);
    }
  }

  lemma FailedRunGrows(n: nat)
    requires n > 0
    ensures FailedRun(n) == FailedRun(n - 1) + [DstFail(n - 1)] + [DstExit(n - 1)]
  {
    var r := FailedRun(n - 1);
    assert r + [DstFail(n - 1), DstExit(n - 1)] == r + [DstFail(n - 1)] + [DstExit(n - 1)];
  }

  /** The gate is also signalled by channels that failed, and the finished message always
      carries error code 0. When all N channels fail at once, the portal finishes although not
      one byte was written. Module Completion says exactly when files are complete. */
  lemma FinishedDespiteFailure(cfg: Config)
    requires cfg.Valid()
    ensures Exec(cfg, FailedRun(cfg.channels) + [PortalPass]).Some?
    ensures var s := Exec(cfg, FailedRun(cfg.channels) + [PortalPass]).value; s.portal == Finished && s.dst == cfg.initial
  {
    FailedRunLeads(cfg, cfg.channels);
    ExtendRun(cfg, FailedRun(cfg.channels), PortalPass);
  }

  const ONE_BYTE: Config := Config([[7]], [[0]], 1, 1, true, 1)

  lemma FinishedButIncomplete()
    ensures ONE_BYTE.Valid() && Exec(ONE_BYTE, FailedRun(1) + [PortalPass]).Some?
    ensures var s := Exec(ONE_BYTE, FailedRun(1) + [PortalPass]).value; s.portal == Finished && s.dst != ONE_BYTE.files
  {
    FinishedDespiteFailure(ONE_BYTE);
    assert ONE_BYTE.initial[0][0] == 0 && ONE_BYTE.files[0][0] == 7;
  }
}
