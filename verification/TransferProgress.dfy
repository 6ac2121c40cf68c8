/** Every run of the transfer ends, and without failures it cannot end early. */
module TransferProgress {
  import opened Basics
  import opened TransferModel
  import opened TransferInvariant
  import opened TransferTheorems

  // ----- a measure that every step, failing ones included, decreases -----

  /** Work a token in a socket still causes on the receiving side. */
  function TokenWork(t: Token): nat {
    match t
    case Head(_) => 3
    case Data(_) => 1
    case Tail => 2
  }

  function FifoWork(fifo: seq<Token>): nat {
    if fifo == [] then 0 else TokenWork(fifo[0]) + FifoWork(fifo[1..])
  }

  lemma {:induction false} FifoWorkAppend(fifo: seq<Token>, t: Token)
    ensures FifoWork(fifo + [t]) == FifoWork(fifo) + TokenWork(t)
  {
    if fifo != [] {
      assert (fifo + [t])[1..] == fifo[1..] + [t];
      FifoWorkAppend(fifo[1..], t);
    }
  }

  function SrcWork(cfg: Config, src: Src): nat {
    (if src.file < |cfg.files| then 4 * (|cfg.files| - src.file) else 0) +
    match src.pc
    case SendHead(b) => 5 + 2 * b.size
    case SendBody(b, sent) => if sent <= b.size then 1 + 2 * (b.size - sent) else 1
    case Tuning => 1
    case SendTail => 3
    case _ => 0
  }

  function DstWork(dst: Dst): nat {
    match dst
    case RecvHead => 2
    case RecvBody(_, _) => 4
    case Counting(_) => 4
    case Releasing(_) => 3
    case Exiting(_, _) => 1
    case Exited(_, _) => 0
  }

  function ChanWork(cfg: Config, ch: Chan): nat {
    SrcWork(cfg, ch.src) + FifoWork(ch.fifo) + DstWork(ch.dst)
  }

  function ChanWorks(cfg: Config, s: State): seq<nat> {
    seq(|s.chans|, c requires 0 <= c < |s.chans| => ChanWork(cfg, s.chans[c]))
  }

  /** Bytes of file f that nobody has claimed. */
  function Unclaimed(cfg: Config, s: State, f: nat): nat
    requires Shape(cfg, s) && f < |cfg.files|
  {
    if s.offset[f] < |cfg.files[f]| then |cfg.files[f]| - s.offset[f] else 0
  }

  function FileWorks(cfg: Config, s: State): seq<nat>
    requires Shape(cfg, s)
  {
    seq(|cfg.files|, f requires 0 <= f < |cfg.files| => 8 * Unclaimed(cfg, s, f))
  }

  function Work(cfg: Config, s: State): nat
    requires Shape(cfg, s)
  {
    Sum(ChanWorks(cfg, s)) + Sum(FileWorks(cfg, s)) + if s.portal == Waiting then 1 else 0
  }

  lemma ChanWorkUpdate(cfg: Config, s: State, s': State, c: nat)
    requires c < |s.chans| && |s'.chans| == |s.chans| && s'.chans == s.chans[c := s'.chans[c]]
    ensures Sum(ChanWorks(cfg, s')) == Sum(ChanWorks(cfg, s)) - ChanWork(cfg, s.chans[c]) + ChanWork(cfg, s'.chans[c])
  {
    SumUpdate(ChanWorks(cfg, s), c, ChanWork(cfg, s'.chans[c]));
    assert ChanWorks(cfg, s') == ChanWorks(cfg, s)[c := ChanWork(cfg, s'.chans[c])];
  }

  /** One channel moves and loses work; offsets and portal stay. */
  lemma ChannelStepWork(cfg: Config, s: State, s': State, c: nat)
    requires Shape(cfg, s) && Shape(cfg, s') && c < |s.chans|
    requires s'.chans == s.chans[c := s'.chans[c]] && s'.offset == s.offset && s'.portal == s.portal
    requires ChanWork(cfg, s'.chans[c]) < ChanWork(cfg, s.chans[c])
    ensures Work(cfg, s') < Work(cfg, s)
  {
    ChanWorkUpdate(cfg, s, s', c);
    assert FileWorks(cfg, s') == FileWorks(cfg, s);
  }

  lemma LocalWork(cfg: Config, ch: Chan, l: Label)
    requires SrcInv(cfg, ch.src) && ChanEnabled(cfg, ch, l)
    requires l.SrcHead? || l.SrcByte? || l.SrcTune? || l.SrcTail? || l.SrcFail? || l.DstFail?
    ensures ChanWork(cfg, ApplyLocal(cfg, ch, l)) < ChanWork(cfg, ch)
  {
    match l
    case SrcHead(_) => FifoWorkAppend(ch.fifo, Head(ch.src.pc.b));
    case SrcByte(_) => FifoWorkAppend(ch.fifo, Body(cfg, ch.src.pc.b)[ch.src.pc.sent]);
    case SrcTail(_) => FifoWorkAppend(ch.fifo, Tail);
    case _ =>
  }

  lemma LocalStepWork(cfg: Config, s: State, l: Label)
    requires l.SrcHead? || l.SrcByte? || l.SrcTune? || l.SrcTail? || l.SrcFail? || l.DstFail?
    requires Enabled(cfg, s, l) && SrcInv(cfg, s.chans[l.c].src)
    ensures Shape(cfg, Apply(cfg, s, l))
    ensures Work(cfg, Apply(cfg, s, l)) < Work(cfg, s)
  {
    LocalWork(cfg, s.chans[l.c], l);
    ChannelStepWork(cfg, s, Apply(cfg, s, l), l.c);
  }

  /** A claimed byte was worth 8 and costs at most 7; an exhausted claim was worth 4 and at
      most leads to the tail, worth 3. */
  lemma ClaimChanWork(cfg: Config, s: State, c: nat)
    requires Enabled(cfg, s, SrcClaim(c)) && SrcInv(cfg, s.chans[c].src) && ExactClaim(cfg, s, c)
    ensures var s' := ApplyClaim(cfg, s, c);
            var f := s.chans[c].src.file;
            && Shape(cfg, s') && s'.portal == s.portal
            && s'.chans == s.chans[c := s'.chans[c]] && s'.offset == s.offset[f := s'.offset[f]]
            && ChanWork(cfg, s'.chans[c]) + 8 * Unclaimed(cfg, s', f)
               < ChanWork(cfg, s.chans[c]) + 8 * Unclaimed(cfg, s, f)
  { }

  lemma ClaimWork(cfg: Config, s: State, s': State, c: nat, f: nat)
    requires Shape(cfg, s) && Shape(cfg, s') && s'.portal == s.portal && c < |s.chans| && f < |cfg.files|
    requires s'.chans == s.chans[c := s'.chans[c]] && s'.offset == s.offset[f := s'.offset[f]]
    requires ChanWork(cfg, s'.chans[c]) + 8 * Unclaimed(cfg, s', f)
             < ChanWork(cfg, s.chans[c]) + 8 * Unclaimed(cfg, s, f)
    ensures Work(cfg, s') < Work(cfg, s)
  {
    ChanWorkUpdate(cfg, s, s', c);
    SumUpdate(FileWorks(cfg, s), f, 8 * Unclaimed(cfg, s', f));
    assert FileWorks(cfg, s') == FileWorks(cfg, s)[f := 8 * Unclaimed(cfg, s', f)];
  }

  lemma DstHeadWork(cfg: Config, s: State, c: nat)
    requires Enabled(cfg, s, DstHead(c)) && !ApplyDstHead(cfg, s, c).aborted
    ensures Shape(cfg, ApplyDstHead(cfg, s, c)) && Work(cfg, ApplyDstHead(cfg, s, c)) < Work(cfg, s)
  {
    ChannelStepWork(cfg, s, ApplyDstHead(cfg, s, c), c);
  }

  lemma DstByteWork(cfg: Config, s: State, c: nat)
    requires Enabled(cfg, s, DstByte(c)) && !ApplyDstByte(cfg, s, c).aborted
    ensures Shape(cfg, ApplyDstByte(cfg, s, c)) && Work(cfg, ApplyDstByte(cfg, s, c)) < Work(cfg, s)
  {
    ChannelStepWork(cfg, s, ApplyDstByte(cfg, s, c), c);
  }

  lemma DstCountWork(cfg: Config, s: State, c: nat)
    requires Enabled(cfg, s, DstCount(c)) && !ApplyDstCount(cfg, s, c).aborted
    ensures Shape(cfg, ApplyDstCount(cfg, s, c)) && Work(cfg, ApplyDstCount(cfg, s, c)) < Work(cfg, s)
  {
    ChannelStepWork(cfg, s, ApplyDstCount(cfg, s, c), c);
  }

  lemma DstLeaveWork(cfg: Config, s: State, l: Label)
    requires Enabled(cfg, s, l) && (l.DstRelease? || l.DstExit?) && !Apply(cfg, s, l).aborted
    ensures Shape(cfg, Apply(cfg, s, l)) && Work(cfg, Apply(cfg, s, l)) < Work(cfg, s)
  {
    ChannelStepWork(cfg, s, Apply(cfg, s, l), l.c);
  }

  lemma PortalWork(cfg: Config, s: State, l: Label)
    requires Enabled(cfg, s, l) && (l.PortalPass? || l.PortalFail?)
    ensures Shape(cfg, Apply(cfg, s, l)) && Work(cfg, Apply(cfg, s, l)) < Work(cfg, s)
  {
    var s' := Apply(cfg, s, l);
    assert ChanWorks(cfg, s') == ChanWorks(cfg, s);
    assert FileWorks(cfg, s') == FileWorks(cfg, s);
  }

  /** Every step makes the remaining work smaller. */
  lemma StepWork(cfg: Config, s: State, l: Label)
    requires Inv(cfg, s) && Enabled(cfg, s, l) && Inv(cfg, Apply(cfg, s, l))
    ensures Work(cfg, Apply(cfg, s, l)) < Work(cfg, s)
  {
    match l
    case SrcClaim(c) =>
      assert ChanInv(cfg, s.chans[c]);
      ClaimExact(cfg, s, c);
      ClaimChanWork(cfg, s, c);
      ClaimWork(cfg, s, ApplyClaim(cfg, s, c), c, s.chans[c].src.file);
    case DstHead(c) => DstHeadWork(cfg, s, c);
    case DstByte(c) => DstByteWork(cfg, s, c);
    case DstCount(c) => DstCountWork(cfg, s, c);
    case DstRelease(c) => DstLeaveWork(cfg, s, l);
    case DstExit(c) => DstLeaveWork(cfg, s, l);
    case PortalPass => PortalWork(cfg, s, l);
    case PortalFail => PortalWork(cfg, s, l);
    case _ =>
      assert ChanInv(cfg, s.chans[l.c]);
      LocalStepWork(cfg, s, l);
  }

  /** No run, failing or not, is longer than the work there was at the start. */
  lemma {:induction false} RunsEnd(cfg: Config, labels: seq<Label>)
    requires cfg.Valid() && Exec(cfg, labels).Some?
    ensures Shape(cfg, Init(cfg)) && Shape(cfg, Exec(cfg, labels).value)
    ensures |labels| + Work(cfg, Exec(cfg, labels).value) <= Work(cfg, Init(cfg))
    decreases |labels|
  {
    ReachableInv(cfg, labels);
    if labels != [] {
      var n := |labels| - 1;
      RunsEnd(cfg, labels[..n]);
      ReachableInv(cfg, labels[..n]);
      StepWork(cfg, Exec(cfg, labels[..n]).value, labels[n]);
    }
  }

  // ----- no stuck state -----

  predicate SourceFailed(src: Src) { src.pc.SrcFailed? }

  ghost predicate NoFailure(s: State) {
    s.portal != PortalFailed &&
    forall c :: 0 <= c < |s.chans| ==> !SourceFailed(s.chans[c].src) && !ChannelFailed(s.chans[c].dst)
  }

  lemma StillNoFailure(cfg: Config, t: State, l: Label)
    requires Enabled(cfg, t, l) && !Failing(l) && NoFailure(t)
    ensures NoFailure(Apply(cfg, t, l))
  {
    var t' := Apply(cfg, t, l);
    forall c | 0 <= c < |t'.chans| ensures !SourceFailed(t'.chans[c].src) && !ChannelFailed(t'.chans[c].dst) {
      assert !SourceFailed(t.chans[c].src) && !ChannelFailed(t.chans[c].dst);
    }
  }

  lemma {:induction false} FailureFree(cfg: Config, labels: seq<Label>)
    requires cfg.Valid() && Exec(cfg, labels).Some?
    requires forall i :: 0 <= i < |labels| ==> !Failing(labels[i])
    ensures NoFailure(Exec(cfg, labels).value)
    decreases |labels|
  {
    if labels != [] {
      var n := |labels| - 1;
      FailureFree(cfg, labels[..n]);
      StillNoFailure(cfg, Exec(cfg, labels[..n]).value, labels[n]);
    }
  }

  predicate ChanDone(ch: Chan) { ch.src.pc == SrcDone && ch.dst.Exited? }

  /** The next step of a channel that is not done: drain its socket when there is something
      in it, otherwise let its source go on. */
  function NextOf(ch: Chan, c: nat): Label {
    match ch.dst
    case Counting(_) => DstCount(c)
    case Releasing(_) => DstRelease(c)
    case Exiting(_, _) => DstExit(c)
    case _ =>
      if ch.fifo != [] && ch.dst == RecvHead then DstHead(c)
      else if ch.fifo != [] && ch.dst.RecvBody? then DstByte(c)
      else match ch.src.pc
           case Claiming => SrcClaim(c)
           case SendHead(_) => SrcHead(c)
           case SendBody(_, _) => SrcByte(c)
           case Tuning => SrcTune(c, 0)
           case _ => SrcTail(c)
  }

  /** A channel is never stuck: a waiting destination has an empty socket only while its
      source still has something to do. */
  lemma ChannelNotStuck(cfg: Config, ch: Chan, c: nat)
    requires cfg.Valid() && ChanInv(cfg, ch) && !ChanDone(ch)
    requires !SourceFailed(ch.src) && !ChannelFailed(ch.dst)
    ensures ChanEnabled(cfg, ch, NextOf(ch, c)) && !Failing(NextOf(ch, c)) && NextOf(ch, c).c == c
    ensures !NextOf(ch, c).PortalPass?
  {
    if (ch.dst == RecvHead || ch.dst.RecvBody?) && ch.fifo == [] {
      if ch.dst.RecvBody? { BodyStep(cfg, ch.dst.b, ch.dst.got); }
      var due := Expected(cfg, ch.dst) + Tokens(cfg, Queue(ch)) + TailPart(cfg, ch.src);
      assert ch.src.file == |cfg.files| ==> |due| >= 1;
      assert |Unsent(cfg, ch.src)| == |due|;
    }
  }

  /** While the transfer is not finished, some step that is not a failure is enabled. */
  lemma NotStuck(cfg: Config, s: State) returns (l: Label)
    requires Inv(cfg, s) && NoFailure(s) && s.portal != Finished
    ensures Enabled(cfg, s, l) && !Failing(l)
  {
    if c :| 0 <= c < |s.chans| && !ChanDone(s.chans[c]) {
      assert ChanInv(cfg, s.chans[c]);
      ChannelNotStuck(cfg, s.chans[c], c);
      l := NextOf(s.chans[c], c);
    } else {
      forall c | 0 <= c < |s.chans| ensures ExitFlags(s)[c] == 1 {
        assert ChanDone(s.chans[c]);
      }
      SumConstant(ExitFlags(s), 1);
      l := PortalPass;
    }
  }

  /** A failure-free run that cannot be continued by a failure-free step has finished, with
      every file copied. Together with RunsEnd: every failure-free run, however scheduled,
      ends that way. */
  lemma MaximalRunsFinish(cfg: Config, labels: seq<Label>)
    requires cfg.Valid() && Exec(cfg, labels).Some?
    requires forall i :: 0 <= i < |labels| ==> !Failing(labels[i])
    requires forall l :: Enabled(cfg, Exec(cfg, labels).value, l) ==> Failing(l)
    ensures Exec(cfg, labels).value.portal == Finished
    ensures Exec(cfg, labels).value.dst == cfg.files
  {
    ReachableInv(cfg, labels);
    FailureFree(cfg, labels);
    var s := Exec(cfg, labels).value;
    if s.portal != Finished {
      var l := NotStuck(cfg, s);
      assert false;
    }
    EndToEnd(cfg, labels);
  }
}
