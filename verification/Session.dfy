/** A whole session without failures: the handshake of module Handshake around the transfer
    of module TransferModel, in either direction. A channel end moves only while its thread
    is inside invoke_channel; the destination's gate is passed by the destination's portal. */
module Session {
  import opened Basics
  import opened Handshake
  import T = TransferModel
  import TI = TransferInvariant
  import TT = TransferTheorems
  import TP = TransferProgress

  datatype SessionConfig = SessionConfig(h: HConfig, t: T.Config)
  {
    predicate Valid() { h.Valid() && t.Valid() && t.channels == h.total }
  }

  datatype Session = Session(h: HState, t: T.State)

  datatype SLabel = Hand(h: HLabel) | Move(t: T.Label)

  function ViewOf(t: T.State): View {
    View(seq(|t.chans|, c requires 0 <= c < |t.chans| => t.chans[c].src.pc == T.SrcDone),
         seq(|t.chans|, c requires 0 <= c < |t.chans| => t.chans[c].dst.Exited?),
         t.portal == T.Finished)
  }

  function SInit(cfg: SessionConfig): Session
    requires cfg.Valid()
  {
    Session(HInit(cfg.h), T.Init(cfg.t))
  }

  predicate SourceRuns(cfg: SessionConfig, h: HState, c: nat) {
    if cfg.h.toServer then c < |h.cc| && h.cc[c] == ClientInTransfer else c < |h.sc| && h.sc[c] == ServerInTransfer
  }

  predicate DestRuns(cfg: SessionConfig, h: HState, c: nat) {
    if cfg.h.toServer then c < |h.sc| && h.sc[c] == ServerInTransfer else c < |h.cc| && h.cc[c] == ClientInTransfer
  }

  predicate DestPortalRuns(cfg: SessionConfig, h: HState) {
    if cfg.h.toServer then h.sp == SInvoke else h.cp == CInvoke
  }

  predicate IsSourceLabel(l: T.Label) {
    l.SrcClaim? || l.SrcHead? || l.SrcByte? || l.SrcTune? || l.SrcTail?
  }

  predicate IsDestLabel(l: T.Label) {
    l.DstHead? || l.DstByte? || l.DstCount? || l.DstRelease? || l.DstExit?
  }

  /** Is the thread that would make this transfer step inside the transfer? */
  predicate ThreadRuns(cfg: SessionConfig, h: HState, l: T.Label) {
    || (IsSourceLabel(l) && SourceRuns(cfg, h, l.c))
    || (IsDestLabel(l) && DestRuns(cfg, h, l.c))
    || (l.PortalPass? && DestPortalRuns(cfg, h))
  }

  predicate SEnabled(cfg: SessionConfig, s: Session, l: SLabel) {
    match l
    case Hand(hl) => HEnabled(cfg.h, s.h, ViewOf(s.t), hl)
    case Move(tl) => T.Enabled(cfg.t, s.t, tl) && ThreadRuns(cfg, s.h, tl)
  }

  function SApply(cfg: SessionConfig, s: Session, l: SLabel): Session
    requires SEnabled(cfg, s, l)
  {
    match l
    case Hand(hl) => s.(h := HApply(cfg.h, s.h, ViewOf(s.t), hl))
    case Move(tl) => s.(t := T.Apply(cfg.t, s.t, tl))
  }

  function SExec(cfg: SessionConfig, labels: seq<SLabel>): Option<Session>
    requires cfg.Valid()
    decreases |labels|
  {
    if labels == [] then Some(SInit(cfg))
    else
      match SExec(cfg, labels[..|labels| - 1])
      case None => None
      case Some(s) =>
        var l := labels[|labels| - 1];
        if SEnabled(cfg, s, l) then Some(SApply(cfg, s, l)) else None
  }

  // ----- how the two halves are linked -----

  /** A channel end whose thread has not entered the transfer is untouched; one whose thread
      has returned is done. */
  predicate EndsOk(cfg: SessionConfig, h: HState, t: T.State, c: nat)
    requires c < |h.cc| && c < |h.sc| && c < |t.chans|
  {
    var src, dst := t.chans[c].src, t.chans[c].dst;
    var srcEntered := if cfg.h.toServer then CCRank(h.cc[c]) >= 3 else SCRank(h.sc[c]) >= 6;
    var dstEntered := if cfg.h.toServer then SCRank(h.sc[c]) >= 6 else CCRank(h.cc[c]) >= 3;
    var srcReturned := if cfg.h.toServer then h.cc[c] == ClientReturned else h.sc[c] == ServerReturned;
    var dstReturned := if cfg.h.toServer then h.sc[c] == ServerReturned else h.cc[c] == ClientReturned;
    && (!srcEntered ==> src == T.InitSrc(cfg.t))
    && (!dstEntered ==> dst == T.RecvHead)
    && (srcReturned ==> src.pc == T.SrcDone)
    && (dstReturned ==> dst.Exited?)
  }

  ghost predicate LinkInv(cfg: SessionConfig, h: HState, t: T.State) {
    && |h.cc| == |h.sc| == |t.chans| == cfg.h.total
    && (forall c :: 0 <= c < cfg.h.total ==> EndsOk(cfg, h, t, c))
    && (t.portal == T.Finished ==> CRank(h.cp) >= 7 && SRank(h.sp) >= 10)
    && ((if cfg.h.toServer then h.sp == SDone else h.cp == CDone) ==> t.portal == T.Finished)
  }

  ghost predicate SInv(cfg: SessionConfig, s: Session) {
    && cfg.Valid() && HInv(cfg.h, s.h) && TI.Inv(cfg.t, s.t) && TP.NoFailure(s.t)
    && LinkInv(cfg, s.h, s.t)
  }

  lemma SInitInv(cfg: SessionConfig)
    requires cfg.Valid()
    ensures SInv(cfg, SInit(cfg))
  {
    HInitInv(cfg.h);
    TI.InitInv(cfg.t);
  }

  /** What a portal step changes that the link looks at: at most one channel is created, the
      portals only advance, and a destination portal is done only after the gate. */
  predicate PortalMoved(cfg: SessionConfig, h: HState, h': HState, v: View) {
    && h'.sc == h.sc && |h'.cc| == |h.cc|
    && (forall c :: 0 <= c < |h.cc| ==> h'.cc[c] == h.cc[c] || (h.cc[c] == NotStarted && h'.cc[c] == Connecting))
    && CRank(h'.cp) >= CRank(h.cp) && SRank(h'.sp) >= SRank(h.sp)
    && (cfg.h.toServer && h'.sp == SDone ==> h.sp == SDone || v.finished)
    && (!cfg.h.toServer && h'.cp == CDone ==> h.cp == CDone || v.finished)
  }

  lemma ClientPortalMoves(cfg: SessionConfig, h: HState, v: View)
    requires h.cp != CDone && (ClientReads(cfg.h, h) ==> h.s2c != []) && !ClientStep(cfg.h, h).broken
    requires h.cp.CCreate? && h.cp.k < cfg.h.advertised ==> h.cp.k < |h.cc| && h.cc[h.cp.k] == NotStarted
    requires h.cp == CInvoke && !cfg.h.toServer ==> v.finished
    ensures PortalMoved(cfg, h, ClientStep(cfg.h, h), v)
  {
    if h.cp.CCreate? && h.cp.k < cfg.h.advertised {
    } else {
      ClientAdvances(cfg.h, h);
      ClientKeeps(cfg.h, h);
    }
  }

  lemma ServerPortalMoves(cfg: SessionConfig, h: HState, v: View)
    requires h.sp != SDone && (ServerReads(cfg.h, h) ==> h.c2s != []) && !ServerStep(cfg.h, h).broken
    requires h.sp == SInvoke && cfg.h.toServer ==> v.finished
    ensures PortalMoved(cfg, h, ServerStep(cfg.h, h), v)
  {
    ServerAdvances(cfg.h, h);
  }

  lemma PortalLink(cfg: SessionConfig, h: HState, h': HState, t: T.State)
    requires LinkInv(cfg, h, t) && PortalMoved(cfg, h, h', ViewOf(t))
    ensures LinkInv(cfg, h', t)
  {
    forall c | 0 <= c < cfg.h.total ensures EndsOk(cfg, h', t, c) {
      assert EndsOk(cfg, h, t, c);
    }
  }

  /** What a channel thread's step changes that the link looks at: its own phase, and the
      phase of its peer when it connects; it returns only when its end is done. */
  predicate ThreadMoved(cfg: SessionConfig, h: HState, h': HState, v: View, i: nat) {
    && h'.cp == h.cp && h'.sp == h.sp && i < |h.cc| == |h.sc|
    && |h'.cc| == |h.cc| && |h'.sc| == |h.sc|
    && h'.cc == h.cc[i := h'.cc[i]] && h'.sc == h.sc[i := h'.sc[i]]
    && CCRank(h'.cc[i]) >= CCRank(h.cc[i]) && SCRank(h'.sc[i]) >= SCRank(h.sc[i])
    && (h'.cc[i] == ClientReturned ==> h.cc[i] == ClientReturned || ClientDone(cfg.h, v, i))
    && (h'.sc[i] == ServerReturned ==> h.sc[i] == ServerReturned || ServerDone(cfg.h, v, i))
  }

  lemma ClientThreadMoves(cfg: SessionConfig, h: HState, v: View, i: nat)
    requires HEnabled(cfg.h, h, v, CCStep(i)) && |h.cc| == |h.sc| && !ClientChannelStep(h, i).broken
    requires h.cc[i] == Connecting ==> h.sc[i] == NotAccepted
    ensures ThreadMoved(cfg, h, ClientChannelStep(h, i), v, i)
  { }

  lemma ServerThreadMoves(cfg: SessionConfig, h: HState, v: View, i: nat)
    requires HEnabled(cfg.h, h, v, SCStep(i)) && |h.cc| == |h.sc| && !ServerChannelStep(h, i).broken
    ensures ThreadMoved(cfg, h, ServerChannelStep(h, i), v, i)
  { }

  lemma ThreadLink(cfg: SessionConfig, h: HState, h': HState, t: T.State, i: nat)
    requires LinkInv(cfg, h, t) && ThreadMoved(cfg, h, h', ViewOf(t), i)
    ensures LinkInv(cfg, h', t)
  {
    forall c | 0 <= c < cfg.h.total ensures EndsOk(cfg, h', t, c) {
      assert EndsOk(cfg, h, t, c);
    }
  }

  lemma HandLink(cfg: SessionConfig, h: HState, t: T.State, l: HLabel)
    requires HInv(cfg.h, h) && LinkInv(cfg, h, t) && HEnabled(cfg.h, h, ViewOf(t), l)
    requires !HApply(cfg.h, h, ViewOf(t), l).broken
    ensures LinkInv(cfg, HApply(cfg.h, h, ViewOf(t), l), t)
  {
    var v := ViewOf(t);
    var h' := HApply(cfg.h, h, v, l);
    match l
    case CStep =>
      if h.cp.CCreate? && h.cp.k < |h.cc| { assert ChannelOk(cfg.h, h, h.cp.k); }
      ClientPortalMoves(cfg, h, v);
      PortalLink(cfg, h, h', t);
    case SStep =>
      ServerPortalMoves(cfg, h, v);
      PortalLink(cfg, h, h', t);
    case CCStep(i) =>
      assert ChannelOk(cfg.h, h, i);
      ClientThreadMoves(cfg, h, v, i);
      ThreadLink(cfg, h, h', t, i);
    case SCStep(i) =>
      ServerThreadMoves(cfg, h, v, i);
      ThreadLink(cfg, h, h', t, i);
  }

  lemma HandStep(cfg: SessionConfig, s: Session, l: HLabel)
    requires SInv(cfg, s) && HEnabled(cfg.h, s.h, ViewOf(s.t), l)
    ensures SInv(cfg, SApply(cfg, s, Hand(l)))
  {
    HStepInv(cfg.h, s.h, ViewOf(s.t), l);
    HandLink(cfg, s.h, s.t, l);
  }

  /** What a transfer step changes of the channels: one of them, and only one of its ends. */
  predicate OneEndMoved(t: T.State, t': T.State, l: T.Label)
    requires !l.PortalPass? && !l.PortalFail? && l.c < |t.chans|
  {
    && t'.portal == t.portal && |t'.chans| == |t.chans|
    && t'.chans == t.chans[l.c := t'.chans[l.c]]
    && (IsSourceLabel(l) ==> t'.chans[l.c].dst == t.chans[l.c].dst)
    && (IsDestLabel(l) ==> t'.chans[l.c].src == t.chans[l.c].src)
  }

  lemma SourceMoves(cfg: T.Config, t: T.State, l: T.Label)
    requires T.Enabled(cfg, t, l) && IsSourceLabel(l)
    ensures OneEndMoved(t, T.Apply(cfg, t, l), l) && t.chans[l.c].src.pc != T.SrcDone
  { }

  lemma DestMoves(cfg: T.Config, t: T.State, l: T.Label)
    requires T.Enabled(cfg, t, l) && IsDestLabel(l) && !T.Apply(cfg, t, l).aborted
    ensures OneEndMoved(t, T.Apply(cfg, t, l), l) && !t.chans[l.c].dst.Exited?
  { }

  lemma MoveEnds(cfg: SessionConfig, h: HState, t: T.State, t': T.State, l: T.Label)
    requires LinkInv(cfg, h, t) && !l.PortalPass? && !l.PortalFail? && ThreadRuns(cfg, h, l)
    requires l.c < |t.chans| && OneEndMoved(t, t', l)
    ensures LinkInv(cfg, h, t')
  {
    forall c | 0 <= c < cfg.h.total ensures EndsOk(cfg, h, t', c) {
      assert EndsOk(cfg, h, t, c);
    }
  }

  /** The gate was passed because every destination channel saw a tail; so every source channel
      sent one, so both sides' threads were let into the transfer by their portals. */
  lemma PassLink(cfg: SessionConfig, s: Session)
    requires SInv(cfg, s) && T.Enabled(cfg.t, s.t, T.PortalPass) && DestPortalRuns(cfg, s.h)
    ensures CRank(s.h.cp) >= 7 && SRank(s.h.sp) >= 10
  {
    SumFlags(TI.ExitFlags(s.t));
    assert TI.ExitFlags(s.t)[0] == 1;
    assert TI.ChanInv(cfg.t, s.t.chans[0]);
    assert s.t.chans[0].src.pc == T.SrcDone;
    assert EndsOk(cfg, s.h, s.t, 0);
    assert ChannelOk(cfg.h, s.h, 0);
  }

  lemma PassStep(cfg: SessionConfig, s: Session)
    requires SInv(cfg, s) && T.Enabled(cfg.t, s.t, T.PortalPass) && DestPortalRuns(cfg, s.h)
    ensures LinkInv(cfg, s.h, T.Apply(cfg.t, s.t, T.PortalPass))
  {
    PassLink(cfg, s);
    var t' := T.Apply(cfg.t, s.t, T.PortalPass);
    forall c | 0 <= c < cfg.h.total ensures EndsOk(cfg, s.h, t', c) {
      assert EndsOk(cfg, s.h, s.t, c);
    }
  }

  /** The link survives a transfer step; every ingredient of SInv is passed separately. */
  lemma MoveLink(cfg: SessionConfig, h: HState, t: T.State, l: T.Label)
    requires LinkInv(cfg, h, t) && T.Enabled(cfg.t, t, l) && ThreadRuns(cfg, h, l)
    requires !T.Apply(cfg.t, t, l).aborted && !l.PortalPass?
    ensures LinkInv(cfg, h, T.Apply(cfg.t, t, l))
  {
    if IsSourceLabel(l) { SourceMoves(cfg.t, t, l); } else { DestMoves(cfg.t, t, l); }
    MoveEnds(cfg, h, t, T.Apply(cfg.t, t, l), l);
  }

  lemma MoveKeeps(cfg: T.Config, t: T.State, l: T.Label)
    requires TI.Inv(cfg, t) && TP.NoFailure(t) && T.Enabled(cfg, t, l) && !T.Failing(l)
    ensures TI.Inv(cfg, T.Apply(cfg, t, l)) && TP.NoFailure(T.Apply(cfg, t, l))
    ensures !T.Apply(cfg, t, l).aborted
  {
    TI.StepInv(cfg, t, l);
    TP.StillNoFailure(cfg, t, l);
  }

  lemma MoveStep(cfg: SessionConfig, s: Session, l: T.Label)
    requires SInv(cfg, s) && SEnabled(cfg, s, Move(l))
    ensures SInv(cfg, SApply(cfg, s, Move(l)))
  {
    MoveKeeps(cfg.t, s.t, l);
    if l.PortalPass? { PassStep(cfg, s); } else { MoveLink(cfg, s.h, s.t, l); }
  }

  /** The invariant holds in every state of every session. */
  lemma {:induction false} SessionInv(cfg: SessionConfig, labels: seq<SLabel>)
    requires cfg.Valid() && SExec(cfg, labels).Some?
    ensures SInv(cfg, SExec(cfg, labels).value)
    decreases |labels|
  {
    if labels == [] {
      SInitInv(cfg);
    } else {
      var n := |labels| - 1;
      SessionInv(cfg, labels[..n]);
      var s := SExec(cfg, labels[..n]).value;
      match labels[n]
      case Hand(l) => HandStep(cfg, s, l);
      case Move(l) => MoveStep(cfg, s, l);
    }
  }

  // ----- causality -----

  /** In every session: no channel's identity lookup fails and no assert on a transfer object
      or message fires, on either side; and once a channel thread on either side is inside
      invoke_channel, its side's transfer is built and initialised and all N channels are
      registered with the client instance. */
  lemma Causality(cfg: SessionConfig, labels: seq<SLabel>, i: nat)
    requires cfg.Valid() && SExec(cfg, labels).Some? && i < cfg.h.total
    ensures var h := SExec(cfg, labels).value.h;
            && !h.broken && |h.cc| == |h.sc| == cfg.h.total
            && (CCRank(h.cc[i]) >= 3 ==>
                  h.clientTransfer == Initialised && h.registered && h.threads == cfg.h.total)
            && (SCRank(h.sc[i]) >= 6 ==>
                  h.serverTransfer == Initialised && h.registered && h.threads == cfg.h.total)
            && (SCRank(h.sc[i]) >= 1 ==> h.registered)
  {
    SessionInv(cfg, labels);
    var h := SExec(cfg, labels).value.h;
    assert ChannelOk(cfg.h, h, i);
    ChannelFacts(cfg.h, h, i);
    if h.serverReady || h.clientReady { ReadyMeansRegistered(cfg.h, h); }
  }

  // ----- progress -----

  function SWork(cfg: SessionConfig, s: Session): nat
    requires T.Shape(cfg.t, s.t)
  {
    HWork(cfg.h, s.h) + TP.Work(cfg.t, s.t)
  }

  /** No session is longer than the work there was at the start. */
  lemma {:induction false} SessionsEnd(cfg: SessionConfig, labels: seq<SLabel>)
    requires cfg.Valid() && SExec(cfg, labels).Some?
    ensures T.Shape(cfg.t, T.Init(cfg.t)) && T.Shape(cfg.t, SExec(cfg, labels).value.t)
    ensures |labels| + SWork(cfg, SExec(cfg, labels).value) <= SWork(cfg, SInit(cfg))
    decreases |labels|
  {
    SessionInv(cfg, labels);
    if labels != [] {
      var n := |labels| - 1;
      SessionsEnd(cfg, labels[..n]);
      SessionInv(cfg, labels[..n]);
      var s := SExec(cfg, labels[..n]).value;
      match labels[n]
      case Hand(l) => HStepWork(cfg.h, s.h, ViewOf(s.t), l);
      case Move(l) => TP.StepWork(cfg.t, s.t, l);
    }
  }

  /** Every thread on both sides has returned. */
  ghost predicate Over(h: HState) {
    && h.cp == CDone && h.sp == SDone
    && (forall i :: 0 <= i < |h.cc| ==> h.cc[i] == ClientReturned)
    && (forall i :: 0 <= i < |h.sc| ==> h.sc[i] == ServerReturned)
  }

  /** A transfer step that is enabled belongs to a thread that has not returned. */
  lemma EnabledMeansRunning(cfg: SessionConfig, h: HState, t: T.State, l: T.Label)
    requires LinkInv(cfg, h, t) && AllInTransfer(h) && T.Enabled(cfg.t, t, l) && !T.Failing(l)
    ensures ThreadRuns(cfg, h, l)
  {
    if !l.PortalPass? {
      assert EndsOk(cfg, h, t, l.c);
    }
  }

  /** With the transfer finished, portals and channel threads return one after the other. */
  lemma WindDown(cfg: SessionConfig, s: Session) returns (l: HLabel)
    requires SInv(cfg, s) && AllInTransfer(s.h) && s.t.portal == T.Finished && !Over(s.h)
    ensures HEnabled(cfg.h, s.h, ViewOf(s.t), l)
  {
    var h := s.h;
    assert !TT.SomeFailed(s.t) by {
      forall c | 0 <= c < |s.t.chans| ensures !TT.ChannelFailed(s.t.chans[c].dst) { }
    }
    TT.PassedMeansDrained(cfg.t, s.t);
    if i :| 0 <= i < |h.cc| && h.cc[i] != ClientReturned {
      l := CCStep(i);
    } else if i :| 0 <= i < |h.sc| && h.sc[i] != ServerReturned {
      l := SCStep(i);
    } else if cfg.h.toServer {
      l := if h.sp == SInvoke then SStep else CStep;
    } else {
      l := if h.cp == CInvoke then CStep else SStep;
    }
  }

  /** A session that is not over can go on. */
  lemma SessionNotStuck(cfg: SessionConfig, s: Session) returns (l: SLabel)
    requires SInv(cfg, s) && !Over(s.h)
    ensures SEnabled(cfg, s, l)
  {
    if !AllInTransfer(s.h) {
      var hl := HNotStuck(cfg.h, s.h, ViewOf(s.t));
      l := Hand(hl);
    } else if s.t.portal != T.Finished {
      var tl := TP.NotStuck(cfg.t, s.t);
      EnabledMeansRunning(cfg, s.h, s.t, tl);
      l := Move(tl);
    } else {
      var hl := WindDown(cfg, s);
      l := Hand(hl);
    }
  }

  /** Every session that cannot go on, in either direction and for any number of channels,
      has ended with the client's status SUCCEEDED, every thread returned, and every file
      copied. With SessionsEnd: every failure-free session ends this way. */
  lemma SessionsSucceed(cfg: SessionConfig, labels: seq<SLabel>)
    requires cfg.Valid() && SExec(cfg, labels).Some?
    requires forall l :: !SEnabled(cfg, SExec(cfg, labels).value, l)
    ensures var s := SExec(cfg, labels).value;
            Over(s.h) && s.h.status == TransferSucceeded && s.t.dst == cfg.t.files
  {
    SessionInv(cfg, labels);
    var s := SExec(cfg, labels).value;
    if !Over(s.h) {
      var l := SessionNotStuck(cfg, s);
      assert false;
    }
    assert !TT.SomeFailed(s.t) by {
      forall c | 0 <= c < |s.t.chans| ensures !TT.ChannelFailed(s.t.chans[c].dst) { }
    }
    TT.PassedMeansDrained(cfg.t, s.t);
    forall f: nat | f < |cfg.t.files| ensures s.t.dst[f] == cfg.t.files[f] {
      TT.DrainedFile(cfg.t, s.t, f);
    }
  }
}
