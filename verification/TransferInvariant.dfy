/** The inductive invariant of the transfer, and its preservation by every step. */
module TransferInvariant {
  import opened Basics
  import opened TransferModel
  import Tuner
  import L = Ledger

  // ----- what one channel's pipeline looks like -----

  function Tokens(cfg: Config, blocks: seq<Block>): seq<Token> {
    if blocks == [] then [] else [Head(blocks[0])] + Body(cfg, blocks[0]) + Tokens(cfg, blocks[1..])
  }

  lemma {:induction false} TokensAppend(cfg: Config, blocks: seq<Block>, b: Block)
    ensures Tokens(cfg, blocks + [b]) == Tokens(cfg, blocks) + ([Head(b)] + Body(cfg, b))
  {
    if blocks == [] {
      assert blocks + [b] == [b];
      assert Tokens(cfg, [b]) == [Head(b)] + Body(cfg, b) + [];
    } else {
      assert (blocks + [b])[1..] == blocks[1..] + [b];
      TokensAppend(cfg, blocks[1..], b);
    }
  }

  ghost predicate SrcInv(cfg: Config, src: Src) {
    && 0 < src.blockSize <= Tuner.MAX_BLOCK && src.file <= |cfg.files|
    && match src.pc
       case Claiming => src.file < |cfg.files|
       case SendHead(b) => src.file < |cfg.files| && b.size > 0
       case SendBody(b, sent) => src.file < |cfg.files| && sent < b.size
       case Tuning => src.file < |cfg.files|
       case SendTail => src.file == |cfg.files|
       case SrcDone => src.file == |cfg.files|
       case SrcFailed(unsent) => unsent != []
  }

  /** A block being filled is the oldest one of its channel. */
  ghost predicate DstInv(ch: Chan) {
    && (PartOf(ch.dst).Part? ==>
          ch.pend != [] && PartOf(ch.dst).b == ch.pend[0] && PartOf(ch.dst).got <= ch.pend[0].size)
    && (ch.dst.RecvBody? ==> ch.dst.got < ch.dst.b.size)
  }

  predicate InLoop(dst: Dst) { !dst.Exiting? && !dst.Exited? }

  /** Body tokens the destination still expects for the block it is filling. */
  function Expected(cfg: Config, dst: Dst): seq<Token> {
    if dst.RecvBody? && dst.got <= dst.b.size then Body(cfg, dst.b)[dst.got..] else []
  }

  /** Blocks whose header the destination has not seen. */
  function Queue(ch: Chan): seq<Block> {
    if (ch.dst.RecvBody? || ch.dst.Counting?) && ch.pend != [] then ch.pend[1..] else ch.pend
  }

  function TailPart(cfg: Config, src: Src): seq<Token> {
    if src.file == |cfg.files| then [Tail] else []
  }

  /** In FIFO order, what is in the socket and what is still to be sent is exactly what the
      destination still has to see; a destination that left its loop at the tail left nothing
      behind. */
  ghost predicate StreamInv(cfg: Config, ch: Chan) {
    if InLoop(ch.dst) then
      ch.fifo + Unsent(cfg, ch.src)
      == Expected(cfg, ch.dst) + Tokens(cfg, Queue(ch)) + TailPart(cfg, ch.src)
    else
      ch.dst.ok ==> ch.pend == [] && ch.src.pc == SrcDone && ch.fifo == []
  }

  ghost predicate ChanInv(cfg: Config, ch: Chan) {
    SrcInv(cfg, ch.src) && DstInv(ch) && StreamInv(cfg, ch)
  }

  // ----- what all channels and files share -----

  function LedgerOf(cfg: Config, s: State): L.Ledger
    requires Shape(cfg, s)
  {
    L.Ledger(seq(|cfg.files|, f requires 0 <= f < |cfg.files| => |cfg.files[f]|),
             s.offset,
             seq(|s.chans|, c requires 0 <= c < |s.chans| => s.chans[c].pend),
             s.counted)
  }

  predicate InPart(dst: Dst, f: nat, p: nat) {
    PartOf(dst).Part? && PartOf(dst).b.file == f
    && PartOf(dst).b.off <= p < PartOf(dst).b.off + PartOf(dst).got
  }

  ghost predicate SomePart(s: State, f: nat, p: nat) {
    exists c :: 0 <= c < |s.chans| && InPart(s.chans[c].dst, f, p)
  }

  /** Written bytes equal the source, all others are still the initial ones; the written
      positions are the counted ones and the filled parts of blocks being received. */
  ghost predicate DataInv(cfg: Config, s: State)
    requires cfg.Valid() && Shape(cfg, s)
  {
    && (forall f, p :: 0 <= f < |cfg.files| && 0 <= p < |cfg.files[f]| ==>
          s.dst[f][p] == if p in s.written[f] then cfg.files[f][p] else cfg.initial[f][p])
    && (forall f :: 0 <= f < |cfg.files| ==> s.counted[f] <= s.written[f])
    && (forall f, p :: 0 <= f < |cfg.files| && p in s.written[f] ==> p < |cfg.files[f]|)
    && (forall c, f: nat, p :: 0 <= c < |s.chans| && f < |cfg.files| && InPart(s.chans[c].dst, f, p) ==>
          p in s.written[f])
    && (forall f: nat, p {:trigger SomePart(s, f, p)} ::
          f < |cfg.files| && p in s.written[f] ==> p in s.counted[f] || SomePart(s, f, p))
  }

  predicate IsReleasing(s: State, c: nat, f: nat) {
    c < |s.chans| && s.chans[c].dst == Releasing(f)
  }

  ghost predicate SomeReleasing(s: State, f: nat) {
    exists c: nat :: IsReleasing(s, c, f)
  }

  /** `received_size` is the number of counted bytes; a file is unmapped only when complete,
      by the single channel that saw it complete. */
  ghost predicate MapInv(cfg: Config, s: State)
    requires Shape(cfg, s)
  {
    && (forall f :: 0 <= f < |cfg.files| ==> s.received[f] == |s.counted[f]|)
    && (forall f :: 0 <= f < |cfg.files| && !s.mapped[f] ==> s.received[f] == |cfg.files[f]|)
    && (forall f :: 0 <= f < |cfg.files| && s.mapped[f] ==> |cfg.files[f]| > 0)
    && (forall f: nat :: f < |cfg.files| && s.mapped[f] && s.received[f] == |cfg.files[f]| ==> SomeReleasing(s, f))
    && (forall c: nat, f: nat :: IsReleasing(s, c, f) ==>
          f < |cfg.files| && s.mapped[f] && s.received[f] == |cfg.files[f]|)
    && (forall c: nat, d: nat, f: nat :: IsReleasing(s, c, f) && IsReleasing(s, d, f) ==> c == d)
  }

  function PassedFlags(s: State, f: nat): seq<nat> {
    seq(|s.chans|, c requires 0 <= c < |s.chans| => if s.chans[c].src.file > f then 1 else 0)
  }

  /** A channel overshoots each file at most once, and a channel past a file left it exhausted. */
  ghost predicate OffsetInv(cfg: Config, s: State)
    requires Shape(cfg, s)
  {
    && (forall f :: 0 <= f < |cfg.files| ==>
          s.offset[f] <= |cfg.files[f]| + (1 + Sum(PassedFlags(s, f))) * Tuner.MAX_BLOCK)
    && (forall c, f :: 0 <= c < |s.chans| && 0 <= f < |cfg.files| && f < s.chans[c].src.file ==>
          s.offset[f] >= |cfg.files[f]|)
  }

  function ExitFlags(s: State): seq<nat> {
    seq(|s.chans|, c requires 0 <= c < |s.chans| => if s.chans[c].dst.Exited? then 1 else 0)
  }

  ghost predicate GateInv(cfg: Config, s: State) {
    && s.signals == Sum(ExitFlags(s))
    && (s.portal != Waiting ==> s.signals >= cfg.channels)
  }

  ghost predicate ClaimsInv(cfg: Config, s: State)
    requires Shape(cfg, s)
  {
    forall f :: 0 <= f < |cfg.files| ==> L.Tiles(s.claims[f], f, Min(s.offset[f], |cfg.files[f]|))
  }

  ghost predicate ChansInv(cfg: Config, s: State) {
    forall c :: 0 <= c < |s.chans| ==> ChanInv(cfg, s.chans[c])
  }

  ghost predicate SharedInv(cfg: Config, s: State)
    requires cfg.Valid() && Shape(cfg, s)
  {
    && L.Inv(LedgerOf(cfg, s)) && DataInv(cfg, s) && MapInv(cfg, s)
    && OffsetInv(cfg, s) && GateInv(cfg, s) && ClaimsInv(cfg, s)
  }

  ghost predicate Inv(cfg: Config, s: State) {
    cfg.Valid() && Shape(cfg, s) && !s.aborted && ChansInv(cfg, s) && SharedInv(cfg, s)
  }

  lemma InitChans(cfg: Config)
    requires cfg.Valid()
    ensures ChansInv(cfg, Init(cfg)) && GateInv(cfg, Init(cfg))
  {
    var s := Init(cfg);
    forall c | 0 <= c < |s.chans| ensures ChanInv(cfg, s.chans[c]) {
      assert s.chans[c] == Chan(InitSrc(cfg), [], RecvHead, []);
      assert Tokens(cfg, []) == [];
    }
    SumConstant(ExitFlags(s), 0);
  }

  lemma InitInv(cfg: Config)
    requires cfg.Valid()
    ensures Inv(cfg, Init(cfg))
  {
    InitChans(cfg);
  }

  // ----- frames: what each part of the invariant depends on -----

  lemma FrameChans(cfg: Config, s: State, s': State, c: nat)
    requires c < |s.chans| && ChansInv(cfg, s)
    requires |s'.chans| == |s.chans| && s'.chans == s.chans[c := s'.chans[c]] && ChanInv(cfg, s'.chans[c])
    ensures ChansInv(cfg, s')
  { }

  lemma FrameData(cfg: Config, s: State, s': State)
    requires cfg.Valid() && Shape(cfg, s) && Shape(cfg, s') && DataInv(cfg, s)
    requires s'.dst == s.dst && s'.written == s.written && s'.counted == s.counted
    requires forall d, f: nat, p | 0 <= d < |s.chans| :: InPart(s'.chans[d].dst, f, p) == InPart(s.chans[d].dst, f, p)
    ensures DataInv(cfg, s')
  {
    forall f: nat, p | SomePart(s, f, p) ensures SomePart(s', f, p) {
      var d :| 0 <= d < |s.chans| && InPart(s.chans[d].dst, f, p);
      assert InPart(s'.chans[d].dst, f, p);
    }
  }

  lemma FrameMap(cfg: Config, s: State, s': State)
    requires Shape(cfg, s) && Shape(cfg, s') && MapInv(cfg, s)
    requires s'.counted == s.counted && s'.received == s.received && s'.mapped == s.mapped
    requires forall d: nat, f: nat :: IsReleasing(s', d, f) == IsReleasing(s, d, f)
    ensures MapInv(cfg, s')
  {
    forall f: nat | SomeReleasing(s, f) ensures SomeReleasing(s', f) {
      var d: nat :| IsReleasing(s, d, f);
      assert IsReleasing(s', d, f);
    }
  }

  lemma FrameOffsets(cfg: Config, s: State, s': State)
    requires Shape(cfg, s) && Shape(cfg, s') && OffsetInv(cfg, s) && ClaimsInv(cfg, s)
    requires s'.offset == s.offset && s'.claims == s.claims
    requires forall d | 0 <= d < |s.chans| :: s'.chans[d].src.file == s.chans[d].src.file
    ensures OffsetInv(cfg, s') && ClaimsInv(cfg, s')
  {
    forall f: nat ensures PassedFlags(s', f) == PassedFlags(s, f) { }
  }

  lemma FrameGate(cfg: Config, s: State, s': State)
    requires GateInv(cfg, s)
    requires |s'.chans| == |s.chans| && s'.signals == s.signals && s'.portal == s.portal
    requires forall d | 0 <= d < |s.chans| :: s'.chans[d].dst.Exited? == s.chans[d].dst.Exited?
    ensures GateInv(cfg, s')
  {
    assert ExitFlags(s') == ExitFlags(s);
  }

  lemma FrameLedger(cfg: Config, s: State, s': State)
    requires Shape(cfg, s) && Shape(cfg, s')
    requires s'.offset == s.offset && s'.counted == s.counted
    requires forall d | 0 <= d < |s.chans| :: s'.chans[d].pend == s.chans[d].pend
    ensures LedgerOf(cfg, s') == LedgerOf(cfg, s)
  { }

  // ----- steps that concern one channel only -----

  predicate SameParts(a: Dst, b: Dst) {
    PartOf(a) == PartOf(b) || ((PartOf(a).Part? ==> PartOf(a).got == 0) && (PartOf(b).Part? ==> PartOf(b).got == 0))
  }

  /** What the shared invariant reads of a channel. */
  predicate SameView(a: Chan, b: Chan) {
    && a.pend == b.pend && SameParts(a.dst, b.dst) && a.src.file == b.src.file
    && a.dst.Exited? == b.dst.Exited?
    && (a.dst.Releasing? || b.dst.Releasing? ==> a.dst == b.dst)
  }

  lemma FrameShared(cfg: Config, s: State, c: nat, ch: Chan)
    requires cfg.Valid() && Shape(cfg, s) && SharedInv(cfg, s)
    requires c < |s.chans| && SameView(s.chans[c], ch)
    ensures Shape(cfg, s.(chans := s.chans[c := ch]))
    ensures SharedInv(cfg, s.(chans := s.chans[c := ch]))
  {
    var s' := s.(chans := s.chans[c := ch]);
    FrameLedger(cfg, s, s');
    FrameData(cfg, s, s');
    FrameMap(cfg, s, s');
    FrameOffsets(cfg, s, s');
    FrameGate(cfg, s, s');
  }

  lemma BodyStep(cfg: Config, b: Block, k: nat)
    requires k < b.size
    ensures Body(cfg, b)[k..] == [Body(cfg, b)[k]] + Body(cfg, b)[k + 1..]
    ensures Body(cfg, b)[b.size..] == []
  { }

  lemma LocalStepChan(cfg: Config, ch: Chan, l: Label)
    requires cfg.Valid() && ChanInv(cfg, ch) && ChanEnabled(cfg, ch, l)
    requires l.SrcHead? || l.SrcByte? || l.SrcTune? || l.SrcTail? || l.SrcFail? || l.DstFail?
    ensures ChanInv(cfg, ApplyLocal(cfg, ch, l))
    ensures SameView(ch, ApplyLocal(cfg, ch, l))
  {
    var ch' := ApplyLocal(cfg, ch, l);
    match l {
      case SrcHead(_) =>
        var b := ch.src.pc.b;
        assert Unsent(cfg, ch'.src) == Body(cfg, b);
        assert ch.fifo + ([Head(b)] + Body(cfg, b)) == ch.fifo + [Head(b)] + Body(cfg, b);
      case SrcByte(_) =>
        var b, k := ch.src.pc.b, ch.src.pc.sent;
        BodyStep(cfg, b, k);
        assert Unsent(cfg, ch'.src) == Body(cfg, b)[k + 1..];
        assert ch.fifo + ([Body(cfg, b)[k]] + Body(cfg, b)[k + 1..])
            == ch.fifo + [Body(cfg, b)[k]] + Body(cfg, b)[k + 1..];
      case SrcTune(_, elapsed) =>
        Tuner.AdjustBounds(ch.src.blockSize, elapsed);
        assert Unsent(cfg, ch'.src) == Unsent(cfg, ch.src);
      case SrcTail(_) =>
        assert ch.fifo + [Tail] + [] == ch.fifo + [Tail];
      case SrcFail(_) =>
        assert Unsent(cfg, ch'.src) == Unsent(cfg, ch.src);
        if ch.src.pc.SendBody? { BodyStep(cfg, ch.src.pc.b, ch.src.pc.sent); }
      case DstFail(_) =>
    }
  }

  lemma LocalStepChans(cfg: Config, s: State, l: Label)
    requires cfg.Valid() && ChansInv(cfg, s) && Enabled(cfg, s, l)
    requires l.SrcHead? || l.SrcByte? || l.SrcTune? || l.SrcTail? || l.SrcFail? || l.DstFail?
    ensures ChansInv(cfg, Apply(cfg, s, l))
    ensures SameView(s.chans[l.c], ApplyLocal(cfg, s.chans[l.c], l))
  {
    assert ChanInv(cfg, s.chans[l.c]);
    LocalStepChan(cfg, s.chans[l.c], l);
    FrameChans(cfg, s, Apply(cfg, s, l), l.c);
  }

  lemma LocalStep(cfg: Config, s: State, l: Label)
    requires Inv(cfg, s) && Enabled(cfg, s, l)
    requires l.SrcHead? || l.SrcByte? || l.SrcTune? || l.SrcTail? || l.SrcFail? || l.DstFail?
    ensures Inv(cfg, Apply(cfg, s, l))
  {
    LocalStepChans(cfg, s, l);
    FrameShared(cfg, s, l.c, ApplyLocal(cfg, s.chans[l.c], l));
  }

  // ----- the claim -----

  /** The claim of channel c is exact: no sum wraps, and it takes the next `blockSize` bytes,
      or what is left of the file, or nothing. */
  predicate ExactClaim(cfg: Config, s: State, c: nat) {
    c < |s.chans| &&
    var src := s.chans[c].src;
    src.file < |cfg.files| && src.file < |s.offset| &&
    var curr, size := s.offset[src.file], |cfg.files[src.file]|;
    && curr + src.blockSize < TWO64
    && Claimed(cfg, src, curr)
       == (if curr < size then Some(Block(src.file, curr, Min(src.blockSize, size - curr))) else None)
  }

  /** With the head room of a valid configuration the wrapping arithmetic is exact. */
  lemma ClaimExact(cfg: Config, s: State, c: nat)
    requires cfg.Valid() && Shape(cfg, s) && OffsetInv(cfg, s)
    requires c < |s.chans| && SrcInv(cfg, s.chans[c].src) && s.chans[c].src.pc == Claiming
    ensures ExactClaim(cfg, s, c)
  {
    var src := s.chans[c].src;
    var flags := PassedFlags(s, src.file);
    SumFlags(flags);
    assert flags[c] == 0;
  }

  lemma ClaimStepChan(cfg: Config, ch: Chan, curr: nat, b: Block)
    requires ChanInv(cfg, ch) && ch.src.pc == Claiming
    requires b.size > 0 && Claimed(cfg, ch.src, curr) == Some(b)
    ensures ChanInv(cfg, ch.(src := AfterClaim(cfg, ch.src, curr), pend := ch.pend + [b]))
  {
    var ch' := ch.(src := AfterClaim(cfg, ch.src, curr), pend := ch.pend + [b]);
    if InLoop(ch.dst) {
      assert Queue(ch') == Queue(ch) + [b];
      TokensAppend(cfg, Queue(ch), b);
      assert ch.fifo + [] == ch.fifo;
      assert Expected(cfg, ch.dst) + (Tokens(cfg, Queue(ch)) + ([Head(b)] + Body(cfg, b))) + []
          == (Expected(cfg, ch.dst) + Tokens(cfg, Queue(ch)) + []) + ([Head(b)] + Body(cfg, b));
    }
  }

  lemma ExhaustedStepChan(cfg: Config, ch: Chan, curr: nat)
    requires ChanInv(cfg, ch) && ch.src.pc == Claiming
    requires Claimed(cfg, ch.src, curr) == None
    ensures ChanInv(cfg, ch.(src := AfterClaim(cfg, ch.src, curr)))
  {
    var ch' := ch.(src := AfterClaim(cfg, ch.src, curr));
    assert Queue(ch') == Queue(ch);
    assert ch.fifo + [] == ch.fifo;
    assert Expected(cfg, ch.dst) + Tokens(cfg, Queue(ch)) + []
        == Expected(cfg, ch.dst) + Tokens(cfg, Queue(ch));
  }

  lemma PassedUpdate(s: State, s': State, c: nat, f: nat)
    requires c < |s.chans| && |s'.chans| == |s.chans| && s'.chans == s.chans[c := s'.chans[c]]
    requires s'.chans[c].src.file >= s.chans[c].src.file
    ensures Sum(PassedFlags(s, f)) <= Sum(PassedFlags(s', f))
    ensures s.chans[c].src.file <= f < s'.chans[c].src.file ==>
              Sum(PassedFlags(s', f)) == Sum(PassedFlags(s, f)) + 1
  {
    var v := if s'.chans[c].src.file > f then 1 else 0;
    assert PassedFlags(s', f) == PassedFlags(s, f)[c := v];
    SumUpdate(PassedFlags(s, f), c, v);
  }

  /** A claim moves one offset by one block size; when it overshoots, its channel leaves the file. */
  lemma ClaimOffsets(cfg: Config, s: State, s': State, c: nat)
    requires cfg.Valid() && Shape(cfg, s) && Shape(cfg, s') && OffsetInv(cfg, s)
    requires c < |s.chans| && SrcInv(cfg, s.chans[c].src) && s.chans[c].src.pc == Claiming
    requires s'.chans == s.chans[c := s'.chans[c]]
    requires var src := s.chans[c].src;
             && s'.offset == s.offset[src.file := s.offset[src.file] + src.blockSize]
             && s'.chans[c].src.file
                == if s.offset[src.file] < |cfg.files[src.file]| then src.file else src.file + 1
    ensures OffsetInv(cfg, s')
  {
    forall f | 0 <= f < |cfg.files|
      ensures s'.offset[f] <= |cfg.files[f]| + (1 + Sum(PassedFlags(s', f))) * Tuner.MAX_BLOCK
    {
      PassedUpdate(s, s', c, f);
    }
  }

  lemma ClaimTiles(cfg: Config, s: State, s': State, f: nat, b: Block)
    requires Shape(cfg, s) && Shape(cfg, s') && ClaimsInv(cfg, s)
    requires f < |cfg.files| && b.file == f && b.off == s.offset[f] < |cfg.files[f]| && b.size > 0
    requires |s'.offset| == |s.offset| && s'.offset == s.offset[f := s'.offset[f]]
    requires b.off + b.size == Min(s'.offset[f], |cfg.files[f]|)
    requires s'.claims == s.claims[f := s.claims[f] + [b]]
    ensures ClaimsInv(cfg, s')
  { }

  lemma ExhaustedTiles(cfg: Config, s: State, s': State, f: nat)
    requires Shape(cfg, s) && Shape(cfg, s') && ClaimsInv(cfg, s)
    requires f < |cfg.files| && |cfg.files[f]| <= s.offset[f] <= s'.offset[f]
    requires s'.offset == s.offset[f := s'.offset[f]] && s'.claims == s.claims
    ensures ClaimsInv(cfg, s')
  { }

  /** The destination half of the invariant looks at neither source channels nor offsets. */
  lemma SourceStepKeepsDst(cfg: Config, s: State, s': State)
    requires cfg.Valid() && Shape(cfg, s) && Shape(cfg, s')
    requires DataInv(cfg, s) && MapInv(cfg, s) && GateInv(cfg, s)
    requires forall d | 0 <= d < |s.chans| :: s'.chans[d].dst == s.chans[d].dst
    requires s'.dst == s.dst && s'.written == s.written && s'.counted == s.counted
    requires s'.received == s.received && s'.mapped == s.mapped
    requires s'.signals == s.signals && s'.portal == s.portal
    ensures DataInv(cfg, s') && MapInv(cfg, s') && GateInv(cfg, s')
  {
    FrameData(cfg, s, s');
    FrameMap(cfg, s, s');
    FrameGate(cfg, s, s');
  }

  lemma ClaimLedger(cfg: Config, s: State, s': State, c: nat, b: Block)
    requires Shape(cfg, s) && Shape(cfg, s') && L.Inv(LedgerOf(cfg, s))
    requires c < |s.chans| && b.file < |cfg.files| && b.size > 0
    requires b.off == s.offset[b.file] < |cfg.files[b.file]|
    requires b.off + b.size == Min(s'.offset[b.file], |cfg.files[b.file]|)
    requires s'.offset == s.offset[b.file := s'.offset[b.file]] && s'.counted == s.counted
    requires s'.chans == s.chans[c := s'.chans[c]] && s'.chans[c].pend == s.chans[c].pend + [b]
    ensures L.Inv(LedgerOf(cfg, s'))
  {
    L.ClaimPreserves(LedgerOf(cfg, s), c, b.file, b.size, s'.offset[b.file]);
    assert LedgerOf(cfg, s') == L.Claim(LedgerOf(cfg, s), c, b.file, b.size, s'.offset[b.file]);
  }

  lemma ExhaustedLedger(cfg: Config, s: State, s': State, f: nat)
    requires Shape(cfg, s) && Shape(cfg, s') && L.Inv(LedgerOf(cfg, s))
    requires f < |cfg.files| && |cfg.files[f]| <= s.offset[f] <= s'.offset[f]
    requires s'.offset == s.offset[f := s'.offset[f]] && s'.counted == s.counted
    requires forall d | 0 <= d < |s.chans| :: s'.chans[d].pend == s.chans[d].pend
    ensures L.Inv(LedgerOf(cfg, s'))
  {
    L.ExhaustedPreserves(LedgerOf(cfg, s), f, s'.offset[f]);
    assert LedgerOf(cfg, s') == LedgerOf(cfg, s).(offset := s'.offset);
  }

  /** What a claim does, with the arithmetic made exact. */
  lemma ClaimEffect(cfg: Config, s: State, c: nat)
    requires cfg.Valid() && Shape(cfg, s) && OffsetInv(cfg, s) && ChansInv(cfg, s)
    requires Enabled(cfg, s, SrcClaim(c))
    ensures var ch := s.chans[c];
            var f := ch.src.file;
            var curr, size := s.offset[f], |cfg.files[f]|;
            var b := Block(f, curr, if curr < size then Min(ch.src.blockSize, size - curr) else 0);
            var moved := s.(offset := s.offset[f := curr + ch.src.blockSize]);
            && SrcInv(cfg, ch.src)
            && Claimed(cfg, ch.src, curr) == (if curr < size then Some(b) else None)
            && ApplyClaim(cfg, s, c) ==
               if curr < size
               then moved.(chans := s.chans[c := ch.(src := ch.src.(pc := SendHead(b)), pend := ch.pend + [b])],
                           claims := s.claims[f := s.claims[f] + [b]])
               else moved.(chans := s.chans[c := ch.(src := AtFile(cfg, f + 1, ch.src.blockSize))])
  {
    assert ChanInv(cfg, s.chans[c]);
    ClaimExact(cfg, s, c);
  }

  lemma ClaimChans(cfg: Config, s: State, c: nat)
    requires cfg.Valid() && Shape(cfg, s) && OffsetInv(cfg, s) && ChansInv(cfg, s)
    requires Enabled(cfg, s, SrcClaim(c))
    ensures ChansInv(cfg, ApplyClaim(cfg, s, c))
  {
    ClaimEffect(cfg, s, c);
    var ch := s.chans[c];
    assert ChanInv(cfg, ch);
    var curr := s.offset[ch.src.file];
    match Claimed(cfg, ch.src, curr) {
      case None => ExhaustedStepChan(cfg, ch, curr);
      case Some(b) => ClaimStepChan(cfg, ch, curr, b);
    }
    FrameChans(cfg, s, ApplyClaim(cfg, s, c), c);
  }

  lemma ClaimDst(cfg: Config, s: State, c: nat)
    requires cfg.Valid() && Shape(cfg, s) && OffsetInv(cfg, s) && ChansInv(cfg, s)
    requires DataInv(cfg, s) && MapInv(cfg, s) && GateInv(cfg, s)
    requires Enabled(cfg, s, SrcClaim(c))
    ensures var s' := ApplyClaim(cfg, s, c);
            Shape(cfg, s') && DataInv(cfg, s') && MapInv(cfg, s') && GateInv(cfg, s')
  {
    ClaimEffect(cfg, s, c);
    SourceStepKeepsDst(cfg, s, ApplyClaim(cfg, s, c));
  }

  lemma ClaimSrc(cfg: Config, s: State, c: nat)
    requires cfg.Valid() && Shape(cfg, s) && OffsetInv(cfg, s) && ChansInv(cfg, s)
    requires ClaimsInv(cfg, s) && L.Inv(LedgerOf(cfg, s))
    requires Enabled(cfg, s, SrcClaim(c))
    ensures var s' := ApplyClaim(cfg, s, c);
            Shape(cfg, s') && OffsetInv(cfg, s') && ClaimsInv(cfg, s') && L.Inv(LedgerOf(cfg, s'))
  {
    ClaimEffect(cfg, s, c);
    var s' := ApplyClaim(cfg, s, c);
    var f := s.chans[c].src.file;
    ClaimOffsets(cfg, s, s', c);
    match Claimed(cfg, s.chans[c].src, s.offset[f])
    case None =>
      ExhaustedTiles(cfg, s, s', f);
      ExhaustedLedger(cfg, s, s', f);
    case Some(b) =>
      ClaimTiles(cfg, s, s', f, b);
      ClaimLedger(cfg, s, s', c, b);
  }

  lemma ClaimStep(cfg: Config, s: State, c: nat)
    requires Inv(cfg, s) && Enabled(cfg, s, SrcClaim(c))
    ensures Inv(cfg, Apply(cfg, s, SrcClaim(c)))
  {
    ClaimChans(cfg, s, c);
    ClaimDst(cfg, s, c);
    ClaimSrc(cfg, s, c);
    ClaimEffect(cfg, s, c);
  }

  // ----- a header or the tail arrives -----

  lemma HeadOfStream(cfg: Config, ch: Chan)
    requires ChanInv(cfg, ch) && ch.dst == RecvHead && ch.fifo != []
    ensures if ch.pend == [] then ch.fifo == [Tail] && ch.src.pc == SrcDone else ch.fifo[0] == Head(ch.pend[0])
  {
    var stream := ch.fifo + Unsent(cfg, ch.src);
    assert stream == Tokens(cfg, ch.pend) + TailPart(cfg, ch.src);
    assert stream[0] == ch.fifo[0];
    if ch.pend == [] {
      assert stream == TailPart(cfg, ch.src);
      assert |stream| == |ch.fifo| + |Unsent(cfg, ch.src)|;
    }
  }

  lemma HeadStepChan(cfg: Config, ch: Chan)
    requires ChanInv(cfg, ch) && ch.dst == RecvHead && ch.fifo != []
    requires ch.pend != [] && ch.pend[0].size > 0
    ensures ChanInv(cfg, ch.(dst := RecvBody(ch.pend[0], 0), fifo := ch.fifo[1..]))
  {
    HeadOfStream(cfg, ch);
    var b := ch.pend[0];
    var rest := Body(cfg, b) + Tokens(cfg, ch.pend[1..]) + TailPart(cfg, ch.src);
    assert ch.fifo + Unsent(cfg, ch.src) == [Head(b)] + rest by {
      assert Tokens(cfg, ch.pend) == [Head(b)] + Body(cfg, b) + Tokens(cfg, ch.pend[1..]);
    }
    assert ch.fifo[1..] + Unsent(cfg, ch.src) == (ch.fifo + Unsent(cfg, ch.src))[1..];
    assert Body(cfg, b)[0..] == Body(cfg, b);
  }

  lemma OldestInLedger(cfg: Config, s: State, c: nat)
    requires Shape(cfg, s) && L.Inv(LedgerOf(cfg, s))
    requires c < |s.chans| && s.chans[c].pend != []
    ensures var b := s.chans[c].pend[0];
            && b.file < |cfg.files| && 0 < b.size && b.off + b.size <= |cfg.files[b.file]|
            && |s.counted[b.file]| + b.size <= |cfg.files[b.file]|
            && |s.counted[b.file] + Range(b.off, b.off + b.size)| == |s.counted[b.file]| + b.size
  {
    var l := LedgerOf(cfg, s);
    assert l.pend[c] == s.chans[c].pend;
    L.OldestFacts(l, c);
  }

  /** The oldest block on its way belongs to a file that is mapped, lies inside it, and fits
      in what the file still lacks. */
  lemma OldestIsMapped(cfg: Config, s: State, c: nat)
    requires Shape(cfg, s) && L.Inv(LedgerOf(cfg, s)) && MapInv(cfg, s)
    requires c < |s.chans| && s.chans[c].pend != []
    ensures var b := s.chans[c].pend[0];
            && b.file < |cfg.files| && s.mapped[b.file]
            && 0 < b.size && b.off + b.size <= |cfg.files[b.file]|
            && s.received[b.file] + b.size <= |cfg.files[b.file]|
            && |s.counted[b.file] + Range(b.off, b.off + b.size)| == s.received[b.file] + b.size
  {
    OldestInLedger(cfg, s, c);
  }

  /** What the arrival of a header does: the asserts hold, and the block is the oldest one. */
  lemma HeadEffect(cfg: Config, s: State, c: nat)
    requires Enabled(cfg, s, DstHead(c)) && ChanInv(cfg, s.chans[c])
    requires s.chans[c].pend != [] ==>
               var b := s.chans[c].pend[0];
               b.size > 0 && b.file < |cfg.files| && s.mapped[b.file]
    ensures var ch := s.chans[c];
            var ch' := ch.(dst := if ch.pend == [] then Exiting(true, NoPart) else RecvBody(ch.pend[0], 0),
                           fifo := ch.fifo[1..]);
            && ApplyDstHead(cfg, s, c) == s.(chans := s.chans[c := ch'])
            && SameView(ch, ch') && ChanInv(cfg, ch')
  {
    var ch := s.chans[c];
    HeadOfStream(cfg, ch);
    if ch.pend == [] {
      TailStepChan(cfg, ch);
    } else {
      HeadStepChan(cfg, ch);
    }
  }

  lemma HeadStep(cfg: Config, s: State, c: nat)
    requires Inv(cfg, s) && Enabled(cfg, s, DstHead(c))
    ensures Inv(cfg, Apply(cfg, s, DstHead(c)))
  {
    assert ChanInv(cfg, s.chans[c]);
    if s.chans[c].pend != [] { OldestIsMapped(cfg, s, c); }
    HeadEffect(cfg, s, c);
    var s' := ApplyDstHead(cfg, s, c);
    FrameChans(cfg, s, s', c);
    FrameShared(cfg, s, c, s'.chans[c]);
  }

  lemma TailStepChan(cfg: Config, ch: Chan)
    requires ChanInv(cfg, ch) && ch.dst == RecvHead && ch.fifo != [] && ch.pend == []
    ensures ChanInv(cfg, ch.(dst := Exiting(true, NoPart), fifo := ch.fifo[1..]))
  {
    HeadOfStream(cfg, ch);
  }

  // ----- a body byte arrives -----

  lemma ByteOfStream(cfg: Config, ch: Chan)
    requires ChanInv(cfg, ch) && ch.dst.RecvBody? && ch.fifo != []
    ensures ch.fifo[0] == Data(cfg.ByteAt(ch.dst.b.file, ch.dst.b.off + ch.dst.got))
  {
    var b, got := ch.dst.b, ch.dst.got;
    BodyStep(cfg, b, got);
    assert (ch.fifo + Unsent(cfg, ch.src))[0] == ch.fifo[0];
  }

  function AfterDstByte(dst: Dst): Dst
    requires dst.RecvBody?
  {
    if dst.got + 1 < dst.b.size then RecvBody(dst.b, dst.got + 1) else Counting(dst.b)
  }

  lemma ByteStepChan(cfg: Config, ch: Chan)
    requires ChanInv(cfg, ch) && ch.dst.RecvBody? && ch.fifo != []
    ensures ChanInv(cfg, ch.(dst := AfterDstByte(ch.dst), fifo := ch.fifo[1..]))
  {
    var b, got := ch.dst.b, ch.dst.got;
    var ch' := ch.(dst := AfterDstByte(ch.dst), fifo := ch.fifo[1..]);
    BodyStep(cfg, b, got);
    var rest := Tokens(cfg, Queue(ch)) + TailPart(cfg, ch.src);
    assert Expected(cfg, ch'.dst) == Body(cfg, b)[got + 1..];
    assert ch.fifo + Unsent(cfg, ch.src) == [Body(cfg, b)[got]] + (Body(cfg, b)[got + 1..] + rest);
    assert ch.fifo[1..] + Unsent(cfg, ch.src) == (ch.fifo + Unsent(cfg, ch.src))[1..];
    assert Queue(ch') == Queue(ch);
  }

  lemma ByteData(cfg: Config, s: State, s': State, c: nat, f0: nat, p0: nat)
    requires cfg.Valid() && Shape(cfg, s) && Shape(cfg, s') && DataInv(cfg, s)
    requires c < |s.chans| && f0 < |cfg.files| && p0 < |cfg.files[f0]|
    requires s'.dst == s.dst[f0 := s.dst[f0][p0 := cfg.files[f0][p0]]]
    requires s'.written == s.written[f0 := s.written[f0] + {p0}] && s'.counted == s.counted
    requires forall d, f: nat, p | 0 <= d < |s.chans| ::
               InPart(s'.chans[d].dst, f, p)
               == (InPart(s.chans[d].dst, f, p) || (d == c && f == f0 && p == p0))
    ensures DataInv(cfg, s')
  {
    forall f: nat, p | f < |cfg.files| && p in s'.written[f] ensures p in s'.counted[f] || SomePart(s', f, p) {
      if f == f0 && p == p0 {
        assert InPart(s'.chans[c].dst, f, p);
      } else if p !in s.counted[f] {
        assert SomePart(s, f, p);
        var d :| 0 <= d < |s.chans| && InPart(s.chans[d].dst, f, p);
        assert InPart(s'.chans[d].dst, f, p);
      }
    }
  }

  /** What a body byte does: nothing but one write, inside the mapping. */
  lemma ByteEffect(cfg: Config, s: State, c: nat)
    requires Enabled(cfg, s, DstByte(c)) && ChanInv(cfg, s.chans[c])
    requires var b := s.chans[c].pend[0];
             b.file < |cfg.files| && s.mapped[b.file] && b.off + b.size <= |cfg.files[b.file]|
    ensures var ch := s.chans[c];
            var f, p := ch.dst.b.file, ch.dst.b.off + ch.dst.got;
            && f < |cfg.files| && p < |cfg.files[f]| && ch.dst.b == ch.pend[0]
            && ApplyDstByte(cfg, s, c)
               == s.(chans := s.chans[c := ch.(dst := AfterDstByte(ch.dst), fifo := ch.fifo[1..])],
                     dst := s.dst[f := s.dst[f][p := cfg.files[f][p]]],
                     written := s.written[f := s.written[f] + {p}])
  {
    ByteOfStream(cfg, s.chans[c]);
  }

  /** What OldestIsMapped says about the write of a channel, and nothing else. */
  ghost predicate WriteHits(cfg: Config, s: State, c: nat) {
    Shape(cfg, s) && c < |s.chans| && s.chans[c].pend != [] && ChanInv(cfg, s.chans[c]) &&
    var b := s.chans[c].pend[0];
    b.file < |cfg.files| && s.mapped[b.file] && b.off + b.size <= |cfg.files[b.file]|
  }

  lemma ByteStepData(cfg: Config, s: State, c: nat)
    requires cfg.Valid() && Enabled(cfg, s, DstByte(c)) && WriteHits(cfg, s, c) && DataInv(cfg, s)
    ensures Shape(cfg, ApplyDstByte(cfg, s, c)) && DataInv(cfg, ApplyDstByte(cfg, s, c))
  {
    ByteEffect(cfg, s, c);
    var b, got := s.chans[c].dst.b, s.chans[c].dst.got;
    ByteData(cfg, s, ApplyDstByte(cfg, s, c), c, b.file, b.off + got);
  }

  lemma ByteStepRest(cfg: Config, s: State, c: nat)
    requires cfg.Valid() && Enabled(cfg, s, DstByte(c)) && WriteHits(cfg, s, c)
    requires OffsetInv(cfg, s) && ClaimsInv(cfg, s) && GateInv(cfg, s)
    ensures var s' := ApplyDstByte(cfg, s, c);
            Shape(cfg, s') && OffsetInv(cfg, s') && ClaimsInv(cfg, s') && GateInv(cfg, s')
  {
    ByteEffect(cfg, s, c);
    FrameOffsets(cfg, s, ApplyDstByte(cfg, s, c));
    FrameGate(cfg, s, ApplyDstByte(cfg, s, c));
  }

  lemma ByteStepMap(cfg: Config, s: State, c: nat)
    requires cfg.Valid() && Enabled(cfg, s, DstByte(c)) && WriteHits(cfg, s, c) && MapInv(cfg, s)
    ensures var s' := ApplyDstByte(cfg, s, c);
            Shape(cfg, s') && LedgerOf(cfg, s') == LedgerOf(cfg, s) && MapInv(cfg, s')
  {
    ByteEffect(cfg, s, c);
    FrameLedger(cfg, s, ApplyDstByte(cfg, s, c));
    FrameMap(cfg, s, ApplyDstByte(cfg, s, c));
  }

  lemma ByteChans(cfg: Config, s: State, c: nat)
    requires cfg.Valid() && Enabled(cfg, s, DstByte(c)) && WriteHits(cfg, s, c) && ChansInv(cfg, s)
    ensures ChansInv(cfg, ApplyDstByte(cfg, s, c)) && !ApplyDstByte(cfg, s, c).aborted
  {
    ByteEffect(cfg, s, c);
    ByteStepChan(cfg, s.chans[c]);
    FrameChans(cfg, s, ApplyDstByte(cfg, s, c), c);
  }

  lemma ByteStep(cfg: Config, s: State, c: nat)
    requires Inv(cfg, s) && Enabled(cfg, s, DstByte(c))
    ensures Inv(cfg, Apply(cfg, s, DstByte(c)))
  {
    assert ChanInv(cfg, s.chans[c]);
    OldestIsMapped(cfg, s, c);
    ByteStepData(cfg, s, c);
    ByteStepRest(cfg, s, c);
    ByteStepMap(cfg, s, c);
    ByteChans(cfg, s, c);
  }

  // ----- a block is counted -----

  lemma CountStepChan(cfg: Config, ch: Chan, done: bool)
    requires ChanInv(cfg, ch) && ch.dst.Counting?
    ensures ChanInv(cfg, ch.(dst := if done then Releasing(ch.dst.b.file) else RecvHead, pend := ch.pend[1..]))
  {
    var ch' := ch.(dst := if done then Releasing(ch.dst.b.file) else RecvHead, pend := ch.pend[1..]);
    assert Queue(ch') == Queue(ch);
  }

  lemma CountData(cfg: Config, s: State, s': State, c: nat, b: Block)
    requires cfg.Valid() && Shape(cfg, s) && Shape(cfg, s') && DataInv(cfg, s)
    requires c < |s.chans| && b.file < |cfg.files| && s.chans[c].dst == Counting(b)
    requires s'.dst == s.dst && s'.written == s.written
    requires s'.counted == s.counted[b.file := s.counted[b.file] + Range(b.off, b.off + b.size)]
    requires s'.chans == s.chans[c := s'.chans[c]] && PartOf(s'.chans[c].dst) == NoPart
    ensures DataInv(cfg, s')
  {
    assert forall p: nat :: p in Range(b.off, b.off + b.size) <==> InPart(s.chans[c].dst, b.file, p);
    forall f: nat, p | f < |cfg.files| && p in s'.written[f] ensures p in s'.counted[f] || SomePart(s', f, p) {
      if p !in s'.counted[f] {
        assert SomePart(s, f, p);
        var d :| 0 <= d < |s.chans| && InPart(s.chans[d].dst, f, p);
        assert d != c;
        assert InPart(s'.chans[d].dst, f, p);
      }
    }
  }

  lemma CountMap(cfg: Config, s: State, s': State, c: nat, b: Block)
    requires Shape(cfg, s) && Shape(cfg, s') && MapInv(cfg, s)
    requires c < |s.chans| && b.file < |cfg.files| && s.mapped[b.file] && s.chans[c].dst == Counting(b)
    requires b.size > 0 && s.received[b.file] + b.size <= |cfg.files[b.file]|
    requires |s'.counted[b.file]| == s.received[b.file] + b.size
    requires s'.counted == s.counted[b.file := s'.counted[b.file]] && s'.mapped == s.mapped
    requires s'.received == s.received[b.file := s.received[b.file] + b.size]
    requires var done := s.received[b.file] + b.size == |cfg.files[b.file]|;
             && s'.chans == s.chans[c := s'.chans[c]]
             && s'.chans[c].dst == if done then Releasing(b.file) else RecvHead
    ensures MapInv(cfg, s')
  {
    var done := s.received[b.file] + b.size == |cfg.files[b.file]|;
    assert forall d: nat, f: nat :: IsReleasing(s', d, f) <==>
             (if d == c then done && f == b.file else IsReleasing(s, d, f));
    forall f: nat | f < |cfg.files| && s'.mapped[f] && s'.received[f] == |cfg.files[f]|
      ensures SomeReleasing(s', f)
    {
      if f == b.file {
        assert IsReleasing(s', c, f);
      } else {
        var d: nat :| IsReleasing(s, d, f);
        assert IsReleasing(s', d, f);
      }
    }
  }

  /** What counting a block does: the over-count assert holds and the size adds up exactly. */
  lemma CountEffect(cfg: Config, s: State, c: nat)
    requires cfg.Valid() && Enabled(cfg, s, DstCount(c)) && DstInv(s.chans[c])
    requires var b := s.chans[c].pend[0];
             b.file < |cfg.files| && s.received[b.file] + b.size <= |cfg.files[b.file]|
    ensures var ch := s.chans[c];
            var b := ch.pend[0];
            && ch.dst == Counting(b)
            && var done := s.received[b.file] + b.size == |cfg.files[b.file]|;
               ApplyDstCount(cfg, s, c)
               == s.(chans := s.chans[c := ch.(dst := if done then Releasing(b.file) else RecvHead, pend := ch.pend[1..])],
                     received := s.received[b.file := s.received[b.file] + b.size],
                     counted := s.counted[b.file := s.counted[b.file] + Range(b.off, b.off + b.size)])
  {
    assert s.received[s.chans[c].dst.b.file] + s.chans[c].dst.b.size < TWO64;
  }

  lemma CountLedger(cfg: Config, s: State, s': State, c: nat)
    requires Shape(cfg, s) && Shape(cfg, s') && L.Inv(LedgerOf(cfg, s))
    requires c < |s.chans| && s.chans[c].pend != [] && s.chans[c].pend[0].file < |cfg.files|
    requires s'.offset == s.offset && s'.chans == s.chans[c := s'.chans[c]]
    requires s'.chans[c].pend == s.chans[c].pend[1..]
    requires var b := s.chans[c].pend[0];
             s'.counted == s.counted[b.file := s.counted[b.file] + Range(b.off, b.off + b.size)]
    ensures L.Inv(LedgerOf(cfg, s'))
  {
    L.CountPreserves(LedgerOf(cfg, s), c);
    assert LedgerOf(cfg, s') == L.Count(LedgerOf(cfg, s), c);
  }

  lemma CountStepMap(cfg: Config, s: State, c: nat)
    requires cfg.Valid() && Shape(cfg, s) && L.Inv(LedgerOf(cfg, s)) && MapInv(cfg, s)
    requires Enabled(cfg, s, DstCount(c)) && DstInv(s.chans[c])
    ensures Shape(cfg, ApplyDstCount(cfg, s, c)) && MapInv(cfg, ApplyDstCount(cfg, s, c))
  {
    OldestIsMapped(cfg, s, c);
    CountEffect(cfg, s, c);
    CountMap(cfg, s, ApplyDstCount(cfg, s, c), c, s.chans[c].dst.b);
  }

  lemma CountStepLedger(cfg: Config, s: State, c: nat)
    requires cfg.Valid() && Shape(cfg, s) && L.Inv(LedgerOf(cfg, s)) && MapInv(cfg, s)
    requires Enabled(cfg, s, DstCount(c)) && DstInv(s.chans[c])
    ensures Shape(cfg, ApplyDstCount(cfg, s, c)) && L.Inv(LedgerOf(cfg, ApplyDstCount(cfg, s, c)))
  {
    OldestIsMapped(cfg, s, c);
    CountEffect(cfg, s, c);
    CountLedger(cfg, s, ApplyDstCount(cfg, s, c), c);
  }

  /** The conclusion of CountStepMap and CountStepLedger about the oldest block, and nothing else. */
  ghost predicate OldestFits(cfg: Config, s: State, c: nat) {
    Shape(cfg, s) && c < |s.chans| && s.chans[c].pend != [] &&
    var b := s.chans[c].pend[0];
    b.file < |cfg.files| && s.received[b.file] + b.size <= |cfg.files[b.file]|
  }

  lemma CountStepRest(cfg: Config, s: State, c: nat)
    requires cfg.Valid() && Enabled(cfg, s, DstCount(c)) && DstInv(s.chans[c]) && OldestFits(cfg, s, c)
    requires DataInv(cfg, s) && OffsetInv(cfg, s) && ClaimsInv(cfg, s) && GateInv(cfg, s)
    ensures var s' := ApplyDstCount(cfg, s, c);
            Shape(cfg, s') && DataInv(cfg, s') && OffsetInv(cfg, s') && ClaimsInv(cfg, s') && GateInv(cfg, s')
  {
    var s' := ApplyDstCount(cfg, s, c);
    CountEffect(cfg, s, c);
    CountData(cfg, s, s', c, s.chans[c].dst.b);
    FrameOffsets(cfg, s, s');
    FrameGate(cfg, s, s');
  }

  lemma CountChans(cfg: Config, s: State, c: nat)
    requires cfg.Valid() && Enabled(cfg, s, DstCount(c)) && OldestFits(cfg, s, c) && ChansInv(cfg, s)
    ensures ChansInv(cfg, ApplyDstCount(cfg, s, c)) && !ApplyDstCount(cfg, s, c).aborted
  {
    assert ChanInv(cfg, s.chans[c]);
    CountEffect(cfg, s, c);
    var b := s.chans[c].dst.b;
    CountStepChan(cfg, s.chans[c], s.received[b.file] + b.size == |cfg.files[b.file]|);
    FrameChans(cfg, s, ApplyDstCount(cfg, s, c), c);
  }

  lemma CountStep(cfg: Config, s: State, c: nat)
    requires Inv(cfg, s) && Enabled(cfg, s, DstCount(c))
    ensures Inv(cfg, Apply(cfg, s, DstCount(c)))
  {
    assert ChanInv(cfg, s.chans[c]);
    OldestIsMapped(cfg, s, c);
    CountStepMap(cfg, s, c);
    CountStepLedger(cfg, s, c);
    CountStepRest(cfg, s, c);
    CountChans(cfg, s, c);
  }

  // ----- a completed file is unmapped; a channel leaves; the portal passes -----

  lemma ReleaseMap(cfg: Config, s: State, s': State, c: nat, f0: nat)
    requires Shape(cfg, s) && Shape(cfg, s') && MapInv(cfg, s)
    requires IsReleasing(s, c, f0) && f0 < |cfg.files|
    requires s'.counted == s.counted && s'.received == s.received
    requires s'.mapped == s.mapped[f0 := false]
    requires s'.chans == s.chans[c := s'.chans[c]] && s'.chans[c].dst == RecvHead
    ensures MapInv(cfg, s')
  {
    assert forall d: nat, f: nat :: IsReleasing(s', d, f) <==> d != c && IsReleasing(s, d, f);
    forall f: nat | f < |cfg.files| && f != f0 && SomeReleasing(s, f) ensures SomeReleasing(s', f) {
      var d: nat :| IsReleasing(s, d, f);
      assert IsReleasing(s', d, f);
    }
  }

  lemma ReleaseStep(cfg: Config, s: State, c: nat)
    requires Inv(cfg, s) && Enabled(cfg, s, DstRelease(c))
    ensures Inv(cfg, Apply(cfg, s, DstRelease(c)))
  {
    var s' := ApplyDstRelease(cfg, s, c);
    var ch := s.chans[c];
    assert ChanInv(cfg, ch);
    assert IsReleasing(s, c, ch.dst.file);
    FrameChans(cfg, s, s', c);
    FrameLedger(cfg, s, s');
    FrameData(cfg, s, s');
    ReleaseMap(cfg, s, s', c, ch.dst.file);
    FrameOffsets(cfg, s, s');
    FrameGate(cfg, s, s');
  }

  lemma ExitGate(cfg: Config, s: State, s': State, c: nat)
    requires GateInv(cfg, s) && c < |s.chans| && !s.chans[c].dst.Exited?
    requires |s'.chans| == |s.chans| && s'.chans == s.chans[c := s'.chans[c]] && s'.chans[c].dst.Exited?
    requires s'.signals == s.signals + 1 && s'.portal == s.portal
    ensures GateInv(cfg, s')
  {
    SumUpdate(ExitFlags(s), c, 1);
    assert ExitFlags(s') == ExitFlags(s)[c := 1];
  }

  lemma ExitStep(cfg: Config, s: State, c: nat)
    requires Inv(cfg, s) && Enabled(cfg, s, DstExit(c))
    ensures Inv(cfg, Apply(cfg, s, DstExit(c)))
  {
    var s' := Apply(cfg, s, DstExit(c));
    assert ChanInv(cfg, s.chans[c]);
    FrameChans(cfg, s, s', c);
    FrameLedger(cfg, s, s');
    FrameData(cfg, s, s');
    FrameMap(cfg, s, s');
    FrameOffsets(cfg, s, s');
    ExitGate(cfg, s, s', c);
  }

  lemma PortalStep(cfg: Config, s: State, l: Label)
    requires Inv(cfg, s) && Enabled(cfg, s, l) && (l.PortalPass? || l.PortalFail?)
    ensures Inv(cfg, Apply(cfg, s, l))
  {
    var s' := Apply(cfg, s, l);
    FrameLedger(cfg, s, s');
    FrameData(cfg, s, s');
    FrameMap(cfg, s, s');
    FrameOffsets(cfg, s, s');
    assert ExitFlags(s') == ExitFlags(s);
  }

  lemma DstStepInv(cfg: Config, s: State, l: Label)
    requires Inv(cfg, s) && Enabled(cfg, s, l)
    requires l.DstHead? || l.DstByte? || l.DstCount? || l.DstRelease? || l.DstExit?
    ensures Inv(cfg, Apply(cfg, s, l))
  {
    match l
    case DstHead(c) => HeadStep(cfg, s, c);
    case DstByte(c) => ByteStep(cfg, s, c);
    case DstCount(c) => CountStep(cfg, s, c);
    case DstRelease(c) => ReleaseStep(cfg, s, c);
    case DstExit(c) => ExitStep(cfg, s, c);
  }

  /** Every step keeps the invariant. */
  lemma StepInv(cfg: Config, s: State, l: Label)
    requires Inv(cfg, s) && Enabled(cfg, s, l)
    ensures Inv(cfg, Apply(cfg, s, l))
  {
    if l.DstHead? || l.DstByte? || l.DstCount? || l.DstRelease? || l.DstExit? {
      DstStepInv(cfg, s, l);
    } else if l.SrcClaim? {
      ClaimStep(cfg, s, l.c);
    } else if l.PortalPass? || l.PortalFail? {
      PortalStep(cfg, s, l);
    } else {
      LocalStep(cfg, s, l);
    }
  }

  /** The invariant holds in every state of every run. */
  lemma {:induction false} ReachableInv(cfg: Config, labels: seq<Label>)
    requires cfg.Valid() && Exec(cfg, labels).Some?
    ensures Inv(cfg, Exec(cfg, labels).value)
    decreases |labels|
  {
    if labels == [] {
      InitInv(cfg);
    } else {
      var n := |labels| - 1;
      ReachableInv(cfg, labels[..n]);
      StepInv(cfg, Exec(cfg, labels[..n]).value, labels[n]);
    }
  }
}
