/** The multi-channel block transfer (src/transfer.cpp:28-146 and 331-421) as a labelled
    transition system: one step is one atomic operation, or one token moved through a
    socket. A socket carries the 16-byte block headers, the body bytes and the tail as
    tokens; module Wire relates tokens to the bytes on the wire. */
module TransferModel {
  import opened Basics
  import Tuner

  /** A claimed block: which file, from which offset, how many bytes. */
  datatype Block = Block(file: nat, off: nat, size: nat)

  datatype Token = Head(b: Block) | Data(v: Byte) | Tail

  /** What is fixed for a whole transfer. `initial` is what the destination files hold
      after they were opened and truncated to size; `capacity` bounds a socket buffer. */
  datatype Config = Config(
    files: seq<seq<Byte>>, initial: seq<seq<Byte>>,
    channels: nat, firstBlock: nat, fixedSize: bool, capacity: nat)
  {
    function Size(f: nat): nat { if f < |files| then |files[f]| else 0 }

    function ByteAt(f: nat, p: nat): Byte {
      if f < |files| && p < |files[f]| then files[f][p] else 0
    }

    /** The asserts on construction, and the head room that keeps uint64_t offsets from
        wrapping: at most one overshooting claim per channel and file. */
    predicate Valid() {
      && channels > 0 && capacity > 0
      && 0 < firstBlock <= Tuner.MAX_BLOCK
      && |files| < TWO32
      && |initial| == |files|
      && (forall f :: 0 <= f < |files| ==> |initial[f]| == |files[f]|)
      && (forall f :: 0 <= f < |files| ==>
            |files[f]| + (channels + 1) * Tuner.MAX_BLOCK < TWO64)
    }
  }

  // ----- one source channel -----

  datatype SrcPc =
    | Claiming
    | SendHead(b: Block)
    | SendBody(b: Block, sent: nat)
    | Tuning
    | SendTail
    | SrcDone
    | SrcFailed(unsent: seq<Token>)

  datatype Src = Src(file: nat, blockSize: nat, pc: SrcPc)

  /** The loop head for file f: claim from it, or send the tail when no file is left. */
  function AtFile(cfg: Config, f: nat, blockSize: nat): Src {
    Src(f, blockSize, if f < |cfg.files| then Claiming else SendTail)
  }

  function InitSrc(cfg: Config): Src { AtFile(cfg, 0, cfg.firstBlock) }

  /** The size actually sent for a claim at `curr`, in the source's wrapping arithmetic. */
  function ClaimSize(fileSize: nat, curr: nat, blockSize: nat): nat
    requires curr < fileSize
  {
    if U64(curr + blockSize) >= fileSize then U32(fileSize - curr) else blockSize
  }

  /** The block a claim at `curr` yields, None when the file is exhausted. */
  function Claimed(cfg: Config, src: Src, curr: nat): Option<Block> {
    if curr < cfg.Size(src.file)
    then Some(Block(U32(src.file), curr, ClaimSize(cfg.Size(src.file), curr, src.blockSize)))
    else None
  }

  function AfterClaim(cfg: Config, src: Src, curr: nat): Src {
    match Claimed(cfg, src, curr)
    case Some(b) => src.(pc := SendHead(b))
    case None => AtFile(cfg, src.file + 1, src.blockSize)
  }

  function AfterByte(src: Src): Src
    requires src.pc.SendBody?
  {
    if src.pc.sent + 1 < src.pc.b.size
    then src.(pc := SendBody(src.pc.b, src.pc.sent + 1))
    else src.(pc := Tuning)
  }

  function AfterTune(cfg: Config, src: Src, elapsed: int): Src {
    Src(src.file,
        if cfg.fixedSize then src.blockSize else U32(Tuner.Adjust(src.blockSize, elapsed as real)),
        Claiming)
  }

  /** The body of a block as tokens. */
  function Body(cfg: Config, b: Block): seq<Token> {
    seq(b.size, i requires 0 <= i < b.size => Data(cfg.ByteAt(b.file, b.off + i)))
  }

  /** What a source channel still has to put on its socket for the block it holds. */
  function Unsent(cfg: Config, src: Src): seq<Token> {
    match src.pc
    case SendHead(b) => [Head(b)] + Body(cfg, b)
    case SendBody(b, sent) => if sent <= b.size then Body(cfg, b)[sent..] else []
    case SendTail => [Tail]
    case SrcFailed(unsent) => unsent
    case _ => []
  }

  // ----- one destination channel -----

  /** The block a destination channel was filling when it left its loop. */
  datatype Partial = NoPart | Part(b: Block, got: nat)

  datatype Dst =
    | RecvHead
    | RecvBody(b: Block, got: nat)
    | Counting(b: Block)
    | Releasing(file: nat)
    | Exiting(ok: bool, part: Partial)
    | Exited(ok: bool, part: Partial)

  function PartOf(dst: Dst): Partial {
    match dst
    case RecvBody(b, got) => Part(b, got)
    case Counting(b) => Part(b, b.size)
    case Exiting(_, part) => part
    case Exited(_, part) => part
    case _ => NoPart
  }

  // ----- the whole system -----

  /** `pend` is a history variable: the blocks claimed on this channel and not yet counted. */
  datatype Chan = Chan(src: Src, fifo: seq<Token>, dst: Dst, pend: seq<Block>)

  datatype Portal = Waiting | Finished | PortalFailed

  /** Shared atomics, destination files and mappings, gate count and destination portal.
      The last three fields are history variables: which byte positions were counted, which
      were written, and which blocks were claimed. */
  datatype State = State(
    offset: seq<nat>, chans: seq<Chan>,
    dst: seq<seq<Byte>>, received: seq<nat>, mapped: seq<bool>,
    signals: nat, portal: Portal, aborted: bool,
    counted: seq<set<nat>>, written: seq<set<nat>>, claims: seq<seq<Block>>)

  function Init(cfg: Config): State
    requires cfg.Valid()
  {
    var n := |cfg.files|;
    State(
      seq(n, _ => 0),
      seq(cfg.channels, _ => Chan(InitSrc(cfg), [], RecvHead, [])),
      cfg.initial,
      seq(n, _ => 0),
      seq(n, f requires 0 <= f < n => |cfg.files[f]| > 0),
      0, Waiting, false,
      seq(n, _ => {}), seq(n, _ => {}), seq(n, _ => []))
  }

  /** Every sequence of the state has one entry per file or per channel. */
  predicate Shape(cfg: Config, s: State) {
    && |s.offset| == |s.dst| == |s.received| == |s.mapped| == |cfg.files|
    && |s.counted| == |s.written| == |s.claims| == |cfg.files|
    && |s.chans| == cfg.channels
    && (forall f :: 0 <= f < |cfg.files| ==> |s.dst[f]| == |cfg.files[f]|)
  }

  datatype Label =
    | SrcClaim(c: nat)
    | SrcHead(c: nat)
    | SrcByte(c: nat)
    | SrcTune(c: nat, elapsed: int)
    | SrcTail(c: nat)
    | SrcFail(c: nat)
    | DstHead(c: nat)
    | DstByte(c: nat)
    | DstCount(c: nat)
    | DstRelease(c: nat)
    | DstFail(c: nat)
    | DstExit(c: nat)
    | PortalPass
    | PortalFail

  predicate Failing(l: Label) { l.SrcFail? || l.DstFail? || l.PortalFail? }

  predicate Enabled(cfg: Config, s: State, l: Label) {
    && Shape(cfg, s) && !s.aborted
    && match l
       case PortalPass => s.portal == Waiting && s.signals >= cfg.channels
       case PortalFail => s.portal == Waiting && s.signals >= cfg.channels
       case _ => l.c < |s.chans| && ChanEnabled(cfg, s.chans[l.c], l)
  }

  predicate ChanEnabled(cfg: Config, ch: Chan, l: Label) {
    match l
    case SrcClaim(_) => ch.src.pc == Claiming && ch.src.file < |cfg.files|
    case SrcHead(_) => ch.src.pc.SendHead? && |ch.fifo| < cfg.capacity
    case SrcByte(_) => ch.src.pc.SendBody? && ch.src.pc.sent < ch.src.pc.b.size && |ch.fifo| < cfg.capacity
    case SrcTune(_, _) => ch.src.pc == Tuning
    case SrcTail(_) => ch.src.pc == SendTail && |ch.fifo| < cfg.capacity
    case SrcFail(_) => ch.src.pc.SendHead? || ch.src.pc.SendBody? || ch.src.pc == SendTail
    case DstHead(_) => ch.dst == RecvHead && ch.fifo != []
    case DstByte(_) => ch.dst.RecvBody? && ch.fifo != []
    case DstCount(_) => ch.dst.Counting?
    case DstRelease(_) => ch.dst.Releasing?
    case DstFail(_) => ch.dst == RecvHead || ch.dst.RecvBody?
    case DstExit(_) => ch.dst.Exiting?
    case _ => false
  }

  function Apply(cfg: Config, s: State, l: Label): State
    requires Enabled(cfg, s, l)
  {
    match l
    case SrcClaim(c) => ApplyClaim(cfg, s, c)
    case DstHead(c) => ApplyDstHead(cfg, s, c)
    case DstByte(c) => ApplyDstByte(cfg, s, c)
    case DstCount(c) => ApplyDstCount(cfg, s, c)
    case DstRelease(c) => ApplyDstRelease(cfg, s, c)
    case DstExit(c) =>
      var ch := s.chans[c];
      s.(chans := s.chans[c := ch.(dst := Exited(ch.dst.ok, ch.dst.part))], signals := s.signals + 1)
    case PortalPass => s.(portal := Finished)
    case PortalFail => s.(portal := PortalFailed)
    case _ => s.(chans := s.chans[l.c := ApplyLocal(cfg, s.chans[l.c], l)])
  }

  /** The steps that touch nothing but their own channel. */
  function ApplyLocal(cfg: Config, ch: Chan, l: Label): Chan
    requires ChanEnabled(cfg, ch, l)
    requires l.SrcHead? || l.SrcByte? || l.SrcTune? || l.SrcTail? || l.SrcFail? || l.DstFail?
  {
    match l
    case SrcHead(_) =>
      ch.(src := ch.src.(pc := SendBody(ch.src.pc.b, 0)), fifo := ch.fifo + [Head(ch.src.pc.b)])
    case SrcByte(_) =>
      ch.(src := AfterByte(ch.src), fifo := ch.fifo + [Body(cfg, ch.src.pc.b)[ch.src.pc.sent]])
    case SrcTune(_, elapsed) => ch.(src := AfterTune(cfg, ch.src, elapsed))
    case SrcTail(_) => ch.(src := ch.src.(pc := SrcDone), fifo := ch.fifo + [Tail])
    case SrcFail(_) => ch.(src := ch.src.(pc := SrcFailed(Unsent(cfg, ch.src))))
    case _ => ch.(dst := Exiting(false, PartOf(ch.dst)))
  }

  /** `curr_offset.fetch_add(curr_channel_block_size)` and the branch on its result. */
  function ApplyClaim(cfg: Config, s: State, c: nat): State
    requires Enabled(cfg, s, SrcClaim(c))
  {
    var ch := s.chans[c];
    var f := ch.src.file;
    var curr := s.offset[f];
    var s' := s.(offset := s.offset[f := U64(curr + ch.src.blockSize)]);
    match Claimed(cfg, ch.src, curr)
    case None => s'.(chans := s.chans[c := ch.(src := AfterClaim(cfg, ch.src, curr))])
    case Some(b) =>
      s'.(chans := s.chans[c := ch.(src := AfterClaim(cfg, ch.src, curr), pend := ch.pend + [b])],
          claims := s.claims[f := s.claims[f] + [b]])
  }

  function Abort(s: State): State { s.(aborted := true) }

  /** A header arrives. A failed assert (bad n_file, file not mapped although nothing was
      disposed, a size of 0 that is not the tail) aborts the process. */
  function ApplyDstHead(cfg: Config, s: State, c: nat): State
    requires Enabled(cfg, s, DstHead(c))
  {
    var ch := s.chans[c];
    match ch.fifo[0]
    case Tail => s.(chans := s.chans[c := ch.(dst := Exiting(true, NoPart), fifo := ch.fifo[1..])])
    case Data(_) => Abort(s)
    case Head(b) =>
      if b.size == 0 || b.file >= |cfg.files| || !s.mapped[b.file] then Abort(s)
      else s.(chans := s.chans[c := ch.(dst := RecvBody(b, 0), fifo := ch.fifo[1..])])
  }

  /** One body byte is received straight into the mapping; a write that misses the mapping
      is a crash. */
  function ApplyDstByte(cfg: Config, s: State, c: nat): State
    requires Enabled(cfg, s, DstByte(c))
  {
    var ch := s.chans[c];
    var b, got := ch.dst.b, ch.dst.got;
    var f, p := b.file, b.off + got;
    if !ch.fifo[0].Data? || f >= |cfg.files| || !s.mapped[f] || p >= |s.dst[f]| then Abort(s)
    else
      s.(chans := s.chans[c := ch.(
           dst := if got + 1 < b.size then RecvBody(b, got + 1) else Counting(b),
           fifo := ch.fifo[1..])],
         dst := s.dst[f := s.dst[f][p := ch.fifo[0].v]],
         written := s.written[f := s.written[f] + {p}])
  }

  /** `received_size += block_size`, the over-count assert and the completion test. */
  function ApplyDstCount(cfg: Config, s: State, c: nat): State
    requires Enabled(cfg, s, DstCount(c))
  {
    var ch := s.chans[c];
    var b := ch.dst.b;
    var f := b.file;
    if f >= |cfg.files| || U64(s.received[f] + b.size) > cfg.Size(f) then Abort(s)
    else
      var now := U64(s.received[f] + b.size);
      var done := now == cfg.Size(f);
      s.(chans := s.chans[c := ch.(
           dst := if done then Releasing(f) else RecvHead,
           pend := if ch.pend == [] then [] else ch.pend[1..])],
         received := s.received[f := now],
         counted := s.counted[f := s.counted[f] + Range(b.off, b.off + b.size)])
  }

  /** The channel that completed a file unmaps it. */
  function ApplyDstRelease(cfg: Config, s: State, c: nat): State
    requires Enabled(cfg, s, DstRelease(c))
  {
    var ch := s.chans[c];
    var f := ch.dst.file;
    if f >= |cfg.files| then Abort(s)
    else s.(chans := s.chans[c := ch.(dst := RecvHead)], mapped := s.mapped[f := false])
  }

  // ----- runs -----

  /** The state a run of steps leads to; None when some step was not enabled. Every
      interleaving of the channels is one such list. */
  function Exec(cfg: Config, labels: seq<Label>): Option<State>
    requires cfg.Valid()
    decreases |labels|
  {
    if labels == [] then Some(Init(cfg))
    else
      match Exec(cfg, labels[..|labels| - 1])
      case None => None
      case Some(s) =>
        var l := labels[|labels| - 1];
        if Enabled(cfg, s, l) then Some(Apply(cfg, s, l)) else None
  }
}
