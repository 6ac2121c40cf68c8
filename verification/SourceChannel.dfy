/** `transfer_source::invoke_channel` as written: the claim loop over all files, the
    tuner, and the tail (src/transfer.cpp:28-146), run by one thread while other threads
    claim from the same offsets. The loop is shown to perform a run of the source steps of
    TransferModel and to put exactly the bytes of those steps on its socket. */
module SourceChannel {
  import opened Basics
  import opened TransferModel
  import Tuner
  import Wire
  import TI = TransferInvariant

  // ----- the source steps of the model, seen from one channel -----

  datatype SrcAct = DoClaim(curr: nat) | DoHead | DoByte | DoTune(elapsed: int) | DoTail

  /** One source step: the next channel state and the tokens it puts on the socket. */
  function Move(cfg: Config, src: Src, act: SrcAct): Option<(Src, seq<Token>)> {
    match act
    case DoClaim(curr) =>
      if src.pc == Claiming then Some((AfterClaim(cfg, src, curr), [])) else None
    case DoHead =>
      if src.pc.SendHead? then Some((src.(pc := SendBody(src.pc.b, 0)), [Head(src.pc.b)])) else None
    case DoByte =>
      if src.pc.SendBody? && src.pc.sent < src.pc.b.size
      then Some((AfterByte(src), [Body(cfg, src.pc.b)[src.pc.sent]])) else None
    case DoTune(elapsed) =>
      if src.pc == Tuning then Some((AfterTune(cfg, src, elapsed), [])) else None
    case DoTail =>
      if src.pc == SendTail then Some((src.(pc := SrcDone), [Tail])) else None
  }

  /** The action a label of the transfer model stands for. */
  function ActOf(s: State, l: Label): SrcAct
    requires l.SrcClaim? || l.SrcHead? || l.SrcByte? || l.SrcTune? || l.SrcTail?
    requires l.c < |s.chans| && (l.SrcClaim? ==> s.chans[l.c].src.file < |s.offset|)
  {
    match l
    case SrcClaim(c) => DoClaim(s.offset[s.chans[c].src.file])
    case SrcHead(_) => DoHead
    case SrcByte(_) => DoByte
    case SrcTune(_, elapsed) => DoTune(elapsed)
    case SrcTail(_) => DoTail
  }

  /** The moves are the source steps of the transfer model, in which a claim also adds the
      block size to the shared offset it reads. */
  lemma MovesAreSteps(cfg: Config, s: State, l: Label)
    requires l.SrcClaim? || l.SrcHead? || l.SrcByte? || l.SrcTune? || l.SrcTail?
    requires Enabled(cfg, s, l)
    ensures var s' := Apply(cfg, s, l);
            && |s'.chans| == |s.chans|
            && Move(cfg, s.chans[l.c].src, ActOf(s, l)).Some?
            && var (src, out) := Move(cfg, s.chans[l.c].src, ActOf(s, l)).value;
               && s'.chans[l.c].src == src && s'.chans[l.c].fifo == s.chans[l.c].fifo + out
               && s'.offset == if l.SrcClaim?
                               then var f := s.chans[l.c].src.file;
                                    s.offset[f := U64(s.offset[f] + s.chans[l.c].src.blockSize)]
                               else s.offset
  {
    if l.SrcClaim? { assert s.chans[l.c].fifo + [] == s.chans[l.c].fifo; }
    if l.SrcTune? { assert s.chans[l.c].fifo + [] == s.chans[l.c].fifo; }
  }

  /** A run of moves, and everything it put on the socket. */
  function Moves(cfg: Config, src: Src, acts: seq<SrcAct>): Option<(Src, seq<Token>)>
    decreases |acts|
  {
    if acts == [] then Some((src, []))
    else
      match Moves(cfg, src, acts[..|acts| - 1])
      case None => None
      case Some((mid, out)) =>
        match Move(cfg, mid, acts[|acts| - 1])
        case None => None
        case Some((end, more)) => Some((end, out + more))
  }

  lemma MovesAppend(cfg: Config, src: Src, acts: seq<SrcAct>, act: SrcAct)
    requires Moves(cfg, src, acts).Some? && Move(cfg, Moves(cfg, src, acts).value.0, act).Some?
    ensures var (mid, out) := Moves(cfg, src, acts).value;
            var (end, more) := Move(cfg, mid, act).value;
            Moves(cfg, src, acts + [act]) == Some((end, out + more))
  {
    assert (acts + [act])[..|acts|] == acts;
  }

  function Repeat(act: SrcAct, n: nat): seq<SrcAct> { seq(n, _ => act) }

  lemma SendByteMore(cfg: Config, src: Src, acts: seq<SrcAct>, mid: Src, out: seq<Token>, b: Block, n: nat)
    requires n < b.size
    requires Moves(cfg, src, acts) == Some((mid.(pc := SendBody(b, n)), out + Body(cfg, b)[..n]))
    ensures Moves(cfg, src, acts + [DoByte])
            == Some((mid.(pc := if n + 1 < b.size then SendBody(b, n + 1) else Tuning), out + Body(cfg, b)[..n + 1]))
  {
    MovesAppend(cfg, src, acts, DoByte);
    assert out + Body(cfg, b)[..n] + [Body(cfg, b)[n]] == out + Body(cfg, b)[..n + 1];
  }

  lemma {:induction false} SendBytes(cfg: Config, src: Src, acts: seq<SrcAct>, mid: Src, out: seq<Token>, b: Block, n: nat)
    requires 0 < n <= b.size
    requires Moves(cfg, src, acts) == Some((mid.(pc := SendBody(b, 0)), out))
    ensures Moves(cfg, src, acts + Repeat(DoByte, n))
            == Some((mid.(pc := if n < b.size then SendBody(b, n) else Tuning), out + Body(cfg, b)[..n]))
    decreases n
  {
    var prev := acts + Repeat(DoByte, n - 1);
    if n > 1 {
      SendBytes(cfg, src, acts, mid, out, b, n - 1);
    } else {
      assert prev == acts;
      assert out + Body(cfg, b)[..0] == out;
    }
    assert acts + Repeat(DoByte, n) == prev + [DoByte];
    SendByteMore(cfg, src, prev, mid, out, b, n - 1);
  }

  /** Sending a claimed block is one head move and one byte move per byte. */
  lemma SendBlock(cfg: Config, src: Src, acts: seq<SrcAct>, mid: Src, out: seq<Token>, b: Block)
    requires b.size > 0 && mid.pc == SendHead(b) && Moves(cfg, src, acts) == Some((mid, out))
    ensures Moves(cfg, src, acts + [DoHead] + Repeat(DoByte, b.size))
            == Some((mid.(pc := Tuning), out + ([Head(b)] + Body(cfg, b))))
  {
    HeadMove(cfg, src, acts, mid, out, b);
    SendBytes(cfg, src, acts + [DoHead], mid, out + [Head(b)], b, b.size);
    WholeBody(cfg, out, b);
  }

  lemma WholeBody(cfg: Config, out: seq<Token>, b: Block)
    ensures out + [Head(b)] + Body(cfg, b)[..b.size] == out + ([Head(b)] + Body(cfg, b))
  { }

  lemma HeadMove(cfg: Config, src: Src, acts: seq<SrcAct>, mid: Src, out: seq<Token>, b: Block)
    requires Moves(cfg, src, acts) == Some((mid, out)) && mid.pc == SendHead(b)
    ensures Moves(cfg, src, acts + [DoHead]) == Some((mid.(pc := SendBody(b, 0)), out + [Head(b)]))
  {
    MovesAppend(cfg, src, acts, DoHead);
  }

  // ----- the environment of the loop -----

  /** A file's `curr_offset` in a process where other channels claim too. `ceiling` is how
      far they can have pushed it (TransferTheorems.OffsetBound). */
  class SharedOffset {
    var value: nat
    const ceiling: nat

    constructor (ceiling: nat)
      ensures value == 0 && this.ceiling == ceiling
    {
      value := 0;
      this.ceiling := ceiling;
    }

    /** Others may add before this thread's atomic addition takes effect. */
    method FetchAdd(delta: nat) returns (before: nat)
      requires value <= ceiling
      modifies this
      ensures old(value) <= before <= ceiling
      ensures value == U64(before + delta)
    {
      before :| value <= before <= ceiling;
      value := U64(before + delta);
    }
  }

  /** A connected socket; every send may fail after any prefix went out, and the connection is
      broken from then on. */
  class Socket {
    var sent: seq<Byte>
    var broken: bool

    constructor ()
      ensures sent == [] && !broken
    {
      sent, broken := [], false;
    }

    method Send(data: seq<Byte>) returns (ok: bool)
      modifies this
      ensures (ok <==> !broken) && (old(broken) ==> broken)
      ensures ok ==> sent == old(sent) + data
      ensures !ok ==> old(sent) <= sent <= old(sent) + data
    {
      var breaks: bool := *;
      broken := broken || breaks;
      ok := !broken;
      var n: nat :| n <= |data|;
      sent := sent + if ok then data else data[..n];
    }

    /** The header buffer, then `size` bytes of the file from `offset`. */
    method SendFile(file: seq<Byte>, offset: nat, size: nat, header: array<Byte>) returns (ok: bool)
      requires offset + size <= |file|
      modifies this
      ensures (ok <==> !broken) && (old(broken) ==> broken)
      ensures ok ==> sent == old(sent) + (header[..] + file[offset..offset + size])
      ensures !ok ==> old(sent) <= sent <= old(sent) + (header[..] + file[offset..offset + size])
    {
      ok := Send(header[..]);
      if ok {
        ok := Send(file[offset..offset + size]);
      }
    }
  }

  /** `*(uint32_t*)&buffer[at] = htonl(x)`. */
  method Store32(buffer: array<Byte>, at: nat, x: nat)
    requires at + 4 <= buffer.Length && x < TWO32
    modifies buffer
    ensures buffer[..] == old(buffer[..at]) + Wire.BE32(x) + old(buffer[at + 4..])
  {
    var s := Wire.BE32(x);
    buffer[at], buffer[at + 1], buffer[at + 2], buffer[at + 3] := s[0], s[1], s[2], s[3];
  }

  method FillHeader(header: array<Byte>, curr: nat, blockSize: nat, nFile: nat)
    requires header.Length == 16 && curr < TWO64 && blockSize < TWO32 && nFile < TWO32
    modifies header
    ensures header[..] == Wire.HeaderBytes(curr, blockSize, nFile)
  {
    Store32(header, 0, curr / TWO32);
    Store32(header, 4, curr % TWO32);
    Store32(header, 8, blockSize);
    Store32(header, 12, nFile);
  }

  /** The adjustment of `curr_channel_block_size`, statement by statement. */
  method AdjustBlockSize(current: nat, elapsed: int) returns (next: nat)
    requires 0 < current <= Tuner.MAX_BLOCK
    ensures next == Tuner.Adjust(current, elapsed as real)
    ensures Tuner.ALIGN <= next <= Tuner.MAX_BLOCK && next % Tuner.ALIGN == 0
  {
    var tmp := current;
    if elapsed <= 0 {
      tmp := tmp * 2;
    } else if elapsed <= 1000 * 1000 {
      tmp := Tuner.Truncate(tmp as real * 1000000.0 / elapsed as real);
    } else {
      var rate := tmp as real * 1000000.0 / elapsed as real;
      tmp := Tuner.Truncate(tmp as real * 0.8 + rate * 0.2);
    }
    tmp := (tmp + Tuner.ALIGN - 1) / Tuner.ALIGN * Tuner.ALIGN;
    if tmp > Tuner.MAX_BLOCK {
      tmp := Tuner.MAX_BLOCK;
    } else if tmp == 0 {
      tmp := Tuner.ALIGN;
    }
    Tuner.AdjustBounds(current, elapsed);
    next := tmp;
  }

  // ----- the loop -----

  ghost predicate TokensOk(tokens: seq<Token>) {
    forall i :: 0 <= i < |tokens| ==> Wire.TokenOk(tokens[i])
  }

  /** A claim that a 64-bit offset can have returned without wrapping. */
  ghost predicate ClaimsFit(acts: seq<SrcAct>) {
    forall i :: 0 <= i < |acts| && acts[i].DoClaim? ==> acts[i].curr + Tuner.MAX_BLOCK < TWO64
  }

  /** What this thread did so far: a run of moves to `src`, all of whose tokens are sent. */
  ghost predicate Performed(cfg: Config, acts: seq<SrcAct>, src: Src, sent: seq<Byte>) {
    && ClaimsFit(acts) && Moves(cfg, InitSrc(cfg), acts).Some?
    && var (end, tokens) := Moves(cfg, InitSrc(cfg), acts).value;
       end == src && TokensOk(tokens) && sent == Wire.Encode(tokens)
  }

  lemma Quiet(cfg: Config, acts: seq<SrcAct>, src: Src, sent: seq<Byte>, act: SrcAct, next: Src)
    requires Performed(cfg, acts, src, sent) && Move(cfg, src, act) == Some((next, []))
    requires act.DoClaim? ==> act.curr + Tuner.MAX_BLOCK < TWO64
    ensures Performed(cfg, acts + [act], next, sent)
  {
    MovesAppend(cfg, InitSrc(cfg), acts, act);
    var tokens := Moves(cfg, InitSrc(cfg), acts).value.1;
    assert tokens + [] == tokens;
  }

  lemma SentBlock(cfg: Config, acts: seq<SrcAct>, src: Src, sent: seq<Byte>, b: Block)
    requires Performed(cfg, acts, src, sent) && src.pc == SendHead(b) && Wire.Encodable(b)
    ensures Performed(cfg, acts + [DoHead] + Repeat(DoByte, b.size), src.(pc := Tuning), sent + Wire.FrameBytes(cfg, b))
  {
    var tokens := Moves(cfg, InitSrc(cfg), acts).value.1;
    SendBlock(cfg, InitSrc(cfg), acts, src, tokens, b);
    Wire.EncodeFrame(cfg, b);
    Wire.EncodeConcat(tokens, [Head(b)] + Body(cfg, b));
  }

  lemma SentTail(cfg: Config, acts: seq<SrcAct>, src: Src, sent: seq<Byte>)
    requires Performed(cfg, acts, src, sent) && src.pc == SendTail
    ensures Performed(cfg, acts + [DoTail], src.(pc := SrcDone), sent + Wire.TailBytes())
  {
    MovesAppend(cfg, InitSrc(cfg), acts, DoTail);
    var tokens := Moves(cfg, InitSrc(cfg), acts).value.1;
    Wire.EncodeConcat(tokens, [Tail]);
    assert Wire.Encode([Tail]) == Wire.TailBytes() + [];
  }

  /** Head room: others leave enough below 2^64 for this channel's own additions. */
  predicate Room(cfg: Config, ctx: SharedOffset, f: nat)
    requires f < |cfg.files|
  {
    |cfg.files[f]| + Tuner.MAX_BLOCK <= ctx.ceiling && ctx.ceiling + Tuner.MAX_BLOCK < TWO64
  }

  ghost predicate CtxOk(cfg: Config, ctx: seq<SharedOffset>) {
    && |ctx| == |cfg.files|
    && (forall f :: 0 <= f < |ctx| ==> Room(cfg, ctx[f], f))
    && (forall f, g :: 0 <= f < g < |ctx| ==> ctx[f] != ctx[g])
  }

  /** What went wrong left a prefix of the block or tail being sent. */
  ghost predicate BrokeOff(cfg: Config, acts: seq<SrcAct>, sent: seq<Byte>) {
    exists src, done :: Performed(cfg, acts, src, done) && done <= sent <= done + Pending(cfg, src)
  }

  lemma BrokenBlock(cfg: Config, acts: seq<SrcAct>, src: Src, before: seq<Byte>, sent: seq<Byte>, b: Block)
    requires Performed(cfg, acts, src, before) && src.pc == SendHead(b) && Wire.Encodable(b)
    requires before <= sent <= before + Wire.FrameBytes(cfg, b)
    ensures BrokeOff(cfg, acts, sent)
  {
    assert Pending(cfg, src) == Wire.FrameBytes(cfg, b);
  }

  /** Header and body of one block. */
  method SendFrame(cfg: Config, sock: Socket, b: Block) returns (ok: bool)
    requires Wire.Encodable(b) && b.file < |cfg.files| && b.off + b.size <= |cfg.files[b.file]|
    modifies sock
    ensures ok <==> !sock.broken
    ensures ok ==> sock.sent == old(sock.sent) + Wire.FrameBytes(cfg, b)
    ensures !ok ==> old(sock.sent) <= sock.sent <= old(sock.sent) + Wire.FrameBytes(cfg, b)
  {
    var header := new Byte[16];
    FillHeader(header, b.off, b.size, b.file);
    Wire.BodyIsSlice(cfg, b);
    ok := sock.SendFile(cfg.files[b.file], b.off, b.size, header);
  }

  /** Send a claimed block. */
  method SendClaimed(cfg: Config, sock: Socket, b: Block, blockSize: nat, ghost acts: seq<SrcAct>)
    returns (ok: bool, ghost acts': seq<SrcAct>)
    requires b.file < |cfg.files| < TWO32 && b.off + b.size <= |cfg.files[b.file]| < TWO64
    requires 0 < b.size <= blockSize <= Tuner.MAX_BLOCK
    requires Performed(cfg, acts, Src(b.file, blockSize, SendHead(b)), sock.sent)
    modifies sock
    ensures ok <==> !sock.broken
    ensures ok ==> Performed(cfg, acts', Src(b.file, blockSize, Tuning), sock.sent)
    ensures !ok ==> BrokeOff(cfg, acts', sock.sent)
  {
    ghost var src := Src(b.file, blockSize, SendHead(b));
    ghost var before := sock.sent;
    acts' := acts;
    ok := SendFrame(cfg, sock, b);
    if ok {
      SentBlock(cfg, acts, src, before, b);
      acts' := acts + [DoHead] + Repeat(DoByte, b.size);
    } else {
      BrokenBlock(cfg, acts, src, before, sock.sent, b);
    }
  }

  /** Choose the next block size after a block was sent. */
  method Retune(cfg: Config, nFile: nat, blockSize: nat, ghost acts: seq<SrcAct>, ghost sent: seq<Byte>)
    returns (nextSize: nat, ghost acts': seq<SrcAct>)
    requires 0 < blockSize <= Tuner.MAX_BLOCK
    requires Performed(cfg, acts, Src(nFile, blockSize, Tuning), sent)
    ensures 0 < nextSize <= Tuner.MAX_BLOCK
    ensures Performed(cfg, acts', Src(nFile, nextSize, Claiming), sent)
    ensures |acts'| == |acts| + 1 && acts <= acts' && acts'[|acts|].DoTune?
    ensures if cfg.fixedSize then nextSize == blockSize else Tuner.Tuned(blockSize, acts'[|acts|].elapsed, nextSize)
  {
    nextSize := blockSize;
    var elapsed: int := *;
    if !cfg.fixedSize {
      nextSize := AdjustBlockSize(blockSize, elapsed);
      Tuner.AdjustIsTuned(blockSize, elapsed, nextSize);
    }
    Quiet(cfg, acts, Src(nFile, blockSize, Tuning), sent, DoTune(elapsed), Src(nFile, nextSize, Claiming));
    acts' := acts + [DoTune(elapsed)];
  }

  lemma ClaimHere(cfg: Config, src: Src, curr: nat)
    requires src.file < |cfg.files| < TWO32 && src.blockSize <= Tuner.MAX_BLOCK && curr + Tuner.MAX_BLOCK < TWO64
    ensures U64(curr + src.blockSize) == curr + src.blockSize
    ensures var size := |cfg.files[src.file]|;
            AfterClaim(cfg, src, curr) ==
            if curr < size then src.(pc := SendHead(Block(src.file, curr, Min(src.blockSize, size - curr))))
            else AtFile(cfg, src.file + 1, src.blockSize)
  { }

  /** `fetch_add` and the branch on its result. */
  method ClaimNext(cfg: Config, ctx: SharedOffset, nFile: nat, blockSize: nat, ghost acts: seq<SrcAct>, ghost sent: seq<Byte>)
    returns (claim: Option<Block>, ghost acts': seq<SrcAct>)
    requires nFile < |cfg.files| < TWO32 && 0 < blockSize <= Tuner.MAX_BLOCK
    requires Room(cfg, ctx, nFile) && ctx.value <= ctx.ceiling
    requires Performed(cfg, acts, Src(nFile, blockSize, Claiming), sent)
    modifies ctx
    ensures match claim
            case Some(b) =>
              && b.file == nFile && 0 < b.size <= blockSize && b.off + b.size <= |cfg.files[nFile]|
              && old(ctx.value) < ctx.value <= ctx.ceiling && old(ctx.value) < |cfg.files[nFile]|
              && Performed(cfg, acts', Src(nFile, blockSize, SendHead(b)), sent)
            case None =>
              && ctx.value >= |cfg.files[nFile]|
              && Performed(cfg, acts', AtFile(cfg, nFile + 1, blockSize), sent)
  {
    ghost var src := Src(nFile, blockSize, Claiming);
    var curr := ctx.FetchAdd(blockSize);
    acts' := acts + [DoClaim(curr)];
    Quiet(cfg, acts, src, sent, DoClaim(curr), AfterClaim(cfg, src, curr));
    ClaimHere(cfg, src, curr);
    if curr >= |cfg.files[nFile]| {
      claim := None;
    } else {
      var size := blockSize;
      if curr + blockSize >= |cfg.files[nFile]| {
        size := |cfg.files[nFile]| - curr;
      }
      claim := Some(Block(nFile, curr, size));
    }
  }

  lemma PerformedSizes(cfg: Config, acts: seq<SrcAct>, src: Src, sent: seq<Byte>)
    requires |cfg.files| < TWO32 && 0 < cfg.firstBlock <= Tuner.MAX_BLOCK && Performed(cfg, acts, src, sent)
    ensures SizesNow(cfg, acts, src)
  {
    RunSizes(cfg, acts);
  }

  lemma BrokenSizes(cfg: Config, acts: seq<SrcAct>, sent: seq<Byte>)
    requires |cfg.files| < TWO32 && 0 < cfg.firstBlock <= Tuner.MAX_BLOCK && BrokeOff(cfg, acts, sent)
    ensures SizesSent(cfg, acts)
  {
    RunSizes(cfg, acts);
  }

  /** The inner loop: blocks of one file until a claim finds it exhausted. Whether or not it gets
      there, every block so far has the size that was asked for, or the one its predecessors'
      times give. */
  method SendFileBlocks(cfg: Config, ctx: SharedOffset, sock: Socket, nFile: nat, firstSize: nat, ghost acts0: seq<SrcAct>)
    returns (ok: bool, blockSize: nat, ghost acts: seq<SrcAct>)
    requires nFile < |cfg.files| < TWO32 && 0 < firstSize <= Tuner.MAX_BLOCK && 0 < cfg.firstBlock <= Tuner.MAX_BLOCK
    requires Room(cfg, ctx, nFile) && ctx.value <= ctx.ceiling
    requires Performed(cfg, acts0, Src(nFile, firstSize, Claiming), sock.sent) && !sock.broken
    modifies ctx, sock
    ensures 0 < blockSize <= Tuner.MAX_BLOCK && (ok <==> !sock.broken)
    ensures ok ==> ctx.value >= |cfg.files[nFile]|
    ensures ok ==> Performed(cfg, acts, AtFile(cfg, nFile + 1, blockSize), sock.sent)
    ensures !ok ==> BrokeOff(cfg, acts, sock.sent)
    ensures SizesSent(cfg, acts) && (ok ==> blockSize == SizeThen(cfg, Took(acts)))
  {
    ok, blockSize, acts := true, firstSize, acts0;
    while true
      invariant 0 < blockSize <= Tuner.MAX_BLOCK && ctx.value <= ctx.ceiling && !sock.broken
      invariant Performed(cfg, acts, Src(nFile, blockSize, Claiming), sock.sent)
      decreases ctx.ceiling - ctx.value
    {
      var claim;
      claim, acts := ClaimNext(cfg, ctx, nFile, blockSize, acts, sock.sent);
      if claim == None {
        ok := true;
        PerformedSizes(cfg, acts, AtFile(cfg, nFile + 1, blockSize), sock.sent);
        return;
      }
      ok, acts := SendClaimed(cfg, sock, claim.value, blockSize, acts);
      if !ok {
        BrokenSizes(cfg, acts, sock.sent);
        return;
      }
      blockSize, acts := Retune(cfg, nFile, blockSize, acts, sock.sent);
    }
  }

  /** Bytes of the block or tail a channel was sending. */
  function Pending(cfg: Config, src: Src): seq<Byte> {
    match src.pc
    case SendHead(b) => if Wire.Encodable(b) then Wire.FrameBytes(cfg, b) else []
    case SendTail => Wire.TailBytes()
    case _ => []
  }

  /** The outer loop over the files. */
  method SendAllFiles(cfg: Config, ctx: seq<SharedOffset>, sock: Socket)
    returns (ok: bool, blockSize: nat, ghost acts: seq<SrcAct>)
    requires cfg.Valid() && CtxOk(cfg, ctx) && sock.sent == [] && !sock.broken
    requires forall f :: 0 <= f < |ctx| ==> ctx[f].value <= ctx[f].ceiling
    modifies ctx, sock
    ensures ok <==> !sock.broken
    ensures ok ==> Performed(cfg, acts, Src(|cfg.files|, blockSize, SendTail), sock.sent)
    ensures ok ==> forall f :: 0 <= f < |ctx| ==> ctx[f].value >= |cfg.files[f]|
    ensures !ok ==> BrokeOff(cfg, acts, sock.sent)
  {
    ok, blockSize, acts := true, cfg.firstBlock, [];
    NothingPerformed(cfg);
    var nFile := 0;
    while nFile < |cfg.files|
      invariant ok && !sock.broken && nFile <= |cfg.files| && 0 < blockSize <= Tuner.MAX_BLOCK
      invariant Performed(cfg, acts, AtFile(cfg, nFile, blockSize), sock.sent)
      invariant PastAndAhead(cfg, ctx, nFile)
    {
      ok, blockSize, acts := SendFileBlocks(cfg, ctx[nFile], sock, nFile, blockSize, acts);
      if !ok {
        return;
      }
      nFile := nFile + 1;
    }
  }

  /** The offsets of the first n files are past their ends, the others within their ceilings. */
  ghost predicate PastAndAhead(cfg: Config, ctx: seq<SharedOffset>, n: nat)
    reads ctx
  {
    && n <= |ctx| == |cfg.files|
    && (forall f :: 0 <= f < n ==> ctx[f].value >= |cfg.files[f]|)
    && (forall f :: n <= f < |ctx| ==> ctx[f].value <= ctx[f].ceiling)
  }

  lemma NothingPerformed(cfg: Config)
    ensures Performed(cfg, [], InitSrc(cfg), [])
  { }

  /** The channel function. It succeeds exactly when the connection holds. On success it performed
      a complete run of the source steps, the socket carries exactly the encoded tokens of that
      run, tail included, and every file's offset has been pushed past its end. On failure the socket carries the tokens of an
      incomplete run and a prefix of the block or tail being sent. Either way the blocks have
      the size that was asked for, or the sizes that the times of the sends give. */
  method InvokeChannel(cfg: Config, ctx: seq<SharedOffset>, sock: Socket) returns (ok: bool, ghost acts: seq<SrcAct>)
    requires cfg.Valid() && CtxOk(cfg, ctx) && sock.sent == [] && !sock.broken
    requires forall f :: 0 <= f < |ctx| ==> ctx[f].value <= ctx[f].ceiling
    modifies ctx, sock
    ensures ok <==> !sock.broken
    ensures ok ==> exists blockSize :: Performed(cfg, acts, Src(|cfg.files|, blockSize, SrcDone), sock.sent)
    ensures ok ==> forall f :: 0 <= f < |ctx| ==> ctx[f].value >= |cfg.files[f]|
    ensures !ok ==> BrokeOff(cfg, acts, sock.sent)
    ensures SizesSent(cfg, acts)
  {
    var blockSize;
    ok, blockSize, acts := SendAllFiles(cfg, ctx, sock);
    if ok {
      ok, acts := SendFinalTail(cfg, sock, blockSize, acts);
    }
    if ok {
      PerformedSizes(cfg, acts, Src(|cfg.files|, blockSize, SrcDone), sock.sent);
    } else {
      BrokenSizes(cfg, acts, sock.sent);
    }
  }

  method SendFinalTail(cfg: Config, sock: Socket, ghost blockSize: nat, ghost acts: seq<SrcAct>)
    returns (ok: bool, ghost acts': seq<SrcAct>)
    requires Performed(cfg, acts, Src(|cfg.files|, blockSize, SendTail), sock.sent)
    modifies sock
    ensures ok <==> !sock.broken
    ensures ok ==> Performed(cfg, acts', Src(|cfg.files|, blockSize, SrcDone), sock.sent)
    ensures !ok ==> BrokeOff(cfg, acts', sock.sent)
  {
    ghost var before := sock.sent;
    var tail := new Byte[16];
    FillTail(tail);
    ok := sock.Send(tail[..]);
    acts' := acts;
    if ok {
      SentTail(cfg, acts, Src(|cfg.files|, blockSize, SendTail), before);
      acts' := acts + [DoTail];
    } else {
      BrokenTail(cfg, acts, Src(|cfg.files|, blockSize, SendTail), before, sock.sent);
    }
  }

  lemma BrokenTail(cfg: Config, acts: seq<SrcAct>, src: Src, before: seq<Byte>, sent: seq<Byte>)
    requires Performed(cfg, acts, src, before) && src.pc == SendTail
    requires before <= sent <= before + Wire.TailBytes()
    ensures BrokeOff(cfg, acts, sent)
  {
    assert Pending(cfg, src) == Wire.TailBytes();
  }

  method FillTail(tail: array<Byte>)
    requires tail.Length == 16
    modifies tail
    ensures tail[..] == Wire.TailBytes()
  {
    Store32(tail, 0, 0xFFFF_FFFF);
    Store32(tail, 4, 0xFFFF_FFFF);
    Store32(tail, 8, 0);
    Store32(tail, 12, 0xFFFF_FFFF);
  }

  // ----- what the receiver makes of a complete run -----

  /** The blocks a run of moves claimed, in order. */
  function BlocksOf(cfg: Config, acts: seq<SrcAct>): seq<Block>
    decreases |acts|
  {
    if acts == [] then []
    else
      var n := |acts| - 1;
      var front := BlocksOf(cfg, acts[..n]);
      match Moves(cfg, InitSrc(cfg), acts[..n])
      case None => front
      case Some((mid, _)) =>
        if acts[n].DoClaim? && Claimed(cfg, mid, acts[n].curr).Some?
        then front + [Claimed(cfg, mid, acts[n].curr).value] else front
  }

  /** The times its sends took. */
  function Took(acts: seq<SrcAct>): seq<int>
    decreases |acts|
  {
    if acts == [] then []
    else Took(acts[..|acts| - 1]) + if acts[|acts| - 1].DoTune? then [acts[|acts| - 1].elapsed] else []
  }

  /** The size of a channel after sends that took these times: the one that was asked for, or
      what the tuner makes of the first. */
  function SizeThen(cfg: Config, took: seq<int>): nat {
    if cfg.fixedSize then cfg.firstBlock else Tuner.After(cfg.firstBlock, took)
  }

  /** A block of that size, or the rest of its file. */
  predicate HasSize(cfg: Config, b: Block, size: nat) {
    b.file < |cfg.files| && b.off < |cfg.files[b.file]| && b.size == Min(size, |cfg.files[b.file]| - b.off)
  }

  /** The k-th block has the size after k sends; no send is left out. */
  predicate Sized(cfg: Config, blocks: seq<Block>, took: seq<int>) {
    && |took| <= |blocks| <= |took| + 1
    && forall k :: 0 <= k < |blocks| ==> HasSize(cfg, blocks[k], SizeThen(cfg, took[..k]))
  }

  ghost predicate SizesSent(cfg: Config, acts: seq<SrcAct>) { Sized(cfg, BlocksOf(cfg, acts), Took(acts)) }

  /** Between a claim and the end of its send. */
  predicate InBlock(pc: SrcPc) { pc.SendHead? || pc.SendBody? || pc == Tuning }

  ghost predicate SizesNow(cfg: Config, acts: seq<SrcAct>, src: Src) {
    && SizesSent(cfg, acts) && src.blockSize == SizeThen(cfg, Took(acts))
    && |BlocksOf(cfg, acts)| == |Took(acts)| + if InBlock(src.pc) then 1 else 0
  }

  lemma MoveSize(cfg: Config, src: Src, act: SrcAct)
    requires Move(cfg, src, act).Some? && 0 < src.blockSize <= Tuner.MAX_BLOCK
    ensures var end := Move(cfg, src, act).value.0;
            && end.blockSize == (if act.DoTune? && !cfg.fixedSize then Tuner.Adjust(src.blockSize, act.elapsed as real)
                                 else src.blockSize)
            && (InBlock(end.pc) <==>
                  if act.DoClaim? then Claimed(cfg, src, act.curr).Some? else InBlock(src.pc) && !act.DoTune?)
            && (act.DoTune? ==> InBlock(src.pc)) && (act.DoClaim? ==> !InBlock(src.pc))
  {
    if act.DoTune? { Tuner.AdjustBounds(src.blockSize, act.elapsed); }
  }

  lemma ClaimSized(cfg: Config, src: Src, curr: nat)
    requires |cfg.files| < TWO32 && src.blockSize <= Tuner.MAX_BLOCK && curr + Tuner.MAX_BLOCK < TWO64
    requires Claimed(cfg, src, curr).Some?
    ensures HasSize(cfg, Claimed(cfg, src, curr).value, src.blockSize)
  {
    ClaimHere(cfg, src, curr);
  }

  lemma SizedClaim(cfg: Config, blocks: seq<Block>, took: seq<int>, b: Block)
    requires Sized(cfg, blocks, took) && |blocks| == |took| && HasSize(cfg, b, SizeThen(cfg, took))
    ensures Sized(cfg, blocks + [b], took)
  {
    assert took[..|blocks|] == took;
  }

  lemma SizedTune(cfg: Config, blocks: seq<Block>, took: seq<int>, elapsed: int)
    requires Sized(cfg, blocks, took) && |blocks| == |took| + 1
    ensures Sized(cfg, blocks, took + [elapsed])
  {
    forall k | 0 <= k < |blocks| ensures HasSize(cfg, blocks[k], SizeThen(cfg, (took + [elapsed])[..k])) {
      assert (took + [elapsed])[..k] == took[..k];
    }
  }

  lemma ListsStep(cfg: Config, acts: seq<SrcAct>, act: SrcAct, src: Src)
    requires Moves(cfg, InitSrc(cfg), acts).Some? && Moves(cfg, InitSrc(cfg), acts).value.0 == src
    ensures Took(acts + [act]) == Took(acts) + if act.DoTune? then [act.elapsed] else []
    ensures var claim := if act.DoClaim? then Claimed(cfg, src, act.curr) else None;
            BlocksOf(cfg, acts + [act]) == BlocksOf(cfg, acts) + if claim.Some? then [claim.value] else []
  {
    assert (acts + [act])[..|acts|] == acts;
  }

  lemma AfterMore(first: nat, took: seq<int>, elapsed: int)
    ensures Tuner.After(first, took + [elapsed]) == Tuner.Adjust(Tuner.After(first, took), elapsed as real)
  {
    assert (took + [elapsed])[..|took|] == took;
  }

  /** One more move. */
  lemma SizesStep(cfg: Config, acts: seq<SrcAct>, act: SrcAct, src: Src)
    requires |cfg.files| < TWO32 && 0 < src.blockSize <= Tuner.MAX_BLOCK
    requires act.DoClaim? ==> act.curr + Tuner.MAX_BLOCK < TWO64
    requires Moves(cfg, InitSrc(cfg), acts).Some? && Moves(cfg, InitSrc(cfg), acts).value.0 == src
    requires SizesNow(cfg, acts, src) && Move(cfg, src, act).Some?
    ensures SizesNow(cfg, acts + [act], Move(cfg, src, act).value.0)
  {
    MoveSize(cfg, src, act);
    ListsStep(cfg, acts, act, src);
    var blocks, took := BlocksOf(cfg, acts), Took(acts);
    if act.DoClaim? && Claimed(cfg, src, act.curr).Some? {
      ClaimSized(cfg, src, act.curr);
      SizedClaim(cfg, blocks, took, Claimed(cfg, src, act.curr).value);
      assert took + [] == took;
    } else if act.DoTune? {
      SizedTune(cfg, blocks, took, act.elapsed);
      AfterMore(cfg.firstBlock, took, act.elapsed);
      assert blocks + [] == blocks;
    } else {
      assert blocks + [] == blocks && took + [] == took;
    }
  }

  /** In every run of moves the blocks have the sizes that the times of the sends give. */
  lemma {:induction false} RunSizes(cfg: Config, acts: seq<SrcAct>)
    requires |cfg.files| < TWO32 && 0 < cfg.firstBlock <= Tuner.MAX_BLOCK
    requires ClaimsFit(acts) && Moves(cfg, InitSrc(cfg), acts).Some?
    ensures SizesNow(cfg, acts, Moves(cfg, InitSrc(cfg), acts).value.0)
    decreases |acts|
  {
    if acts != [] {
      var before := acts[..|acts| - 1];
      RunSizes(cfg, before);
      Tuner.AfterBounds(cfg.firstBlock, Took(before));
      assert before + [acts[|acts| - 1]] == acts;
      SizesStep(cfg, before, acts[|acts| - 1], Moves(cfg, InitSrc(cfg), before).value.0);
    }
  }

  ghost predicate RunShape(cfg: Config, src: Src, out: seq<Token>, blocks: seq<Block>) {
    && TI.SrcInv(cfg, src)
    && out + Unsent(cfg, src) == TI.Tokens(cfg, blocks) + TI.TailPart(cfg, src)
  }

  lemma ClaimShape(cfg: Config, src: Src, out: seq<Token>, blocks: seq<Block>, curr: nat)
    requires cfg.Valid() && RunShape(cfg, src, out, blocks) && src.pc == Claiming && curr + src.blockSize < TWO64
    ensures var claim := Claimed(cfg, src, curr);
            && (claim.Some? ==> claim.value.size > 0)
            && RunShape(cfg, AfterClaim(cfg, src, curr), out + [], if claim.Some? then blocks + [claim.value] else blocks)
  {
    var claim := Claimed(cfg, src, curr);
    assert out + [] == out;
    assert TI.Tokens(cfg, blocks) + [] == TI.Tokens(cfg, blocks);
    if claim.Some? {
      assert claim.value.size > 0;
      TI.TokensAppend(cfg, blocks, claim.value);
      assert TI.Tokens(cfg, blocks + [claim.value]) + [] == TI.Tokens(cfg, blocks + [claim.value]);
    }
  }

  lemma SendShape(cfg: Config, src: Src, out: seq<Token>, blocks: seq<Block>, act: SrcAct)
    requires cfg.Valid() && RunShape(cfg, src, out, blocks) && !act.DoClaim? && Move(cfg, src, act).Some?
    ensures var (end, more) := Move(cfg, src, act).value;
            RunShape(cfg, end, out + more, blocks)
  {
    var (end, more) := Move(cfg, src, act).value;
    match act {
      case DoTune(elapsed) => Tuner.AdjustBounds(src.blockSize, elapsed);
      case DoByte => TI.BodyStep(cfg, src.pc.b, src.pc.sent);
      case _ =>
    }
    assert Unsent(cfg, src) == more + Unsent(cfg, end);
    assert out + (more + Unsent(cfg, end)) == out + more + Unsent(cfg, end);
  }

  lemma {:induction false} RunHasShape(cfg: Config, acts: seq<SrcAct>)
    requires cfg.Valid() && ClaimsFit(acts) && Moves(cfg, InitSrc(cfg), acts).Some?
    ensures var (src, out) := Moves(cfg, InitSrc(cfg), acts).value;
            RunShape(cfg, src, out, BlocksOf(cfg, acts))
    decreases |acts|
  {
    if acts == [] {
      assert TI.Tokens(cfg, []) == [];
    } else {
      var n := |acts| - 1;
      RunHasShape(cfg, acts[..n]);
      var (mid, out) := Moves(cfg, InitSrc(cfg), acts[..n]).value;
      if acts[n].DoClaim? {
        ClaimShape(cfg, mid, out, BlocksOf(cfg, acts[..n]), acts[n].curr);
      } else {
        SendShape(cfg, mid, out, BlocksOf(cfg, acts[..n]), acts[n]);
      }
    }
  }

  /** Every claimed block fits the fields of its header. */
  lemma {:induction false} BlocksEncodable(cfg: Config, acts: seq<SrcAct>)
    requires cfg.Valid() && ClaimsFit(acts) && Moves(cfg, InitSrc(cfg), acts).Some?
    ensures forall i :: 0 <= i < |BlocksOf(cfg, acts)| ==> Wire.Encodable(BlocksOf(cfg, acts)[i])
    decreases |acts|
  {
    if acts != [] {
      var n := |acts| - 1;
      BlocksEncodable(cfg, acts[..n]);
      RunHasShape(cfg, acts[..n]);
      var mid := Moves(cfg, InitSrc(cfg), acts[..n]).value.0;
      if acts[n].DoClaim? && acts[n].curr < cfg.Size(mid.file) {
        ClaimHere(cfg, mid, acts[n].curr);
        assert Claimed(cfg, mid, acts[n].curr).value
            == Block(mid.file, acts[n].curr, Min(mid.blockSize, cfg.Size(mid.file) - acts[n].curr));
      }
    }
  }

  /** What a channel that completed put on its socket parses, byte for byte, to the blocks it
      claimed with their file contents, and parsing stops right behind its tail. */
  lemma CompleteRunParses(cfg: Config, acts: seq<SrcAct>, blockSize: nat, sent: seq<Byte>, rest: seq<Byte>)
    requires cfg.Valid() && Performed(cfg, acts, Src(|cfg.files|, blockSize, SrcDone), sent)
    ensures Wire.Parse(sent + rest) == Wire.Complete(Wire.FramesOf(cfg, BlocksOf(cfg, acts)), rest)
  {
    RunHasShape(cfg, acts);
    BlocksEncodable(cfg, acts);
    var tokens := Moves(cfg, InitSrc(cfg), acts).value.1;
    assert tokens + [] == tokens;
    Wire.EncodeStream(cfg, BlocksOf(cfg, acts));
    Wire.ParseStream(cfg, BlocksOf(cfg, acts), rest);
  }
}
