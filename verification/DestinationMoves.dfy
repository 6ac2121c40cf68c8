/** The destination steps of the transfer system, seen from one channel
    (src/transfer.cpp:352-421): what module SourceChannel has for the source side. */
module DestinationMoves {
  import opened Basics
  import opened TransferModel

  /** `done` says whether the count was seen to reach the file size. */
  datatype DstAct =
    | GetHead(b: Block) | GetTail | GetByte | CountBlock(done: bool) | Release | Lose | Leave

  /** One destination step: the next phase of the channel. */
  function Move(dst: Dst, act: DstAct): Option<Dst> {
    match act
    case GetHead(b) => if dst == RecvHead && b.size > 0 then Some(RecvBody(b, 0)) else None
    case GetTail => if dst == RecvHead then Some(Exiting(true, NoPart)) else None
    case GetByte =>
      if dst.RecvBody? then Some(if dst.got + 1 < dst.b.size then RecvBody(dst.b, dst.got + 1) else Counting(dst.b)) else None
    case CountBlock(done) => if dst.Counting? then Some(if done then Releasing(dst.b.file) else RecvHead) else None
    case Release => if dst.Releasing? then Some(RecvHead) else None
    case Lose => if dst == RecvHead || dst.RecvBody? then Some(Exiting(false, PartOf(dst))) else None
    case Leave => if dst.Exiting? then Some(Exited(dst.ok, dst.part)) else None
  }

  predicate IsDst(l: Label) {
    l.DstHead? || l.DstByte? || l.DstCount? || l.DstRelease? || l.DstFail? || l.DstExit?
  }

  /** The action a label of the transfer system stands for. */
  function ActOf(cfg: Config, s: State, l: Label): DstAct
    requires Enabled(cfg, s, l) && IsDst(l)
  {
    match l
    case DstHead(c) => if s.chans[c].fifo[0].Head? then GetHead(s.chans[c].fifo[0].b) else GetTail
    case DstByte(_) => GetByte
    case DstCount(c) =>
      var b := s.chans[c].dst.b;
      CountBlock(b.file < |s.received| && U64(s.received[b.file] + b.size) == cfg.Size(b.file))
    case DstRelease(_) => Release
    case DstFail(_) => Lose
    case _ => Leave
  }

  /** The moves are the destination steps of the transfer system, which besides take the token
      they consume from the socket, store a byte at its offset, add a block's size to the count,
      and drop the mapping. */
  lemma MovesAreSteps(cfg: Config, s: State, l: Label)
    requires Enabled(cfg, s, l) && IsDst(l) && !Apply(cfg, s, l).aborted
    ensures var s' := Apply(cfg, s, l);
            var ch := s.chans[l.c];
            && |s'.chans| == |s.chans| && Move(ch.dst, ActOf(cfg, s, l)) == Some(s'.chans[l.c].dst)
            && s'.chans[l.c].fifo == (if l.DstHead? || l.DstByte? then ch.fifo[1..] else ch.fifo)
            && (l.DstByte? ==> ch.fifo[0].Data? && s'.dst == s.dst[ch.dst.b.file :=
                  s.dst[ch.dst.b.file][ch.dst.b.off + ch.dst.got := ch.fifo[0].v]])
            && (!l.DstByte? ==> s'.dst == s.dst)
            && s'.received == (if l.DstCount?
                               then s.received[ch.dst.b.file := U64(s.received[ch.dst.b.file] + ch.dst.b.size)] else s.received)
            && s'.mapped == (if l.DstRelease? then s.mapped[ch.dst.file := false] else s.mapped)
  {
    match l
    case DstHead(_) => case DstByte(_) => case DstCount(_) => case DstRelease(_) => case DstFail(_) => case DstExit(_) =>
  }

  // ----- runs of moves -----

  /** Where a run of moves from the loop head leads. */
  function Moves(acts: seq<DstAct>): Option<Dst>
    decreases |acts|
  {
    if acts == [] then Some(RecvHead)
    else
      match Moves(acts[..|acts| - 1])
      case None => None
      case Some(mid) => Move(mid, acts[|acts| - 1])
  }

  /** The blocks whose headers a run took, in order. */
  function Heads(acts: seq<DstAct>): seq<Block>
    decreases |acts|
  {
    if acts == [] then []
    else Heads(acts[..|acts| - 1]) + if acts[|acts| - 1].GetHead? then [acts[|acts| - 1].b] else []
  }

  /** A run of moves that took these blocks and is now at `dst`. */
  predicate Trace(acts: seq<DstAct>, dst: Dst, blocks: seq<Block>) {
    Moves(acts) == Some(dst) && Heads(acts) == blocks
  }

  lemma TraceMore(acts: seq<DstAct>, dst: Dst, blocks: seq<Block>, act: DstAct)
    requires Trace(acts, dst, blocks) && Move(dst, act).Some?
    ensures Trace(acts + [act], Move(dst, act).value, blocks + if act.GetHead? then [act.b] else [])
  {
    assert (acts + [act])[..|acts|] == acts;
  }

  function GetBytes(n: nat): seq<DstAct> { seq(n, _ => GetByte) }

  lemma {:induction false} TraceBytes(acts: seq<DstAct>, b: Block, blocks: seq<Block>, n: nat)
    requires Trace(acts, RecvBody(b, 0), blocks) && n <= b.size && b.size > 0
    ensures Trace(acts + GetBytes(n), if n < b.size then RecvBody(b, n) else Counting(b), blocks)
    decreases n
  {
    if n == 0 {
      assert acts + GetBytes(0) == acts;
    } else {
      TraceBytes(acts, b, blocks, n - 1);
      assert acts + GetBytes(n) == acts + GetBytes(n - 1) + [GetByte];
      assert blocks + [] == blocks;
      TraceMore(acts + GetBytes(n - 1), RecvBody(b, n - 1), blocks, GetByte);
    }
  }

  /** A block received, counted and, by the channel that completes the file, released. */
  function BlockActs(b: Block, done: bool): seq<DstAct> {
    [GetHead(b)] + GetBytes(b.size) + [CountBlock(done)] + if done then [Release] else []
  }

  lemma TraceBlock(acts: seq<DstAct>, blocks: seq<Block>, b: Block, done: bool)
    requires Trace(acts, RecvHead, blocks) && b.size > 0
    ensures Trace(acts + BlockActs(b, done), RecvHead, blocks + [b])
  {
    var more := blocks + [b];
    TraceMore(acts, RecvHead, blocks, GetHead(b));
    TraceBytes(acts + [GetHead(b)], b, more, b.size);
    var counted := acts + [GetHead(b)] + GetBytes(b.size);
    TraceMore(counted, Counting(b), more, CountBlock(done));
    assert more + [] == more;
    if done {
      TraceMore(counted + [CountBlock(done)], Releasing(b.file), more, Release);
      assert acts + BlockActs(b, done) == counted + [CountBlock(done)] + [Release];
    } else {
      assert acts + BlockActs(b, done) == counted + [CountBlock(done)];
    }
  }

  /** A block lost after `got` of its bytes. */
  function LostActs(b: Block, got: nat): seq<DstAct> { [GetHead(b)] + GetBytes(got) + [Lose] }

  lemma TraceLost(acts: seq<DstAct>, blocks: seq<Block>, b: Block, got: nat)
    requires Trace(acts, RecvHead, blocks) && got < b.size
    ensures Trace(acts + LostActs(b, got), Exiting(false, Part(b, got)), blocks + [b])
  {
    var more := blocks + [b];
    TraceMore(acts, RecvHead, blocks, GetHead(b));
    TraceBytes(acts + [GetHead(b)], b, more, got);
    var received := acts + [GetHead(b)] + GetBytes(got);
    TraceMore(received, RecvBody(b, got), more, Lose);
    assert more + [] == more;
    assert acts + LostActs(b, got) == received + [Lose];
  }
}
