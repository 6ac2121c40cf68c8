/** `transfer_destination::invoke_channel` as written: the receive loop of one channel
    (src/transfer.cpp:352-421), run while other channels fill, count and complete the same
    files. What the other channels may do meanwhile is the rely condition that
    TransferInvariant proves of them: they never touch this channel's byte positions and never
    count more than the file has left beside this channel's blocks. */
module DestinationChannel {
  import opened Basics
  import opened TransferModel
  import L = Ledger
  import M = DestinationMoves
  import Wire

  /** `recv_file_context`. `mine` are the positions of this channel's blocks in the file,
      `reserved` is how many bytes of them this channel has still to count. */
  class RecvContext {
    const size: nat
    const mine: set<nat>
    var content: seq<Byte>
    var received: nat
    var mapped: bool
    var reserved: nat

    ghost predicate Valid()
      reads this
    {
      && |content| == size < TWO64
      && received + reserved <= size
      && (reserved > 0 ==> mapped)
      && forall p :: p in mine ==> p < size
    }

    constructor (content: seq<Byte>, mine: set<nat>, reserved: nat)
      requires reserved <= |content| < TWO64
      requires forall p :: p in mine ==> p < |content|
      ensures Valid() && this.content == content && this.size == |content| && this.mine == mine
      ensures received == 0 && mapped == (|content| > 0) && this.reserved == reserved
    {
      size, this.content, this.mine := |content|, content, mine;
      received, mapped, this.reserved := 0, |content| > 0, reserved;
    }

    /** Any number of steps of the other channels. */
    method Interfere()
      requires Valid()
      modifies `content, `received, `mapped
      ensures Valid()
      ensures old(received) <= received
      ensures forall p :: p in mine ==> content[p] == old(content[p])
    {
      var more: nat :| received + more + reserved <= size;
      received := received + more;
      if received == size {
        mapped := *;
      }
      if * {
        var p: nat :| p <= size;
        if p < size && p !in mine {
          var v: Byte := *;
          content := content[p := v];
        }
      }
    }

    /** `received_size += blockSize`, between steps of others. */
    method AddReceived(blockSize: nat) returns (now: nat)
      requires Valid() && blockSize <= reserved
      modifies `content, `received, `mapped, `reserved
      ensures Valid()
      ensures reserved == old(reserved) - blockSize
      ensures now == received && old(received) + blockSize <= now <= size
      ensures forall p :: p in mine ==> content[p] == old(content[p])
      ensures blockSize > 0 ==> mapped
    {
      Interfere();
      received := U64(received + blockSize);
      reserved := reserved - blockSize;
      now := received;
    }

    method Unmap()
      requires Valid() && reserved == 0
      modifies `mapped
      ensures Valid() && !mapped
    {
      mapped := false;
    }
  }

  /** A connected socket: `incoming` is what the peer has sent or will send. A receive either
      delivers all it was asked for, or fails after delivering less, because the connection is
      broken from then on or because the peer sends no more. */
  class Socket {
    var incoming: seq<Byte>
    var broken: bool

    constructor (incoming: seq<Byte>)
      ensures this.incoming == incoming && !broken
    {
      this.incoming, broken := incoming, false;
    }

    method Recv(n: nat) returns (ok: bool, data: seq<Byte>)
      modifies this
      ensures |data| <= |old(incoming)| && |data| <= n && data == old(incoming)[..|data|]
      ensures ok <==> !broken
      ensures old(broken) ==> broken
      ensures ok ==> |data| == n
      ensures !ok && n > 0 ==> |data| < n
      ensures incoming == old(incoming)[|data|..]
    {
      var breaks: bool := *;
      broken := broken || breaks || |incoming| < n;
      ok := !broken;
      var got: nat :| got <= n && got <= |incoming| && (ok ==> got == n) && (!ok && n > 0 ==> got < n);
      data := incoming[..got];
      incoming := incoming[got..];
    }
  }

  /** `_gate_all_channels_finished`, of which a channel only uses `signal`. */
  class FinishGate {
    var signals: nat

    constructor ()
      ensures signals == 0
    {
      signals := 0;
    }

    method Signal()
      modifies this
      ensures signals == old(signals) + 1
    {
      signals := signals + 1;
    }
  }

  /** Bytes of the listed blocks that belong to file f. */
  function Bytes(blocks: seq<Block>, f: nat): nat {
    if blocks == [] then 0 else (if blocks[0].file == f then blocks[0].size else 0) + Bytes(blocks[1..], f)
  }

  ghost predicate BlocksOk(cfg: Config, blocks: seq<Block>) {
    forall i :: 0 <= i < |blocks| ==>
      && Wire.Encodable(blocks[i]) && blocks[i].file < |cfg.files|
      && blocks[i].off + blocks[i].size <= |cfg.files[blocks[i].file]|
  }

  ghost predicate CtxsOk(cfg: Config, ctx: seq<RecvContext>)
    reads ctx
  {
    && |ctx| == |cfg.files|
    && (forall f, g :: 0 <= f < g < |ctx| ==> ctx[f] != ctx[g])
    && (forall f :: 0 <= f < |ctx| ==> ctx[f].Valid() && ctx[f].size == |cfg.files[f]|)
  }

  /** The positions of the listed blocks are this channel's. */
  ghost predicate Owns(ctx: seq<RecvContext>, blocks: seq<Block>) {
    forall f: nat, p: nat {:trigger L.InSome(blocks, f, p)} ::
      f < |ctx| && L.InSome(blocks, f, p) ==> p in ctx[f].mine
  }

  ghost predicate Reserves(ctx: seq<RecvContext>, blocks: seq<Block>)
    reads ctx
  {
    forall f :: 0 <= f < |ctx| ==> ctx[f].reserved == Bytes(blocks, f)
  }

  /** The bytes of the listed blocks have arrived. */
  ghost predicate Arrived(cfg: Config, ctx: seq<RecvContext>, blocks: seq<Block>)
    requires CtxsOk(cfg, ctx)
    reads ctx
  {
    forall f: nat, p: nat {:trigger L.InSome(blocks, f, p)} ::
      f < |ctx| && p < |cfg.files[f]| && L.InSome(blocks, f, p) ==> ctx[f].content[p] == cfg.files[f][p]
  }

  lemma InSomeAppend(blocks: seq<Block>, b: Block, f: nat, p: nat)
    ensures L.InSome(blocks + [b], f, p) <==> L.InSome(blocks, f, p) || L.Covers(b, f, p)
  {
    if L.InSome(blocks, f, p) {
      var i :| 0 <= i < |blocks| && L.Covers(blocks[i], f, p);
      assert L.Covers((blocks + [b])[i], f, p);
    }
    if L.Covers(b, f, p) {
      assert L.Covers((blocks + [b])[|blocks|], f, p);
    }
  }

  /** Receive one body into the mapping and count it; the channel that sees the count reach the
      size unmaps the file. */
  method RecvBlock(cfg: Config, ctx: RecvContext, sock: Socket, b: Block)
    returns (ok: bool, ghost got: nat, ghost done: bool)
    requires ctx.Valid() && 0 < b.size <= ctx.reserved && b.file < |cfg.files|
    requires ctx.size == |cfg.files[b.file]| && b.off + b.size <= ctx.size
    requires forall p: nat | b.off <= p < b.off + b.size :: p in ctx.mine
    requires |sock.incoming| >= b.size && sock.incoming[..b.size] == cfg.files[b.file][b.off..b.off + b.size]
    modifies ctx, sock
    ensures ctx.Valid()
    ensures forall p :: p in ctx.mine ==>
              || ctx.content[p] == old(ctx.content[p])
              || (b.off <= p < b.off + b.size && ctx.content[p] == cfg.files[b.file][p])
    ensures (ok <==> !sock.broken) && (old(sock.broken) ==> sock.broken)
    ensures ok ==> sock.incoming == old(sock.incoming)[b.size..]
    ensures ok ==> ctx.reserved == old(ctx.reserved) - b.size
    ensures ok ==> forall p: nat | b.off <= p < b.off + b.size :: ctx.content[p] == cfg.files[b.file][p]
    ensures ok ==> old(ctx.received) + b.size <= ctx.received <= ctx.size
    ensures ok ==> (done <==> ctx.received == ctx.size) && (done ==> !ctx.mapped)
    ensures !ok ==> got < b.size && ctx.received == old(ctx.received) && ctx.reserved == old(ctx.reserved)
  {
    var data;
    ok, data := sock.Recv(b.size);
    got, done := |data|, false;
    ghost var was := ctx.content;
    ctx.content := ctx.content[..b.off] + data + ctx.content[b.off + |data|..];
    assert forall p :: 0 <= p < ctx.size ==>
             ctx.content[p] == if b.off <= p < b.off + |data| then cfg.files[b.file][p] else was[p];
    if !ok {
      return;
    }
    var now := ctx.AddReceived(b.size);
    assert now <= ctx.size;
    if now == ctx.size {
      ctx.Unmap();
    }
    done := now == ctx.size;
  }

  /** What a file's count and this channel's reservation add up to; it never falls. */
  ghost function Total(ctx: RecvContext): nat
    reads ctx
  {
    ctx.received + ctx.reserved
  }

  ghost function Totals(ctx: seq<RecvContext>): seq<nat>
    reads ctx
  {
    seq(|ctx|, f requires 0 <= f < |ctx| reads ctx => Total(ctx[f]))
  }

  ghost predicate AtLeast(ctx: seq<RecvContext>, totals: seq<nat>)
    reads ctx
  {
    |totals| == |ctx| && forall f :: 0 <= f < |ctx| ==> Total(ctx[f]) >= totals[f]
  }

  ghost function Contents(ctx: seq<RecvContext>): seq<seq<Byte>>
    reads ctx
  {
    seq(|ctx|, f requires 0 <= f < |ctx| reads ctx => ctx[f].content)
  }

  /** This channel's positions hold what they held in `was` or the source's bytes. */
  ghost predicate OnlySourceBytes(cfg: Config, ctx: seq<RecvContext>, was: seq<seq<Byte>>)
    requires CtxsOk(cfg, ctx)
    reads ctx
  {
    && |was| == |ctx|
    && (forall f :: 0 <= f < |ctx| ==> |was[f]| == ctx[f].size)
    && forall f, p | 0 <= f < |ctx| && p in ctx[f].mine ::
         ctx[f].content[p] == was[f][p] || ctx[f].content[p] == cfg.files[f][p]
  }

  /** One body, received into the mapping of its file while others go on. */
  method RecvFrame(cfg: Config, ctx: seq<RecvContext>, sock: Socket, b: Block,
                   ghost blocks: seq<Block>, ghost k: nat, ghost was: seq<seq<Byte>>, ghost totals: seq<nat>)
    returns (ok: bool, ghost got: nat, ghost done: bool)
    requires BlocksOk(cfg, blocks) && CtxsOk(cfg, ctx) && k < |blocks| && b == blocks[k]
    requires Owns(ctx, blocks) && Reserves(ctx, blocks[k..]) && Arrived(cfg, ctx, blocks[..k])
    requires |sock.incoming| >= b.size && sock.incoming[..b.size] == cfg.files[b.file][b.off..b.off + b.size]
    requires OnlySourceBytes(cfg, ctx, was) && AtLeast(ctx, totals)
    modifies ctx[b.file], sock
    ensures CtxsOk(cfg, ctx) && OnlySourceBytes(cfg, ctx, was) && AtLeast(ctx, totals)
    ensures (ok <==> !sock.broken) && (!ok ==> got < b.size)
    ensures ok ==> (done <==> ctx[b.file].received == ctx[b.file].size) && (done ==> !ctx[b.file].mapped)
    ensures ok ==> sock.incoming == old(sock.incoming)[b.size..]
    ensures ok ==> Reserves(ctx, blocks[k + 1..]) && Arrived(cfg, ctx, blocks[..k + 1])
  {
    MyBlock(cfg, ctx, blocks, k);
    ctx[b.file].Interfere();
    assert ctx[b.file].mapped;
    ok, got, done := RecvBlock(cfg, ctx[b.file], sock, b);
    if ok {
      assert blocks[k..][1..] == blocks[k + 1..];
      assert forall f :: Bytes(blocks[k..], f) == (if b.file == f then b.size else 0) + Bytes(blocks[k + 1..], f);
      assert blocks[..k + 1] == blocks[..k] + [b];
      forall f: nat, p: nat | f < |ctx| && p < |cfg.files[f]| && L.InSome(blocks[..k + 1], f, p)
        ensures ctx[f].content[p] == cfg.files[f][p]
      {
        InSomeAppend(blocks[..k], b, f, p);
        PrefixInSome(blocks, k, f, p);
      }
    }
  }

  lemma PrefixInSome(blocks: seq<Block>, k: nat, f: nat, p: nat)
    requires k <= |blocks|
    ensures L.InSome(blocks[..k], f, p) ==> L.InSome(blocks, f, p)
  {
    if L.InSome(blocks[..k], f, p) {
      var i :| 0 <= i < k && L.Covers(blocks[..k][i], f, p);
      assert L.Covers(blocks[i], f, p);
    }
  }

  lemma Split(h: seq<Byte>, body: seq<Byte>, tail: seq<Byte>, rest: seq<Byte>)
    ensures var all := h + body + tail + rest;
            && |all| >= |h| + |body| && all[..|h|] == h
            && all[|h|..][..|body|] == body && all[|h|..][|body|..] == tail + rest
  { }

  /** The stream continues with the tail, or with a header, its body and the other blocks. */
  ghost predicate Follows(cfg: Config, blocks: seq<Block>, rest: seq<Byte>, b: Block, incoming: seq<Byte>)
    requires BlocksOk(cfg, blocks)
  {
    if blocks == [] then
      b == Block(Wire.TAIL_FILE, Wire.TAIL_OFFSET, 0) && incoming == rest
    else
      && b == blocks[0] && |incoming| >= b.size
      && incoming[..b.size] == cfg.files[b.file][b.off..b.off + b.size]
      && incoming[b.size..] == Wire.StreamBytes(cfg, blocks[1..]) + rest
  }

  lemma TailArrives(cfg: Config, rest: seq<Byte>)
    ensures var bytes := Wire.StreamBytes(cfg, []) + rest;
            |bytes| >= 16 && Follows(cfg, [], rest, Wire.DecodeHeader(bytes[..16]), bytes[16..])
  {
    Wire.TailDecodes();
    Split(Wire.TailBytes(), [], [], rest);
    assert Wire.TailBytes() + [] + [] + rest == Wire.StreamBytes(cfg, []) + rest;
    assert [] + rest == rest;
  }

  lemma BlockArrives(cfg: Config, blocks: seq<Block>, rest: seq<Byte>)
    requires BlocksOk(cfg, blocks) && blocks != []
    ensures var bytes := Wire.StreamBytes(cfg, blocks) + rest;
            |bytes| >= 16 && bytes[..16] == Wire.HeaderBytes(blocks[0].off, blocks[0].size, blocks[0].file)
                          && Follows(cfg, blocks, rest, blocks[0], bytes[16..])
  {
    var b := blocks[0];
    var h, body, tail := Wire.HeaderBytes(b.off, b.size, b.file), Wire.BodyBytes(cfg, b), Wire.StreamBytes(cfg, blocks[1..]);
    assert Wire.StreamBytes(cfg, blocks) == h + body + tail;
    Split(h, body, tail, rest);
    Wire.BodyIsSlice(cfg, b);
  }

  /** The next 16 bytes, decoded. */
  method RecvHeader(cfg: Config, sock: Socket, ghost blocks: seq<Block>, ghost rest: seq<Byte>) returns (ok: bool, b: Block)
    requires BlocksOk(cfg, blocks) && sock.incoming == Wire.StreamBytes(cfg, blocks) + rest
    modifies sock
    ensures ok <==> !sock.broken
    ensures ok ==> |sock.incoming| + 16 == |old(sock.incoming)| && Follows(cfg, blocks, rest, b, sock.incoming)
  {
    if blocks == [] {
      TailArrives(cfg, rest);
    } else {
      BlockArrives(cfg, blocks, rest);
      Wire.HeaderRoundTrip(blocks[0]);
    }
    var header;
    ok, header := sock.Recv(16);
    if ok {
      b := Wire.DecodeHeader(header);
    } else {
      b := Block(0, 0, 0);
    }
  }

  /** The receive loop: a run of destination moves that takes the blocks in order. */
  method ReceiveLoop(cfg: Config, ctx: seq<RecvContext>, sock: Socket, ghost blocks: seq<Block>, ghost rest: seq<Byte>)
    returns (ok: bool, ghost acts: seq<M.DstAct>)
    requires BlocksOk(cfg, blocks) && CtxsOk(cfg, ctx)
    requires Owns(ctx, blocks) && Reserves(ctx, blocks)
    requires sock.incoming == Wire.StreamBytes(cfg, blocks) + rest && !sock.broken
    modifies ctx, sock
    ensures CtxsOk(cfg, ctx) && OnlySourceBytes(cfg, ctx, old(Contents(ctx)))
    ensures ok <==> !sock.broken
    ensures ok ==> sock.incoming == rest && Arrived(cfg, ctx, blocks)
    ensures ok ==> forall f :: 0 <= f < |ctx| ==> ctx[f].reserved == 0
    ensures AtLeast(ctx, old(Totals(ctx)))
    ensures ok ==> M.Trace(acts, Exiting(true, NoPart), blocks)
    ensures !ok ==> Lost(acts, blocks)
  {
    ghost var k := 0;
    ghost var was := Contents(ctx);
    ghost var totals := Totals(ctx);
    acts := [];
    assert blocks[0..] == blocks && blocks[..0] == [];
    var more := true;
    ok := true;
    while ok && more
      invariant k <= |blocks| && CtxsOk(cfg, ctx) && OnlySourceBytes(cfg, ctx, was) && AtLeast(ctx, totals)
      invariant ok && more ==> Midway(cfg, ctx, sock, blocks, k, rest, acts)
      invariant ok && !more ==> AllIn(cfg, ctx, sock, blocks, rest, acts)
      invariant (ok <==> !sock.broken) && (!ok ==> Lost(acts, blocks))
      decreases ok && more, |sock.incoming|
    {
      ok, more, acts := RecvOne(cfg, ctx, sock, blocks, k, rest, was, totals, acts);
      if ok && more { k := k + 1; }
    }
  }

  /** The first k blocks have arrived, the others are still reserved and on the socket. */
  ghost predicate Midway(cfg: Config, ctx: seq<RecvContext>, sock: Socket, blocks: seq<Block>, k: nat, rest: seq<Byte>,
                         acts: seq<M.DstAct>)
    requires BlocksOk(cfg, blocks) && CtxsOk(cfg, ctx) && k <= |blocks|
    reads ctx, sock
  {
    && Reserves(ctx, blocks[k..]) && Arrived(cfg, ctx, blocks[..k])
    && sock.incoming == Wire.StreamBytes(cfg, blocks[k..]) + rest && M.Trace(acts, RecvHead, blocks[..k])
  }

  ghost predicate AllIn(cfg: Config, ctx: seq<RecvContext>, sock: Socket, blocks: seq<Block>, rest: seq<Byte>,
                        acts: seq<M.DstAct>)
    requires CtxsOk(cfg, ctx)
    reads ctx, sock
  {
    && sock.incoming == rest && Arrived(cfg, ctx, blocks) && M.Trace(acts, Exiting(true, NoPart), blocks)
    && forall f :: 0 <= f < |ctx| ==> ctx[f].reserved == 0
  }

  /** Behind the tail. */
  lemma AllTaken(cfg: Config, ctx: seq<RecvContext>, sock: Socket, blocks: seq<Block>, acts: seq<M.DstAct>, rest: seq<Byte>)
    requires CtxsOk(cfg, ctx) && sock.incoming == rest && M.Trace(acts, Exiting(true, NoPart), blocks[..|blocks|])
    requires Reserves(ctx, blocks[|blocks|..]) && Arrived(cfg, ctx, blocks[..|blocks|])
    ensures AllIn(cfg, ctx, sock, blocks, rest, acts)
  {
    assert blocks[..|blocks|] == blocks && blocks[|blocks|..] == [];
  }

  /** A run of moves that broke off in or before one of the blocks. */
  ghost predicate Lost(acts: seq<M.DstAct>, blocks: seq<Block>) {
    exists k: nat, part :: k <= |blocks| && BrokeAt(acts, blocks, k, part)
  }

  predicate BrokeAt(acts: seq<M.DstAct>, blocks: seq<Block>, k: nat, part: Partial)
    requires k <= |blocks|
  {
    && M.Trace(acts, Exiting(false, part), blocks[..k])
    && (part.Part? ==> k > 0 && part.b == blocks[k - 1] && part.got < part.b.size)
  }

  /** One turn of the loop: the tail, or one block. */
  method RecvOne(cfg: Config, ctx: seq<RecvContext>, sock: Socket,
                 ghost blocks: seq<Block>, ghost k: nat, ghost rest: seq<Byte>, ghost was: seq<seq<Byte>>,
                 ghost totals: seq<nat>, ghost acts: seq<M.DstAct>)
    returns (ok: bool, more: bool, ghost acts': seq<M.DstAct>)
    requires BlocksOk(cfg, blocks) && CtxsOk(cfg, ctx) && k <= |blocks|
    requires Owns(ctx, blocks) && OnlySourceBytes(cfg, ctx, was) && AtLeast(ctx, totals)
    requires Midway(cfg, ctx, sock, blocks, k, rest, acts)
    modifies ctx, sock
    ensures CtxsOk(cfg, ctx) && OnlySourceBytes(cfg, ctx, was) && AtLeast(ctx, totals)
    ensures (ok <==> !sock.broken) && (!ok ==> Lost(acts', blocks))
    ensures ok && !more ==> AllIn(cfg, ctx, sock, blocks, rest, acts')
    ensures ok && more ==>
              k < |blocks| && Midway(cfg, ctx, sock, blocks, k + 1, rest, acts') && |sock.incoming| < |old(sock.incoming)|
  {
    more := true;
    var b;
    ok, b := RecvHeader(cfg, sock, blocks[k..], rest);
    if !ok {
      acts' := acts + [M.Lose];
      LoseHead(acts, blocks, k);
      return;
    }
    if b.size == 0 {
      assert b.off == Wire.TAIL_OFFSET && b.file == Wire.TAIL_FILE;
      more := false;
      acts' := acts + [M.GetTail];
      M.TraceMore(acts, RecvHead, blocks[..k], M.GetTail);
      assert blocks[..k] + [] == blocks[..k];
      AllTaken(cfg, ctx, sock, blocks, acts', rest);
      return;
    }
    assert b == blocks[k] && blocks[k..][1..] == blocks[k + 1..];
    assert b.file < |ctx|;
    ghost var got, done;
    ok, got, done := RecvFrame(cfg, ctx, sock, b, blocks, k, was, totals);
    acts' := acts + if ok then M.BlockActs(b, done) else M.LostActs(b, got);
    if ok { TakeBlock(acts, blocks, k, done); } else { LoseBlock(acts, blocks, k, got); }
  }

  lemma LoseHead(acts: seq<M.DstAct>, blocks: seq<Block>, k: nat)
    requires k <= |blocks| && M.Trace(acts, RecvHead, blocks[..k])
    ensures Lost(acts + [M.Lose], blocks)
  {
    M.TraceMore(acts, RecvHead, blocks[..k], M.Lose);
    assert blocks[..k] + [] == blocks[..k];
    assert BrokeAt(acts + [M.Lose], blocks, k, NoPart);
  }

  lemma LoseBlock(acts: seq<M.DstAct>, blocks: seq<Block>, k: nat, got: nat)
    requires k < |blocks| && got < blocks[k].size && M.Trace(acts, RecvHead, blocks[..k])
    ensures Lost(acts + M.LostActs(blocks[k], got), blocks)
  {
    M.TraceLost(acts, blocks[..k], blocks[k], got);
    assert blocks[..k] + [blocks[k]] == blocks[..k + 1];
    assert BrokeAt(acts + M.LostActs(blocks[k], got), blocks, k + 1, Part(blocks[k], got));
  }

  lemma TakeBlock(acts: seq<M.DstAct>, blocks: seq<Block>, k: nat, done: bool)
    requires k < |blocks| && blocks[k].size > 0 && M.Trace(acts, RecvHead, blocks[..k])
    ensures M.Trace(acts + M.BlockActs(blocks[k], done), RecvHead, blocks[..k + 1])
  {
    M.TraceBlock(acts, blocks[..k], blocks[k], done);
    assert blocks[..k] + [blocks[k]] == blocks[..k + 1];
  }

  lemma MyBlock(cfg: Config, ctx: seq<RecvContext>, blocks: seq<Block>, k: nat)
    requires k < |blocks| && CtxsOk(cfg, ctx) && Owns(ctx, blocks) && BlocksOk(cfg, blocks)
    requires Reserves(ctx, blocks[k..])
    ensures var b := blocks[k];
            && (forall p: nat | b.off <= p < b.off + b.size :: p in ctx[b.file].mine)
            && b.size <= ctx[b.file].reserved
  {
    var b := blocks[k];
    forall p: nat | b.off <= p < b.off + b.size ensures p in ctx[b.file].mine {
      assert L.Covers(blocks[k], b.file, p);
      assert L.InSome(blocks, b.file, p);
    }
    assert blocks[k..][0] == b;
  }

  /** The channel function: the loop, and the gate signalled on every way out. It succeeds
      exactly when the connection holds. On success
      every byte of every block the peer sent on this channel is in its place, exactly the
      stream up to and including the tail was consumed, and every count has grown by the
      blocks' bytes. In any case it performed a run of destination moves that ends in leaving,
      and this channel's positions hold what they held before or the source's bytes. */
  method InvokeChannel(cfg: Config, ctx: seq<RecvContext>, sock: Socket, gate: FinishGate,
                       ghost blocks: seq<Block>, ghost rest: seq<Byte>)
    returns (ok: bool, ghost acts: seq<M.DstAct>)
    requires BlocksOk(cfg, blocks) && CtxsOk(cfg, ctx)
    requires Owns(ctx, blocks) && Reserves(ctx, blocks)
    requires sock.incoming == Wire.StreamBytes(cfg, blocks) + rest && !sock.broken
    modifies ctx, sock, gate
    ensures ok <==> !sock.broken
    ensures CtxsOk(cfg, ctx) && OnlySourceBytes(cfg, ctx, old(Contents(ctx))) && gate.signals == old(gate.signals) + 1
    ensures ok ==> sock.incoming == rest && Arrived(cfg, ctx, blocks)
    ensures ok ==> forall f :: 0 <= f < |ctx| ==> ctx[f].received >= old(ctx[f].received) + Bytes(blocks, f)
    ensures M.Moves(acts).Some? && M.Moves(acts).value.Exited? && M.Moves(acts).value.ok == ok
    ensures ok ==> M.Trace(acts, Exited(true, NoPart), blocks)
  {
    ghost var totals := Totals(ctx);
    ok, acts := ReceiveLoop(cfg, ctx, sock, blocks, rest);
    LeaveTrace(acts, ok, blocks);
    acts := acts + [M.Leave];
    assert ok ==> forall f :: 0 <= f < |ctx| ==> Total(ctx[f]) >= totals[f];
    gate.Signal();
  }

  lemma LeaveTrace(acts: seq<M.DstAct>, ok: bool, blocks: seq<Block>)
    requires if ok then M.Trace(acts, Exiting(true, NoPart), blocks) else Lost(acts, blocks)
    ensures var dst := M.Moves(acts + [M.Leave]); dst.Some? && dst.value.Exited? && dst.value.ok == ok
    ensures ok ==> M.Trace(acts + [M.Leave], Exited(true, NoPart), blocks)
  {
    if ok {
      M.TraceMore(acts, Exiting(true, NoPart), blocks, M.Leave);
      assert blocks + [] == blocks;
    } else {
      var k: nat, part :| k <= |blocks| && BrokeAt(acts, blocks, k, part);
      M.TraceMore(acts, Exiting(false, part), blocks[..k], M.Leave);
    }
  }
}
