/** The rely condition of DestinationChannel, proved of the transfer system: what a destination
    channel assumes of the others (RecvContext.Interfere), for all blocks it has been and will
    be sent, is what every step of another thread does in every run (src/transfer.cpp:386-411). */
module Rely {
  import opened Basics
  import opened TransferModel
  import opened TransferInvariant
  import D = DestinationChannel
  import L = Ledger
  import TT = TransferTheorems

  /** All blocks on their way on one channel fit in what the file still lacks. */
  lemma {:induction false} PendingRoom(l: L.Ledger, c: nat, f: nat)
    requires L.Inv(l) && c < |l.pend| && f < |l.sizes|
    ensures |l.counted[f]| + D.Bytes(l.pend[c], f) <= l.sizes[f]
    decreases |l.pend[c]|
  {
    if l.pend[c] == [] {
      L.FullMeansAll(l, f);
    } else {
      assert l.BlockOk(l.pend[c][0]);
      L.CountPreserves(l, c);
      L.CountedGrows(l, c);
      PendingRoom(L.Count(l, c), c, f);
    }
  }

  /** In a reachable state a channel's blocks on their way are reserved: their bytes fit beside
      the count, and their files are mapped. */
  lemma Reserved(cfg: Config, s: State, c: nat, f: nat)
    requires Inv(cfg, s) && c < |s.chans| && f < |cfg.files|
    ensures s.received[f] + D.Bytes(s.chans[c].pend, f) <= |cfg.files[f]|
    ensures D.Bytes(s.chans[c].pend, f) > 0 ==> s.mapped[f]
  {
    PendingRoom(LedgerOf(cfg, s), c, f);
  }

  /** The thread that makes a step, if it is a channel. */
  predicate MadeBy(l: Label, c: nat) { !l.PortalPass? && !l.PortalFail? && l.c == c }

  lemma OthersKeep(cfg: Config, s: State, l: Label, c: nat)
    requires Enabled(cfg, s, l) && c < |s.chans| && !MadeBy(l, c)
    ensures |Apply(cfg, s, l).chans| == |s.chans| && Apply(cfg, s, l).chans[c] == s.chans[c]
  { }

  lemma OnlyBytesWrite(cfg: Config, s: State, l: Label)
    requires Enabled(cfg, s, l) && !l.DstByte?
    ensures Apply(cfg, s, l).dst == s.dst
  { }

  /** A byte another channel writes lies in that channel's own oldest block. */
  lemma WritesElsewhere(cfg: Config, s: State, d: nat, c: nat, i: nat, f: nat, p: nat)
    requires Inv(cfg, s) && Enabled(cfg, s, DstByte(d)) && c < |s.chans| && c != d && i < |s.chans[c].pend|
    requires L.Covers(s.chans[c].pend[i], f, p)
    ensures !(s.chans[d].dst.b.file == f && s.chans[d].dst.b.off + s.chans[d].dst.got == p)
  {
    TT.ByteHits(cfg, s, d);
    assert ChanInv(cfg, s.chans[d]);
    var l := LedgerOf(cfg, s);
    assert L.Apart(l.pend[c][i], l.pend[d][0]);
  }

  lemma ByteKeeps(cfg: Config, s: State, d: nat, f: nat, p: nat)
    requires WriteHits(cfg, s, d) && Enabled(cfg, s, DstByte(d)) && s.chans[d].dst.b == s.chans[d].pend[0]
    requires f < |cfg.files| && p < |cfg.files[f]|
    requires !(s.chans[d].dst.b.file == f && s.chans[d].dst.b.off + s.chans[d].dst.got == p)
    ensures SameByte(s, Apply(cfg, s, DstByte(d)), f, p)
  {
    ByteEffect(cfg, s, d);
  }

  lemma BytesStay(cfg: Config, s: State, l: Label, c: nat, i: nat, f: nat, p: nat)
    requires Inv(cfg, s) && Enabled(cfg, s, l) && c < |s.chans| && !MadeBy(l, c) && i < |s.chans[c].pend|
    requires f < |cfg.files| && L.Covers(s.chans[c].pend[i], f, p)
    ensures SameByte(s, Apply(cfg, s, l), f, p)
  {
    var ledger := LedgerOf(cfg, s);
    assert ledger.BlockOk(ledger.pend[c][i]);
    if l.DstByte? {
      TT.ByteHits(cfg, s, l.c);
      WritesElsewhere(cfg, s, l.c, c, i, f, p);
      ByteKeeps(cfg, s, l.c, f, p);
    } else {
      OnlyBytesWrite(cfg, s, l);
    }
  }

  lemma OnlyCountsAdd(cfg: Config, s: State, l: Label)
    requires Enabled(cfg, s, l) && !l.DstCount?
    ensures Apply(cfg, s, l).received == s.received
  { }

  lemma CountAdds(cfg: Config, s: State, c: nat, f: nat)
    requires cfg.Valid() && Enabled(cfg, s, DstCount(c)) && DstInv(s.chans[c]) && OldestFits(cfg, s, c) && f < |cfg.files|
    ensures |ApplyDstCount(cfg, s, c).received| == |s.received| && s.received[f] <= ApplyDstCount(cfg, s, c).received[f]
  {
    CountEffect(cfg, s, c);
  }

  lemma CountGrows(cfg: Config, s: State, l: Label, f: nat)
    requires Inv(cfg, s) && Enabled(cfg, s, l) && f < |cfg.files|
    ensures |Apply(cfg, s, l).received| == |s.received| && s.received[f] <= Apply(cfg, s, l).received[f]
  {
    if l.DstCount? {
      TT.CountFits(cfg, s, l.c);
      CountAdds(cfg, s, l.c, f);
    } else {
      OnlyCountsAdd(cfg, s, l);
    }
  }

  predicate SameByte(s: State, s': State, f: nat, p: nat) {
    && f < |s.dst| == |s'.dst| && p < |s.dst[f]| == |s'.dst[f]| && s'.dst[f][p] == s.dst[f][p]
  }

  // ----- blocks still to be claimed -----

  /** The block that channel c claims with this step, if any. */
  function ClaimOf(cfg: Config, s: State, l: Label, c: nat): seq<Block>
    requires Enabled(cfg, s, l)
  {
    if l != SrcClaim(c) then []
    else
      match Claimed(cfg, s.chans[c].src, s.offset[s.chans[c].src.file])
      case None => []
      case Some(b) => [b]
  }

  /** The blocks channel c claims while `more` runs after `labels`. */
  function ClaimedIn(cfg: Config, labels: seq<Label>, more: seq<Label>, c: nat): seq<Block>
    requires cfg.Valid()
    decreases |more|
  {
    if more == [] || Exec(cfg, labels).None? || !Enabled(cfg, Exec(cfg, labels).value, more[0]) then []
    else ClaimOf(cfg, Exec(cfg, labels).value, more[0], c) + ClaimedIn(cfg, labels + [more[0]], more[1..], c)
  }

  /** All blocks channel c has still to receive, after `labels`, in this continuation. */
  function Future(cfg: Config, labels: seq<Label>, more: seq<Label>, c: nat): seq<Block>
    requires cfg.Valid() && Exec(cfg, labels).Some? && c < |Exec(cfg, labels).value.chans|
  {
    Exec(cfg, labels).value.chans[c].pend + ClaimedIn(cfg, labels, more, c)
  }

  lemma {:induction false} PrefixRuns(cfg: Config, labels: seq<Label>, more: seq<Label>)
    requires cfg.Valid() && Exec(cfg, labels + more).Some?
    ensures Exec(cfg, labels).Some?
    decreases |more|
  {
    if more == [] {
      assert labels + more == labels;
    } else {
      assert (labels + more)[..|labels + more| - 1] == labels + more[..|more| - 1];
      PrefixRuns(cfg, labels, more[..|more| - 1]);
    }
  }

  lemma LastStep(cfg: Config, labels: seq<Label>, l: Label)
    requires cfg.Valid() && Exec(cfg, labels + [l]).Some?
    ensures Exec(cfg, labels).Some? && Enabled(cfg, Exec(cfg, labels).value, l)
    ensures Exec(cfg, labels + [l]) == Some(Apply(cfg, Exec(cfg, labels).value, l))
  {
    assert (labels + [l])[..|labels|] == labels;
  }

  lemma ExecPrefix(cfg: Config, labels: seq<Label>, more: seq<Label>)
    requires cfg.Valid() && Exec(cfg, labels + more).Some?
    ensures Exec(cfg, labels).Some?
    ensures more != [] ==>
              && Enabled(cfg, Exec(cfg, labels).value, more[0])
              && Exec(cfg, labels + [more[0]]) == Some(Apply(cfg, Exec(cfg, labels).value, more[0]))
              && labels + [more[0]] + more[1..] == labels + more
  {
    PrefixRuns(cfg, labels, more);
    if more != [] {
      assert labels + [more[0]] + more[1..] == labels + more;
      PrefixRuns(cfg, labels + [more[0]], more[1..]);
      LastStep(cfg, labels, more[0]);
    }
  }

  /** How a step changes the blocks on their way on channel c. */
  lemma PendStep(cfg: Config, s: State, l: Label, c: nat)
    requires Enabled(cfg, s, l) && c < |s.chans| && !Apply(cfg, s, l).aborted
    requires l == DstCount(c) ==> s.chans[c].pend != []
    ensures var s' := Apply(cfg, s, l);
            && c < |s'.chans|
            && s'.chans[c].pend
               == if l == DstCount(c) then s.chans[c].pend[1..] else s.chans[c].pend + ClaimOf(cfg, s, l, c)
  { }

  lemma CountsBlock(cfg: Config, s: State, c: nat, f: nat)
    requires cfg.Valid() && Enabled(cfg, s, DstCount(c)) && DstInv(s.chans[c]) && OldestFits(cfg, s, c) && f < |cfg.files|
    ensures var b, s' := s.chans[c].pend[0], ApplyDstCount(cfg, s, c);
            |s'.received| == |s.received| && s'.received[f] == s.received[f] + if b.file == f then b.size else 0
  {
    CountEffect(cfg, s, c);
  }

  /** What is reserved, whatever is claimed later. */
  ghost predicate SumsUp(cfg: Config, s: State, s': State, before: seq<Block>, after: seq<Block>, f: nat) {
    && f < |s.received| == |s'.received|
    && s.received[f] + D.Bytes(before, f) <= s'.received[f] + D.Bytes(after, f)
  }

  lemma CountSums(cfg: Config, s: State, c: nat, f: nat, rest: seq<Block>)
    requires Inv(cfg, s) && Enabled(cfg, s, DstCount(c)) && f < |cfg.files|
    ensures var s' := Apply(cfg, s, DstCount(c));
            c < |s'.chans| && SumsUp(cfg, s, s', s.chans[c].pend + rest, s'.chans[c].pend + rest, f)
  {
    TT.CountFits(cfg, s, c);
    CountsBlock(cfg, s, c, f);
    CountEffect(cfg, s, c);
    assert (s.chans[c].pend + rest)[1..] == s.chans[c].pend[1..] + rest;
  }

  lemma OtherPends(cfg: Config, s: State, l: Label, c: nat, rest: seq<Block>)
    requires Enabled(cfg, s, l) && !Apply(cfg, s, l).aborted && c < |s.chans| && l != DstCount(c)
    ensures var s' := Apply(cfg, s, l);
            c < |s'.chans| && s'.chans[c].pend + rest == s.chans[c].pend + (ClaimOf(cfg, s, l, c) + rest)
  {
    PendStep(cfg, s, l, c);
    var claim := ClaimOf(cfg, s, l, c);
    assert s.chans[c].pend + (claim + rest) == s.chans[c].pend + claim + rest;
  }

  lemma OtherSums(cfg: Config, s: State, l: Label, blocks: seq<Block>, f: nat)
    requires Inv(cfg, s) && Enabled(cfg, s, l) && f < |cfg.files|
    ensures SumsUp(cfg, s, Apply(cfg, s, l), blocks, blocks, f)
  {
    CountGrows(cfg, s, l, f);
  }

  /** A step keeps what this channel has still to receive, except that it counts its oldest
      block; the counts make up for that. */
  lemma FutureStep(cfg: Config, labels: seq<Label>, more: seq<Label>, c: nat, f: nat)
    requires cfg.Valid() && Exec(cfg, labels + more).Some? && more != [] && c < cfg.channels && f < |cfg.files|
    ensures Exec(cfg, labels).Some? && Exec(cfg, labels + [more[0]]).Some?
    ensures var s, s' := Exec(cfg, labels).value, Exec(cfg, labels + [more[0]]).value;
            && |s.chans| == |s'.chans| == cfg.channels
            && SumsUp(cfg, s, s', Future(cfg, labels, more, c), Future(cfg, labels + [more[0]], more[1..], c), f)
            && (!MadeBy(more[0], c) ==> Future(cfg, labels, more, c) == Future(cfg, labels + [more[0]], more[1..], c))
  {
    ExecPrefix(cfg, labels, more);
    BothShapes(cfg, labels, more[0]);
    var s := Exec(cfg, labels).value;
    var rest := ClaimedIn(cfg, labels + [more[0]], more[1..], c);
    if more[0] == DstCount(c) {
      CountSums(cfg, s, c, f, rest);
      assert [] + rest == rest;
    } else {
      OtherPends(cfg, s, more[0], c, rest);
      OtherSums(cfg, s, more[0], Future(cfg, labels, more, c), f);
    }
  }

  lemma BothShapes(cfg: Config, labels: seq<Label>, l: Label)
    requires cfg.Valid() && Exec(cfg, labels).Some? && Exec(cfg, labels + [l]).Some?
    ensures Inv(cfg, Exec(cfg, labels).value) && |Exec(cfg, labels).value.chans| == cfg.channels
    ensures !Exec(cfg, labels + [l]).value.aborted && |Exec(cfg, labels + [l]).value.chans| == cfg.channels
    ensures |Exec(cfg, labels).value.received| == |Exec(cfg, labels + [l]).value.received| == |cfg.files|
  {
    ReachableInv(cfg, labels);
    ReachableInv(cfg, labels + [l]);
  }

  /** All blocks a channel has still to receive, claimed or not yet, fit in what the file
      lacks. */
  lemma {:induction false} FutureRoom(cfg: Config, labels: seq<Label>, more: seq<Label>, c: nat, f: nat)
    requires cfg.Valid() && Exec(cfg, labels + more).Some? && c < cfg.channels && f < |cfg.files|
    ensures Exec(cfg, labels).Some?
    ensures var s := Exec(cfg, labels).value;
            && |s.chans| == cfg.channels && |s.received| == |cfg.files|
            && s.received[f] + D.Bytes(Future(cfg, labels, more, c), f) <= |cfg.files[f]|
    decreases |more|
  {
    ExecPrefix(cfg, labels, more);
    if more == [] {
      ReachableInv(cfg, labels);
      var s := Exec(cfg, labels).value;
      Reserved(cfg, s, c, f);
      assert s.chans[c].pend + [] == s.chans[c].pend;
    } else {
      FutureStep(cfg, labels, more, c, f);
      FutureRoom(cfg, labels + [more[0]], more[1..], c, f);
    }
  }

  lemma ClaimGrows(cfg: Config, s: State, c: nat, f: nat)
    requires cfg.Valid() && Shape(cfg, s) && OffsetInv(cfg, s) && ChansInv(cfg, s)
    requires Enabled(cfg, s, SrcClaim(c)) && f < |cfg.files|
    ensures |ApplyClaim(cfg, s, c).offset| == |s.offset| && s.offset[f] <= ApplyClaim(cfg, s, c).offset[f]
    ensures forall b :: b in ClaimOf(cfg, s, SrcClaim(c), c) ==>
              b.file < |cfg.files| && s.offset[b.file] <= b.off && b.off + b.size <= |cfg.files[b.file]|
  {
    ClaimEffect(cfg, s, c);
  }

  lemma OffsetGrows(cfg: Config, s: State, l: Label, f: nat)
    requires Inv(cfg, s) && Enabled(cfg, s, l) && f < |cfg.files|
    ensures |Apply(cfg, s, l).offset| == |s.offset| && s.offset[f] <= Apply(cfg, s, l).offset[f]
  {
    if l.SrcClaim? {
      ClaimGrows(cfg, s, l.c, f);
    } else {
      OnlyClaimsMove(cfg, s, l);
    }
  }

  lemma OnlyClaimsMove(cfg: Config, s: State, l: Label)
    requires Enabled(cfg, s, l) && !l.SrcClaim?
    ensures Apply(cfg, s, l).offset == s.offset
  { }

  /** A block inside its file that starts at or behind the present offset. */
  predicate Behind(cfg: Config, s: State, b: Block) {
    b.file < |cfg.files| == |s.offset| && s.offset[b.file] <= b.off && b.off + b.size <= |cfg.files[b.file]|
  }

  lemma NowBehind(cfg: Config, s: State, l: Label, c: nat)
    requires Inv(cfg, s) && Enabled(cfg, s, l)
    ensures forall b :: b in ClaimOf(cfg, s, l, c) ==> Behind(cfg, s, b)
  {
    if l == SrcClaim(c) { ClaimGrows(cfg, s, c, s.chans[c].src.file); }
  }

  lemma StaysBehind(cfg: Config, s: State, l: Label, b: Block)
    requires Inv(cfg, s) && Enabled(cfg, s, l) && Behind(cfg, Apply(cfg, s, l), b)
    ensures Behind(cfg, s, b)
  {
    OffsetGrows(cfg, s, l, b.file);
  }

  /** A block claimed later starts at or behind the present offset of its file. */
  lemma {:induction false} ClaimedBehind(cfg: Config, labels: seq<Label>, more: seq<Label>, c: nat, i: nat)
    requires cfg.Valid() && Exec(cfg, labels + more).Some? && i < |ClaimedIn(cfg, labels, more, c)|
    ensures Exec(cfg, labels).Some? && Behind(cfg, Exec(cfg, labels).value, ClaimedIn(cfg, labels, more, c)[i])
    decreases |more|
  {
    ExecPrefix(cfg, labels, more);
    ReachableInv(cfg, labels);
    var s := Exec(cfg, labels).value;
    var claim := ClaimOf(cfg, s, more[0], c);
    if i < |claim| {
      NowBehind(cfg, s, more[0], c);
    } else {
      ClaimedBehind(cfg, labels + [more[0]], more[1..], c, i - |claim|);
      StaysBehind(cfg, s, more[0], ClaimedIn(cfg, labels, more, c)[i]);
    }
  }

  /** A byte that some channel writes lies before the offset of its file and was not written
      before. */
  lemma WritesClaimed(cfg: Config, s: State, d: nat, f: nat, p: nat)
    requires Inv(cfg, s) && Enabled(cfg, s, DstByte(d)) && f < |cfg.files|
    requires s.offset[f] <= p || p in s.written[f]
    ensures !(s.chans[d].dst.b.file == f && s.chans[d].dst.b.off + s.chans[d].dst.got == p)
  {
    TT.ByteHits(cfg, s, d);
    assert ChanInv(cfg, s.chans[d]);
    var l := LedgerOf(cfg, s);
    assert l.BlockOk(l.pend[d][0]);
  }

  /** Bytes written already, and bytes nobody claimed yet, stay as they are for another
      thread's step, whichever it is unless it is the write itself. */
  lemma FarBytesStay(cfg: Config, s: State, l: Label, f: nat, p: nat)
    requires Inv(cfg, s) && Enabled(cfg, s, l) && f < |cfg.files| && p < |cfg.files[f]|
    requires s.offset[f] <= p || p in s.written[f]
    ensures SameByte(s, Apply(cfg, s, l), f, p)
  {
    if l.DstByte? {
      TT.ByteHits(cfg, s, l.c);
      WritesClaimed(cfg, s, l.c, f, p);
      ByteKeeps(cfg, s, l.c, f, p);
    } else {
      OnlyBytesWrite(cfg, s, l);
    }
  }

  lemma FutureUntouched(cfg: Config, labels: seq<Label>, l: Label, more: seq<Label>, c: nat, i: nat, f: nat, p: nat)
    requires cfg.Valid() && Exec(cfg, labels + ([l] + more)).Some? && Exec(cfg, labels).Some?
    requires Enabled(cfg, Exec(cfg, labels).value, l) && c < |Exec(cfg, labels).value.chans| && !MadeBy(l, c)
    requires f < |cfg.files| && i < |Future(cfg, labels, [l] + more, c)|
    requires L.Covers(Future(cfg, labels, [l] + more, c)[i], f, p)
    ensures SameByte(Exec(cfg, labels).value, Apply(cfg, Exec(cfg, labels).value, l), f, p)
  {
    ReachableInv(cfg, labels);
    var s := Exec(cfg, labels).value;
    var n := |s.chans[c].pend|;
    if i < n {
      BytesStay(cfg, s, l, c, i, f, p);
    } else {
      ClaimedBehind(cfg, labels, [l] + more, c, i - n);
      FarBytesStay(cfg, s, l, f, p);
    }
  }

  /** From s to s', every byte of these blocks in file f stays, and so does every byte of f
      that was written before. */
  ghost predicate BytesKept(cfg: Config, s: State, s': State, blocks: seq<Block>, f: nat) {
    && f < |cfg.files| && f < |s.written|
    && (forall i, p: nat :: 0 <= i < |blocks| && L.Covers(blocks[i], f, p) ==> SameByte(s, s', f, p))
    && (forall p :: p in s.written[f] ==> SameByte(s, s', f, p))
  }

  /** The count of f only grows and leaves room for these blocks; so their file stays mapped. */
  predicate Room(cfg: Config, s: State, s': State, blocks: seq<Block>, f: nat) {
    && f < |cfg.files| == |s.received| == |s'.received| == |s'.mapped|
    && s.received[f] <= s'.received[f]
    && s'.received[f] + D.Bytes(blocks, f) <= |cfg.files[f]|
    && (D.Bytes(blocks, f) > 0 ==> s'.mapped[f])
  }

  lemma FutureKept(cfg: Config, labels: seq<Label>, l: Label, more: seq<Label>, c: nat, f: nat)
    requires cfg.Valid() && Exec(cfg, labels + ([l] + more)).Some? && Exec(cfg, labels).Some?
    requires Enabled(cfg, Exec(cfg, labels).value, l) && c < |Exec(cfg, labels).value.chans| && !MadeBy(l, c)
    requires f < |cfg.files|
    ensures var s := Exec(cfg, labels).value;
            BytesKept(cfg, s, Apply(cfg, s, l), Future(cfg, labels, [l] + more, c), f)
  {
    ReachableInv(cfg, labels);
    var s := Exec(cfg, labels).value;
    var blocks := Future(cfg, labels, [l] + more, c);
    forall i, p: nat | 0 <= i < |blocks| && L.Covers(blocks[i], f, p) ensures SameByte(s, Apply(cfg, s, l), f, p) {
      FutureUntouched(cfg, labels, l, more, c, i, f, p);
    }
    forall p | p in s.written[f] ensures SameByte(s, Apply(cfg, s, l), f, p) {
      FarBytesStay(cfg, s, l, f, p);
    }
  }

  lemma FutureRoomLeft(cfg: Config, labels: seq<Label>, l: Label, more: seq<Label>, c: nat, f: nat)
    requires cfg.Valid() && Exec(cfg, labels + ([l] + more)).Some? && c < cfg.channels && f < |cfg.files| && !MadeBy(l, c)
    ensures Exec(cfg, labels).Some? && Enabled(cfg, Exec(cfg, labels).value, l)
    ensures var s := Exec(cfg, labels).value;
            |s.chans| == cfg.channels && Room(cfg, s, Apply(cfg, s, l), Future(cfg, labels, [l] + more, c), f)
  {
    ExecPrefix(cfg, labels, [l] + more);
    FutureStep(cfg, labels, [l] + more, c, f);
    ReachableInv(cfg, labels);
    ReachableInv(cfg, labels + [l]);
    assert ([l] + more)[1..] == more;
    FutureRoom(cfg, labels + [l], more, c, f);
    CountGrows(cfg, Exec(cfg, labels).value, l, f);
  }

  /** In every run and for every continuation of it, a step of any other thread, channel or
      portal, leaves this channel alone, only adds to the counts, leaves room for all blocks
      this channel will ever receive from now on, keeps their files mapped, and touches none of
      their bytes, nor any byte written before. */
  lemma OthersRespect(cfg: Config, labels: seq<Label>, l: Label, more: seq<Label>, c: nat, f: nat)
    requires cfg.Valid() && Exec(cfg, labels + ([l] + more)).Some?
    requires c < cfg.channels && f < |cfg.files| && !MadeBy(l, c)
    ensures Exec(cfg, labels).Some? && Enabled(cfg, Exec(cfg, labels).value, l)
    ensures var s := Exec(cfg, labels).value;
            var s' := Apply(cfg, s, l);
            && |s.chans| == |s'.chans| == cfg.channels && s'.chans[c] == s.chans[c]
            && var blocks := Future(cfg, labels, [l] + more, c);
               Room(cfg, s, s', blocks, f) && BytesKept(cfg, s, s', blocks, f)
  {
    FutureRoomLeft(cfg, labels, l, more, c, f);
    OthersKeep(cfg, Exec(cfg, labels).value, l, c);
    FutureKept(cfg, labels, l, more, c, f);
  }
}
