/** Who is responsible for which byte. The ledger abstracts the transfer to three things:
    how far each file was claimed, which claimed blocks are still on their way (one list
    per channel), and which positions were counted as received. Only a claim and a count
    change it, whatever the sockets do. */
module Ledger {
  import opened Basics
  import opened TransferModel

  datatype Ledger = Ledger(
    sizes: seq<nat>, offset: seq<nat>, pend: seq<seq<Block>>, counted: seq<set<nat>>)
  {
    predicate Shape() { |sizes| == |offset| == |counted| }

    /** How much of file f was handed out. */
    function Frontier(f: nat): nat
      requires Shape() && f < |sizes|
    {
      Min(offset[f], sizes[f])
    }

    predicate BlockOk(b: Block)
      requires Shape()
    {
      b.file < |sizes| && b.size > 0 && b.off + b.size <= Frontier(b.file)
    }
  }

  predicate Covers(b: Block, f: nat, p: nat) {
    b.file == f && b.off <= p < b.off + b.size
  }

  predicate Apart(a: Block, b: Block) {
    a.file == b.file ==> a.off + a.size <= b.off || b.off + b.size <= a.off
  }

  ghost predicate BlocksOk(l: Ledger)
    requires l.Shape()
  {
    forall c, i :: 0 <= c < |l.pend| && 0 <= i < |l.pend[c]| ==> l.BlockOk(l.pend[c][i])
  }

  ghost predicate PairwiseApart(l: Ledger) {
    forall c, i, d, j {:trigger Apart(l.pend[c][i], l.pend[d][j])} |
      0 <= c < |l.pend| && 0 <= i < |l.pend[c]| && 0 <= d < |l.pend| && 0 <= j < |l.pend[d]| ::
      c != d || i != j ==> Apart(l.pend[c][i], l.pend[d][j])
  }

  ghost predicate CountedOk(l: Ledger)
    requires l.Shape()
  {
    forall f, p :: 0 <= f < |l.sizes| && p in l.counted[f] ==> p < l.Frontier(f)
  }

  /** No byte of a block on its way was counted already. */
  ghost predicate PendUncounted(l: Ledger)
    requires l.Shape()
  {
    forall c, i, p {:trigger Covers(l.pend[c][i], l.pend[c][i].file, p)} |
      0 <= c < |l.pend| && 0 <= i < |l.pend[c]| && l.pend[c][i].file < |l.sizes| ::
      Covers(l.pend[c][i], l.pend[c][i].file, p) ==> p !in l.counted[l.pend[c][i].file]
  }

  ghost predicate OnItsWay(l: Ledger, f: nat, p: nat) {
    exists c, i :: 0 <= c < |l.pend| && 0 <= i < |l.pend[c]| && Covers(l.pend[c][i], f, p)
  }

  /** Nothing is lost: every claimed byte was counted or is on its way. */
  ghost predicate NothingLost(l: Ledger)
    requires l.Shape()
  {
    forall f: nat, p: nat {:trigger OnItsWay(l, f, p)} ::
      f < |l.sizes| && p < l.Frontier(f) ==> p in l.counted[f] || OnItsWay(l, f, p)
  }

  ghost predicate Inv(l: Ledger) {
    l.Shape() && BlocksOk(l) && PairwiseApart(l) && CountedOk(l) && PendUncounted(l) && NothingLost(l)
  }

  /** A successful claim: channel c takes [offset, offset + size) of file f. */
  function Claim(l: Ledger, c: nat, f: nat, size: nat, newOffset: nat): Ledger
    requires l.Shape() && c < |l.pend| && f < |l.sizes|
  {
    l.(offset := l.offset[f := newOffset],
       pend := l.pend[c := l.pend[c] + [Block(f, l.offset[f], size)]])
  }

  /** Channel c counts its oldest block. */
  function Count(l: Ledger, c: nat): Ledger
    requires l.Shape() && c < |l.pend| && l.pend[c] != [] && l.pend[c][0].file < |l.sizes|
  {
    var b := l.pend[c][0];
    l.(pend := l.pend[c := l.pend[c][1..]],
       counted := l.counted[b.file := l.counted[b.file] + Range(b.off, b.off + b.size)])
  }

  lemma ClaimPreserves(l: Ledger, c: nat, f: nat, size: nat, newOffset: nat)
    requires Inv(l) && c < |l.pend| && f < |l.sizes|
    requires l.offset[f] < l.sizes[f] && size > 0
    requires l.offset[f] + size == Min(newOffset, l.sizes[f])
    ensures Inv(Claim(l, c, f, size, newOffset))
  {
    var m := Claim(l, c, f, size, newOffset);
    var b := Block(f, l.offset[f], size);
    assert forall d, i :: 0 <= d < |m.pend| && 0 <= i < |m.pend[d]| ==>
             m.pend[d][i] == (if d == c && i == |l.pend[c]| then b else l.pend[d][i]);
    forall g: nat, p: nat | g < |m.sizes| && p < m.Frontier(g)
      ensures p in m.counted[g] || OnItsWay(m, g, p)
    {
      if p < l.Frontier(g) {
        if p !in l.counted[g] {
          assert OnItsWay(l, g, p);
          var d, i :| 0 <= d < |l.pend| && 0 <= i < |l.pend[d]| && Covers(l.pend[d][i], g, p);
          assert Covers(m.pend[d][i], g, p);
        }
      } else {
        assert Covers(m.pend[c][|l.pend[c]|], g, p);
      }
    }
  }

  /** A claim that finds the file exhausted only moves the offset further out. */
  lemma ExhaustedPreserves(l: Ledger, f: nat, newOffset: nat)
    requires Inv(l) && f < |l.sizes| && l.sizes[f] <= l.offset[f] <= newOffset
    ensures Inv(l.(offset := l.offset[f := newOffset]))
  {
    var m := l.(offset := l.offset[f := newOffset]);
    assert forall g: nat :: g < |l.sizes| ==> m.Frontier(g) == l.Frontier(g);
    forall g: nat, p: nat | g < |m.sizes| && p < m.Frontier(g)
      ensures p in m.counted[g] || OnItsWay(m, g, p)
    {
      if p !in l.counted[g] {
        assert OnItsWay(l, g, p);
        var d, i :| 0 <= d < |l.pend| && 0 <= i < |l.pend[d]| && Covers(l.pend[d][i], g, p);
        assert Covers(m.pend[d][i], g, p);
      }
    }
  }

  lemma CountPreserves(l: Ledger, c: nat)
    requires Inv(l) && c < |l.pend| && l.pend[c] != []
    ensures Inv(Count(l, c))
  {
    var m := Count(l, c);
    var b := l.pend[c][0];
    assert l.BlockOk(b);
    assert forall d, i :: 0 <= d < |m.pend| && 0 <= i < |m.pend[d]| ==>
             m.pend[d][i] == l.pend[d][if d == c then i + 1 else i];
    assert PairwiseApart(m);
    forall d, i, p | 0 <= d < |m.pend| && 0 <= i < |m.pend[d]|
                     && Covers(m.pend[d][i], m.pend[d][i].file, p)
      ensures p !in m.counted[m.pend[d][i].file]
    {
      var j := if d == c then i + 1 else i;
      assert Covers(l.pend[d][j], l.pend[d][j].file, p);
      assert Apart(l.pend[c][0], l.pend[d][j]);
      assert l.BlockOk(l.pend[d][j]);
    }
    forall g: nat, p: nat | g < |m.sizes| && p < m.Frontier(g)
      ensures p in m.counted[g] || OnItsWay(m, g, p)
    {
      if p !in l.counted[g] {
        assert OnItsWay(l, g, p);
        var d, i :| 0 <= d < |l.pend| && 0 <= i < |l.pend[d]| && Covers(l.pend[d][i], g, p);
        if d == c {
          if i > 0 { assert Covers(m.pend[c][i - 1], g, p); }
        } else {
          assert Covers(m.pend[d][i], g, p);
        }
      }
    }
  }

  /** Counting a block adds exactly its size: none of its bytes was counted before. */
  lemma CountedGrows(l: Ledger, c: nat)
    requires Inv(l) && c < |l.pend| && l.pend[c] != []
    ensures var b := l.pend[c][0];
            b.file < |l.sizes| &&
            |Count(l, c).counted[b.file]| == |l.counted[b.file]| + b.size
  {
    var b := l.pend[c][0];
    assert l.BlockOk(b);
    var r := Range(b.off, b.off + b.size);
    RangeSize(b.off, b.off + b.size);
    forall p | p in r ensures p !in l.counted[b.file] {
      assert Covers(l.pend[c][0], b.file, p);
    }
    assert l.counted[b.file] !! r;
  }

  /** A file counts as many bytes as it has exactly when every byte was counted. */
  lemma FullMeansAll(l: Ledger, f: nat)
    requires Inv(l) && f < |l.sizes|
    ensures |l.counted[f]| <= l.sizes[f]
    ensures |l.counted[f]| == l.sizes[f] <==> l.counted[f] == Range(0, l.sizes[f])
  {
    RangeSize(0, l.sizes[f]);
    assert l.counted[f] <= Range(0, l.sizes[f]);
    SubsetSize(l.counted[f], Range(0, l.sizes[f]));
  }

  /** While a block of f is on its way, f is not full. */
  lemma PendingMeansNotFull(l: Ledger, c: nat)
    requires Inv(l) && c < |l.pend| && l.pend[c] != []
    ensures var b := l.pend[c][0];
            b.file < |l.sizes| && |l.counted[b.file]| + b.size <= l.sizes[b.file]
  {
    CountedGrows(l, c);
    CountPreserves(l, c);
    FullMeansAll(Count(l, c), l.pend[c][0].file);
  }

  /** The oldest block of a channel lies in its file and fits in what the file still lacks. */
  lemma OldestFacts(l: Ledger, c: nat)
    requires Inv(l) && c < |l.pend| && l.pend[c] != []
    ensures var b := l.pend[c][0];
            && b.file < |l.sizes| && 0 < b.size && b.off + b.size <= l.sizes[b.file]
            && |l.counted[b.file]| + b.size <= l.sizes[b.file]
            && |l.counted[b.file] + Range(b.off, b.off + b.size)| == |l.counted[b.file]| + b.size
  {
    assert l.BlockOk(l.pend[c][0]);
    PendingMeansNotFull(l, c);
    CountedGrows(l, c);
  }

  /** With nothing on its way and every file claimed to its end, all bytes were counted. */
  lemma DrainedMeansFull(l: Ledger, f: nat)
    requires Inv(l) && f < |l.sizes| && l.offset[f] >= l.sizes[f]
    requires forall c :: 0 <= c < |l.pend| ==> l.pend[c] == []
    ensures l.counted[f] == Range(0, l.sizes[f])
  {
    forall p: nat | p < l.sizes[f] ensures p in l.counted[f] {
      assert p in l.counted[f] || OnItsWay(l, f, p);
    }
  }

  // ----- the claims of one file, in the order of its atomic offset -----

  /** The blocks lie end to end, starting at 0 and ending at `end`. */
  ghost predicate Tiles(blocks: seq<Block>, f: nat, end: nat) {
    && (forall i :: 0 <= i < |blocks| ==> blocks[i].file == f && blocks[i].size > 0)
    && (forall i :: 0 < i < |blocks| ==> blocks[i].off == blocks[i - 1].off + blocks[i - 1].size)
    && (blocks == [] ==> end == 0)
    && (blocks != [] ==> blocks[0].off == 0 &&
                         end == blocks[|blocks| - 1].off + blocks[|blocks| - 1].size)
  }

  lemma {:induction false} TilesOrdered(blocks: seq<Block>, f: nat, end: nat, i: nat, j: nat)
    requires Tiles(blocks, f, end) && i < j < |blocks|
    ensures blocks[i].off + blocks[i].size <= blocks[j].off
    decreases j - i
  {
    if i + 1 < j { TilesOrdered(blocks, f, end, i, j - 1); }
  }

  ghost predicate InSome(blocks: seq<Block>, f: nat, p: nat) {
    exists i :: 0 <= i < |blocks| && Covers(blocks[i], f, p)
  }

  /** End-to-end blocks are pairwise disjoint and cover exactly [0, end). */
  lemma {:induction false} TilesPartition(blocks: seq<Block>, f: nat, end: nat)
    requires Tiles(blocks, f, end)
    ensures forall i, j | 0 <= i < |blocks| && 0 <= j < |blocks| ::
              i != j ==> Apart(blocks[i], blocks[j])
    ensures forall p: nat :: InSome(blocks, f, p) <==> p < end
    decreases |blocks|
  {
    forall i, j | 0 <= i < |blocks| && 0 <= j < |blocks| && i != j ensures Apart(blocks[i], blocks[j]) {
      if i < j { TilesOrdered(blocks, f, end, i, j); } else { TilesOrdered(blocks, f, end, j, i); }
    }
    if blocks != [] {
      var n := |blocks| - 1;
      var front := blocks[..n];
      assert Tiles(front, f, blocks[n].off);
      TilesPartition(front, f, blocks[n].off);
      forall p: nat ensures InSome(blocks, f, p) <==> p < end {
        assert InSome(blocks, f, p) <==> InSome(front, f, p) || Covers(blocks[n], f, p);
      }
    }
  }
}
