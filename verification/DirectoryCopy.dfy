/** A directory transfer from end to end: listed, rebuilt, and filled by any finished run of the
    block transfer (src/transfer.cpp:28-421, 223-266 and 524-622). */
module DirectoryCopy {
  import opened Basics
  import opened TransferInfo
  import opened Directory
  import opened DirectoryRebuild
  import opened DirectoryTree
  import C = Completion
  import T = TransferModel
  import TT = TransferTheorems

  // ----- the files of the list -----

  lemma {:induction false} FilesDiffer(items: seq<Item>)
    requires Distinct(items)
    ensures Distinct(FilesOf(items))
    decreases |items|
  {
    if items != [] {
      var before := items[..|items| - 1];
      FilesDiffer(before);
      OnlyFiles(before);
    }
  }

  /** Index i of the file list, the handles and the mappings denotes one and the same file of the
      tree; different indexes denote different places, and no file is missing. */
  lemma IndexesAgree(j: Job)
    requires JobOk(j)
    ensures Named(Visited(j))
    ensures var v := Visited(j);
            var files, infos, places := FilesOf(v), FileInfos(v), Places(j.dest, FileInfos(v));
            && |files| == |infos| == |places| == |Contents(v)|
            && (forall i :: 0 <= i < |files| ==>
                  var n := NodeAt(j, places[i]);
                  && n == Some(files[i].node) && n.value.File?
                  && infos[i].fileSize == |n.value.content| && infos[i].posixPerm == n.value.perm
                  && Contents(v)[i] == n.value.content)
            && (forall i, k :: 0 <= i < k < |files| ==> places[i] != places[k])
            && (forall q :: NodeAt(j, q).Some? && NodeAt(j, q).value.File? ==> q in places)
  {
    SentInTree(j);
    var v := Visited(j);
    var files, places := FilesOf(v), Places(j.dest, FileInfos(v));
    OnlyFiles(v);
    PreOrderListing(j.entries, Root(j.dirName));
    FilesDiffer(v);
    forall i | 0 <= i < |files|
      ensures files[i].node.File? && NodeAt(j, places[i]) == Some(files[i].node)
      ensures places[i] == Resolve(j.dest, files[i].path)
    {
      assert files[i] in files;
      FilePlace(j, files[i]);
    }
    forall i, k | 0 <= i < k < |files| ensures places[i] != places[k] {
      assert files[i] in files && files[k] in files;
      FilePlacesDiffer(j, files[i], files[k]);
    }
    forall q | NodeAt(j, q).Some? && NodeAt(j, q).value.File? ensures q in places {
      var f := FileListed(j, q);
      var i :| 0 <= i < |files| && files[i] == f;
      assert places[i] == q;
    }
  }

  lemma FilePlace(j: Job, f: Item)
    requires JobOk(j) && f in Visited(j) && f.node.File? && f.path != []
    ensures Place(j.dest, Info(f).relativePath) == Resolve(j.dest, f.path)
    ensures NodeAt(j, Resolve(j.dest, f.path)) == Some(f.node)
  {
    SentInTree(j);
    SplitJoin(f.path);
    var i := IndexOfItem(j, f);
    SpotHasNode(j, i);
  }

  lemma IndexOfItem(j: Job, f: Item) returns (i: nat)
    requires f in Visited(j)
    ensures i < |Sent(j)| && Sent(j)[i] == f
  {
    var k: nat :| k < |Visited(j)| && Visited(j)[k] == f;
    i := k + |Head(j)|;
  }

  lemma FilePlacesDiffer(j: Job, f: Item, g: Item)
    requires JobOk(j) && f in Visited(j) && g in Visited(j) && f.path != g.path
    ensures Resolve(j.dest, f.path) != Resolve(j.dest, g.path)
  {
    var i := IndexOfItem(j, f);
    var k := IndexOfItem(j, g);
    if i < k {
      SpotsDiffer(j, i, k);
    } else {
      SpotsDiffer(j, k, i);
    }
  }

  lemma FileListed(j: Job, q: Path) returns (f: Item)
    requires JobOk(j) && NodeAt(j, q).Some? && NodeAt(j, q).value.File?
    ensures f in FilesOf(Visited(j)) && Resolve(j.dest, f.path) == q && f.node == NodeAt(j, q).value
  {
    var i := NodeHasSpot(j, q);
    f := Sent(j)[i];
    assert f == Visited(j)[i - |Head(j)|];
    OnlyFiles(Visited(j));
  }

  // ----- what the mappings leave in the files -----

  /** Once unmapped, the i-th context's file holds the i-th contents. */
  function Filled(fs: Fs, places: seq<Path>, contents: seq<seq<Byte>>): Fs
    requires |places| == |contents|
    decreases |places|
  {
    if places == [] then fs
    else
      var n := |places| - 1;
      var g := Filled(fs, places[..n], contents[..n]);
      if places[n] in g && g[places[n]].FileEntry?
      then g[places[n] := FileEntry(contents[n], g[places[n]].perm)]
      else g
  }

  lemma {:induction false} FilledAt(fs: Fs, places: seq<Path>, contents: seq<seq<Byte>>)
    requires |places| == |contents|
    requires forall i, k :: 0 <= i < k < |places| ==> places[i] != places[k]
    requires forall i :: 0 <= i < |places| ==> places[i] in fs && fs[places[i]].FileEntry?
    ensures forall i :: 0 <= i < |places| ==>
              Get(Filled(fs, places, contents), places[i]) == Some(FileEntry(contents[i], fs[places[i]].perm))
    ensures forall q {:trigger Get(Filled(fs, places, contents), q)} ::
              q !in places ==> Get(Filled(fs, places, contents), q) == Get(fs, q)
    decreases |places|
  {
    if places != [] {
      var n := |places| - 1;
      FilledAt(fs, places[..n], contents[..n]);
      assert Get(Filled(fs, places[..n], contents[..n]), places[n]) == Get(fs, places[n]);
      forall q | q !in places
        ensures Get(Filled(fs, places, contents), q) == Get(fs, q)
      {
        assert q !in places[..n];
        assert Get(Filled(fs, places[..n], contents[..n]), q) == Get(fs, q);
      }
      forall i | 0 <= i < n
        ensures Get(Filled(fs, places, contents), places[i]) == Some(FileEntry(contents[i], fs[places[i]].perm))
      {
        assert places[..n][i] == places[i] && contents[..n][i] == contents[i];
        assert Get(Filled(fs, places[..n], contents[..n]), places[..n][i]).Some?;
      }
    }
  }

  // ----- the copy -----

  /** The entry that copies a node exactly. */
  function Exact(n: Node): Option<FsEntry> {
    match n
    case File(content, perm) => Some(FileEntry(content, perm))
    case Dir(perm, _) => Some(DirEntry(perm))
    case Special => None
  }

  /** What the destination has at q when all is done. */
  function Copied(j: Job, before: Fs, q: Path): Option<FsEntry> {
    match NodeAt(j, q)
    case Some(File(content, perm)) => Some(FileEntry(content, FilePerm(perm)))
    case Some(n) => Exact(n)
    case None => if q == j.dest && q !in before then Some(DirEntry(493)) else Get(before, q)
  }

  /** The transfer of the job's files over any number of channels, from freshly truncated ones. */
  predicate Transfers(j: Job, cfg: T.Config) {
    && cfg.Valid() && cfg.files == Contents(Visited(j))
    && forall i :: 0 <= i < |cfg.files| ==> cfg.initial[i] == Zeros(|cfg.files[i]|)
  }

  /** The destination's portal has finished, every file was claimed to its end, and every channel
      that failed had counted all its blocks: module Completion proves that exactly such runs
      leave every file complete. */
  ghost predicate Succeeds(cfg: T.Config, labels: seq<T.Label>)
    requires cfg.Valid()
  {
    && T.Exec(cfg, labels).Some?
    && var s := T.Exec(cfg, labels).value;
       s.portal == T.Finished && T.Shape(cfg, s) && C.AllClaimed(cfg, s) && C.FailedDrained(s)
  }

  /** Among them are all finished runs without a failed receive. */
  lemma SoundRunsSucceed(cfg: T.Config, labels: seq<T.Label>)
    requires cfg.Valid() && T.Exec(cfg, labels).Some? && T.Exec(cfg, labels).value.portal == T.Finished
    requires forall i :: 0 <= i < |labels| ==> !labels[i].DstFail?
    ensures Succeeds(cfg, labels)
  {
    TT.EndToEnd(cfg, labels);
    C.FinishedExactly(cfg, labels);
  }

  /** The destination when the transfer has finished. */
  function Final(j: Job, before: Fs, cfg: T.Config, labels: seq<T.Label>): Option<Fs>
    requires JobOk(j) && cfg.Valid()
  {
    SentInTree(j);
    var places, run := Places(j.dest, FileInfos(Visited(j))), T.Exec(cfg, labels);
    match Delivered(j, before)
    case None => None
    case Some(fs) => if run.Some? && |run.value.dst| == |places| then Some(Filled(fs, places, run.value.dst)) else None
  }

  /** What a context maps before anything was received: the file of the tree, with zeros. */
  predicate OpenAs(j: Job, fs: Fs, p: Path, content: seq<Byte>) {
    var n := NodeAt(j, p);
    n.Some? && n.value.File? && n.value.content == content && Get(fs, p) == Some(Skeleton(n.value))
  }

  lemma OpenedAt(j: Job, before: Fs, fs: Fs, i: nat)
    requires JobOk(j) && World(before) && Delivered(j, before) == Some(fs)
    requires i < |FilesOf(Visited(j))|
    ensures Named(Visited(j))
    ensures OpenAs(j, fs, Places(j.dest, FileInfos(Visited(j)))[i], Contents(Visited(j))[i])
  {
    SkeletonOfTree(j, before);
    IndexesAgree(j);
    var p := Places(j.dest, FileInfos(Visited(j)))[i];
    assert Get(fs, p) == Outcome(j, before, p);
  }

  lemma FilledAsCopied(j: Job, before: Fs, fs: Fs, places: seq<Path>, contents: seq<seq<Byte>>, q: Path)
    requires |places| == |contents| && forall i, k :: 0 <= i < k < |places| ==> places[i] != places[k]
    requires forall i :: 0 <= i < |places| ==> OpenAs(j, fs, places[i], contents[i])
    requires q !in places ==> Get(fs, q) == Copied(j, before, q)
    ensures Get(Filled(fs, places, contents), q) == Copied(j, before, q)
  {
    forall i | 0 <= i < |places| ensures places[i] in fs && fs[places[i]].FileEntry? {
      assert OpenAs(j, fs, places[i], contents[i]);
    }
    FilledAt(fs, places, contents);
    if q in places {
      var i: nat :| i < |places| && places[i] == q;
      assert OpenAs(j, fs, places[i], contents[i]);
      assert Get(Filled(fs, places, contents), places[i]) == Some(FileEntry(contents[i], fs[places[i]].perm));
    }
  }

  lemma PlacesApart(j: Job)
    requires JobOk(j)
    ensures Named(Visited(j))
    ensures var places := Places(j.dest, FileInfos(Visited(j)));
            && |places| == |Contents(Visited(j))| == |FilesOf(Visited(j))|
            && forall i, k :: 0 <= i < k < |places| ==> places[i] != places[k]
  {
    IndexesAgree(j);
  }

  /** Where no file of the tree goes, the copy is there before anything was received. */
  lemma NoFileAt(j: Job, before: Fs, fs: Fs, q: Path)
    requires JobOk(j) && World(before) && Delivered(j, before) == Some(fs)
    requires Named(Visited(j)) && q !in Places(j.dest, FileInfos(Visited(j)))
    ensures Get(fs, q) == Copied(j, before, q)
  {
    IndexesAgree(j);
    SkeletonOfTree(j, before);
    assert Get(fs, q) == Outcome(j, before, q);
  }

  lemma FinalAt(j: Job, before: Fs, fs: Fs, q: Path)
    requires JobOk(j) && World(before) && Delivered(j, before) == Some(fs)
    ensures Named(Visited(j))
    ensures var places, contents := Places(j.dest, FileInfos(Visited(j))), Contents(Visited(j));
            |places| == |contents| && Get(Filled(fs, places, contents), q) == Copied(j, before, q)
  {
    PlacesApart(j);
    var places, contents := Places(j.dest, FileInfos(Visited(j))), Contents(Visited(j));
    forall i | 0 <= i < |places| ensures OpenAs(j, fs, places[i], contents[i]) { OpenedAt(j, before, fs, i); }
    if q !in places { NoFileAt(j, before, fs, q); }
    FilledAsCopied(j, before, fs, places, contents, q);
  }

  /** The whole operation, for any tree and any file system: a directory is copied if and only if
      the destination can be a directory and is clear. Then every successful run, whatever its
      interleaving, leaves each node of the tree at its place with its content, the destination
      there, and nothing else changed. */
  lemma DirectoryCopied(j: Job, before: Fs, cfg: T.Config, labels: seq<T.Label>)
    requires JobOk(j) && World(before)
    requires Transfers(j, cfg) && Succeeds(cfg, labels)
    ensures var final := Final(j, before, cfg, labels);
            && (final.Some? <==> CanBeDir(before, j.dest) && Clear(j, before))
            && (final.Some? ==> forall q :: Get(final.value, q) == Copied(j, before, q))
  {
    C.FinishedExactly(cfg, labels);
    SkeletonOfTree(j, before);
    IndexesAgree(j);
    var fs := Delivered(j, before);
    if fs.Some? {
      forall q ensures Get(Final(j, before, cfg, labels).value, q) == Copied(j, before, q) {
        FinalAt(j, before, fs.value, q);
      }
    }
  }

  // ----- permissions -----

  ghost predicate NoFileIsZero(j: Job) {
    forall q {:trigger NodeAt(j, q)} :: NodeAt(j, q).Some? && NodeAt(j, q).value.File? ==> NodeAt(j, q).value.perm != 0
  }

  /** The destination is the tree, permissions included, if and only if no file has permission 0. */
  lemma ExactUnlessZero(j: Job, before: Fs, cfg: T.Config, labels: seq<T.Label>)
    requires JobOk(j) && World(before) && CanBeDir(before, j.dest) && Clear(j, before)
    requires Transfers(j, cfg) && Succeeds(cfg, labels)
    ensures var final := Final(j, before, cfg, labels);
            && final.Some?
            && (NoFileIsZero(j) <==>
                  forall q {:trigger NodeAt(j, q)} ::
                    NodeAt(j, q).Some? ==> Get(final.value, q) == Exact(NodeAt(j, q).value))
  {
    DirectoryCopied(j, before, cfg, labels);
    var final := Final(j, before, cfg, labels).value;
    forall q | NodeAt(j, q).Some?
      ensures Get(final, q) == Exact(NodeAt(j, q).value)
              <==> !(NodeAt(j, q).value.File? && NodeAt(j, q).value.perm == 0)
    {
      assert Get(final, q) == Copied(j, before, q);
    }
  }

  const ZERO: Job := Job(["d"], "t", 493, [Entry("f", File([7], 0))])
  const EMPTY: Fs := map[[] := DirEntry(493), ["d"] := DirEntry(493)]

  lemma ZeroVisited()
    ensures Visited(ZERO) == [Item(["t", "f"], File([7], 0))]
  {
    var e := ZERO.entries[0];
    assert [e][1..] == [] && PreOrder([e], ["t"]) == FirstItems(e, ["t"]);
    assert ["t"] + ["f"] == ["t", "f"];
  }

  lemma ZeroTransfers()
    ensures JobOk(ZERO) && Transfers(ZERO, TT.ONE_BYTE)
  {
    ZeroVisited();
    assert WellFormed(ZERO.entries) by { assert ZERO.entries[1..] == []; }
    var f := Item(["t", "f"], File([7], 0));
    assert [f][..0] == [] && FilesOf([f]) == [f];
  }

  lemma ZeroPlace()
    ensures NodeAt(ZERO, ["d", "t", "f"]) == Some(File([7], 0))
  {
    BaseIs(ZERO);
    var q := ["d", "t", "f"];
    assert Base(ZERO) == ["d", "t"] && q[2..] == ["f"] && q[..2] == ["d", "t"];
  }

  lemma EmptyWorld()
    ensures World(EMPTY) && EmptyDir(EMPTY, ["d"])
  {
    assert Parent(["d"]) == [] && InDir(EMPTY, ["d"]);
  }

  /** A file of permission 0 arrives readable: every successful run leaves it with 0644. */
  lemma ZeroBecomes644(labels: seq<T.Label>)
    requires TT.ONE_BYTE.Valid() && Succeeds(TT.ONE_BYTE, labels)
    ensures JobOk(ZERO) && Transfers(ZERO, TT.ONE_BYTE)
    ensures var final := Final(ZERO, EMPTY, TT.ONE_BYTE, labels);
            final.Some? && Get(final.value, ["d", "t", "f"]) == Some(FileEntry([7], 0x1a4))
  {
    ZeroTransfers();
    ZeroPlace();
    EmptyWorld();
    NothingBelow(ZERO, EMPTY);
    DirectoryCopied(ZERO, EMPTY, TT.ONE_BYTE, labels);
    var final := Final(ZERO, EMPTY, TT.ONE_BYTE, labels).value;
    assert Get(final, ["d", "t", "f"]) == Copied(ZERO, EMPTY, ["d", "t", "f"]);
  }
}
