/** A directory transfer from end to end, up to the content of the files: what the source lists of
    a tree, and exactly when and where the destination rebuilds it (src/transfer.cpp:223-266 and
    601-622). The last component of the source path is whatever was typed, `.` and `..` included. */
module DirectoryTree {
  import opened Basics
  import opened TransferInfo
  import opened Directory
  import opened DirectoryRebuild

  /** The tree below a source path whose last component is `dirName`, and the destination. */
  datatype Job = Job(dest: Path, dirName: string, perm: nat, entries: seq<Entry>)

  function Root(dirName: string): Path { if dirName == "" then [] else [dirName] }

  /** What the iteration visits, under the paths that are sent. */
  function Visited(j: Job): seq<Item> { PreOrder(j.entries, Root(j.dirName)) }

  predicate Plain(items: seq<Item>) { forall i :: 0 <= i < |items| ==> !items[i].node.Special? }

  predicate JobOk(j: Job) {
    (j.dirName == "" || TextOk(j.dirName)) && WellFormed(j.entries) && Plain(Visited(j))
  }

  function Head(j: Job): seq<Item> {
    if j.dirName == "" then [] else [Item([j.dirName], Dir(j.perm, j.entries))]
  }

  /** Everything the lists describe. */
  function Sent(j: Job): seq<Item> { Head(j) + Visited(j) }

  /** Where the tree goes. */
  function Base(j: Job): Path { Resolve(j.dest, Root(j.dirName)) }

  /** An item is the tree itself, or has the place below it that the tree gives it. */
  predicate InTree(j: Job, it: Item) {
    var r := Root(j.dirName);
    && r <= it.path
    && var p := it.path[|r|..];
       if p == [] then j.dirName != "" && it.node == Dir(j.perm, j.entries)
       else PathOk(p) && Lookup(j.entries, p) == Some(it.node)
  }

  lemma SentInTree(j: Job)
    requires JobOk(j)
    ensures forall i :: 0 <= i < |Sent(j)| ==> InTree(j, Sent(j)[i])
    ensures Named(Sent(j)) && Named(Visited(j))
  {
    var r, s := Root(j.dirName), Sent(j);
    PreOrderListing(j.entries, r);
    forall i | 0 <= i < |s| ensures InTree(j, s[i]) && TextPath(s[i].path) {
      if i >= |Head(j)| {
        var p := Visited(j)[i - |Head(j)|].path;
        assert p == r + p[|r|..];
      }
    }
    forall i | 0 <= i < |Visited(j)| ensures TextPath(Visited(j)[i].path) {
      assert Visited(j)[i] == s[i + |Head(j)|];
    }
  }

  lemma {:induction false} FirstDir(d: Item, items: seq<Item>)
    requires d.node.Dir?
    ensures DirsOf([d] + items) == [d] + DirsOf(items) && FilesOf([d] + items) == FilesOf(items)
    decreases |items|
  {
    var all := [d] + items;
    if items == [] {
      assert all[..0] == [];
    } else {
      assert all[..|all| - 1] == [d] + items[..|items| - 1];
      FirstDir(d, items[..|items| - 1]);
    }
  }

  /** The lists sent are those of the tree under the last component of the source path, or of the
      tree itself when that is empty; the handles are those of its files. */
  lemma ListsOfTree(j: Job)
    requires JobOk(j)
    ensures Named(Sent(j)) && Named(Visited(j))
    ensures Described(j.dirName, j.perm, Visited(j)) == ListOf(Sent(j)) && Contents(Visited(j)) == Contents(Sent(j))
  {
    SentInTree(j);
    if j.dirName == "" {
      assert Sent(j) == Visited(j);
    } else {
      FirstDir(Head(j)[0], Visited(j));
    }
  }

  // ----- where items go -----

  lemma {:induction false} ResolvePlain(at: Path, p: Path)
    requires forall k :: 0 <= k < |p| ==> NameOk(p[k])
    ensures Resolve(at, p) == at + p
    decreases |p|
  {
    if p != [] {
      ResolvePlain(at + [p[0]], p[1..]);
      assert at + [p[0]] + p[1..] == at + p;
    } else {
      assert at + p == at;
    }
  }

  lemma {:induction false} ResolveConcat(at: Path, p: Path, q: Path)
    ensures Resolve(at, p + q) == Resolve(Resolve(at, p), q)
    decreases |p|
  {
    if p == [] {
      assert p + q == q;
    } else {
      assert (p + q)[1..] == p[1..] + q;
      ResolveConcat(Enter(at, p[0]), p[1..], q);
    }
  }

  lemma PlaceOf(j: Job, it: Item)
    requires InTree(j, it)
    ensures Resolve(j.dest, it.path) == Base(j) + it.path[|Root(j.dirName)|..]
  {
    var r := Root(j.dirName);
    var p := it.path[|r|..];
    assert it.path == r + p;
    ResolveConcat(j.dest, r, p);
    ResolvePlain(Base(j), p);
  }

  /** What the copy has at a place. */
  function NodeAt(j: Job, q: Path): Option<Node> {
    var b := Base(j);
    if q == b then (if j.dirName == "" then None else Some(Dir(j.perm, j.entries)))
    else if Below(q, b) then Lookup(j.entries, q[|b|..])
    else None
  }

  lemma SpotHasNode(j: Job, i: nat)
    requires JobOk(j) && i < |Sent(j)|
    ensures NodeAt(j, Spot(j.dest, Sent(j), i)) == Some(Sent(j)[i].node)
  {
    SentInTree(j);
    PlaceOf(j, Sent(j)[i]);
    var b, p := Base(j), Sent(j)[i].path[|Root(j.dirName)|..];
    assert (b + p)[|b|..] == p && (b + p)[..|b|] == b;
    if p == [] { assert b + p == b; }
  }

  /** A node below the tree is visited. */
  lemma NodeVisited(j: Job, p: Path) returns (i: nat)
    requires Lookup(j.entries, p).Some?
    ensures i < |Visited(j)| && Visited(j)[i] == Item(Root(j.dirName) + p, Lookup(j.entries, p).value)
    ensures i + |Head(j)| < |Sent(j)| && Sent(j)[i + |Head(j)|] == Visited(j)[i]
  {
    AllVisited(j.entries, Root(j.dirName), p);
    i :| i < |Visited(j)| && Visited(j)[i] == Item(Root(j.dirName) + p, Lookup(j.entries, p).value);
  }

  lemma PlaceBelow(j: Job, p: Path, n: Node)
    requires InTree(j, Item(Root(j.dirName) + p, n))
    ensures Resolve(j.dest, Root(j.dirName) + p) == Base(j) + p
  {
    var r := Root(j.dirName);
    PlaceOf(j, Item(r + p, n));
    assert (r + p)[|r|..] == p;
  }

  /** Every node of the tree is sent, and goes to its place. */
  lemma NodeHasSpot(j: Job, q: Path) returns (i: nat)
    requires JobOk(j) && NodeAt(j, q).Some?
    ensures i < |Sent(j)| && Spot(j.dest, Sent(j), i) == q && Sent(j)[i].node == NodeAt(j, q).value
  {
    if q == Base(j) {
      i := 0;
    } else {
      var p := q[|Base(j)|..];
      var k := NodeVisited(j, p);
      i := k + |Head(j)|;
      SentInTree(j);
      PlaceBelow(j, p, NodeAt(j, q).value);
      assert q == Base(j) + p;
    }
  }

  // ----- the list of a tree can be carried out -----

  lemma VisitedDiffer(j: Job)
    requires WellFormed(j.entries)
    ensures Distinct(Visited(j))
  {
    PreOrderListing(j.entries, Root(j.dirName));
  }

  lemma PathsDiffer(j: Job, i: nat, k: nat)
    requires JobOk(j) && i < k < |Sent(j)|
    ensures Sent(j)[i].path != Sent(j)[k].path
  {
    var h := |Head(j)|;
    if i < h {
      PathBelow(j, k);
    } else {
      VisitedDiffer(j);
      assert Sent(j)[i] == Visited(j)[i - h] && Sent(j)[k] == Visited(j)[k - h];
    }
  }

  lemma SpotsDiffer(j: Job, i: nat, k: nat)
    requires JobOk(j) && i < k < |Sent(j)|
    ensures Spot(j.dest, Sent(j), i) != Spot(j.dest, Sent(j), k)
  {
    var s, r, b := Sent(j), Root(j.dirName), Base(j);
    SentInTree(j);
    PathsDiffer(j, i, k);
    PlaceOf(j, s[i]);
    PlaceOf(j, s[k]);
    var p, q := s[i].path[|r|..], s[k].path[|r|..];
    assert s[i].path == r + p && s[k].path == r + q;
    assert (b + p)[|b|..] == p && (b + q)[|b|..] == q;
  }

  lemma BaseIs(j: Job)
    ensures Base(j) == if j.dirName == "" then j.dest else Enter(j.dest, j.dirName)
  {
    assert Root(j.dirName)[|Root(j.dirName)|..] == [];
    if j.dirName != "" {
      assert Root(j.dirName)[1..] == [];
      assert Resolve(Enter(j.dest, j.dirName), []) == Enter(j.dest, j.dirName);
    }
  }

  lemma BaseInDir(j: Job, start: Fs)
    requires World(start) && IsDir(start, j.dest)
    ensures InDir(start, Base(j))
  {
    BaseIs(j);
    assert InDir(start, j.dest);
    if j.dirName == ".." {
      assert InDir(start, Base(j));
    } else if j.dirName != "" && j.dirName != "." {
      assert Parent(Base(j)) == j.dest;
    }
  }

  /** The directory of an item below the tree: the destination, the tree, or one visited before. */
  lemma DirMadeBefore(j: Job, i: nat, p: Path)
    requires JobOk(j) && |Head(j)| <= i < |Sent(j)| && Sent(j)[i].path == Root(j.dirName) + p && p != []
    ensures (|p| == 1 && j.dirName == "") || MadeBefore(j.dest, Sent(j), i, Base(j) + Parent(p))
  {
    var s, r, b, h := Sent(j), Root(j.dirName), Base(j), |Head(j)|;
    SentInTree(j);
    if |p| > 1 {
      PreOrderListing(j.entries, r);
      assert s[i] == Visited(j)[i - h] && Parent(r + p) == r + Parent(p);
      assert DirBefore(Visited(j), i - h, r + Parent(p));
      var k: nat :| k < i - h && Visited(j)[k].path == r + Parent(p) && Visited(j)[k].node.Dir?;
      assert s[k + h] == Visited(j)[k];
      PlaceBelow(j, Parent(p), s[k + h].node);
    } else if j.dirName != "" {
      assert r + [] == r && s[0].path == r && b + [] == b && Parent(p) == [];
      assert Spot(j.dest, s, 0) == b;
    }
  }

  lemma TreeReady(j: Job, start: Fs, i: nat)
    requires JobOk(j) && World(start) && IsDir(start, j.dest) && i < |Sent(j)|
    ensures Ready(start, j.dest, Sent(j), i)
  {
    var r, b := Root(j.dirName), Base(j);
    SentInTree(j);
    var p := Sent(j)[i].path[|r|..];
    assert Sent(j)[i].path == r + p;
    PlaceOf(j, Sent(j)[i]);
    BaseInDir(j, start);
    if i < |Head(j)| {
      assert b + p == b;
    } else {
      PathBelow(j, i);
      DirMadeBefore(j, i, p);
      BaseIs(j);
      assert Parent(b + p) == b + Parent(p);
      if |p| == 1 { assert b + Parent(p) == b; }
    }
  }

  lemma PathBelow(j: Job, i: nat)
    requires JobOk(j) && |Head(j)| <= i < |Sent(j)|
    ensures Below(Sent(j)[i].path, Root(j.dirName))
  {
    PreOrderListing(j.entries, Root(j.dirName));
    assert Sent(j)[i] == Visited(j)[i - |Head(j)|];
  }

  lemma TreeListing(j: Job, start: Fs)
    requires JobOk(j) && World(start) && IsDir(start, j.dest)
    ensures Listing(start, j.dest, Sent(j))
  {
    var s := Sent(j);
    SentInTree(j);
    forall i | 0 <= i < |s| ensures !s[i].node.Special? && Ready(start, j.dest, s, i) {
      TreeReady(j, start, i);
      if i >= |Head(j)| { assert s[i] == Visited(j)[i - |Head(j)|]; }
    }
    forall i, k | 0 <= i < k < |s| ensures Spot(j.dest, s, i) != Spot(j.dest, s, k) { SpotsDiffer(j, i, k); }
  }

  // ----- the rebuilt tree -----

  /** Nothing at the place of a node is of the other kind. */
  ghost predicate NothingInTheWay(j: Job, start: Fs) {
    forall q {:trigger NodeAt(j, q)} :: NodeAt(j, q).Some? ==> Fits(start, q, NodeAt(j, q).value)
  }

  lemma FitsEverywhere(j: Job, start: Fs)
    requires JobOk(j)
    ensures AllFit(start, j.dest, Sent(j)) <==> NothingInTheWay(j, start)
  {
    var s := Sent(j);
    if NothingInTheWay(j, start) {
      forall i | 0 <= i < |s| ensures Fits(start, Spot(j.dest, s, i), s[i].node) { SpotHasNode(j, i); }
    }
    if AllFit(start, j.dest, s) {
      forall q | NodeAt(j, q).Some? ensures Fits(start, q, NodeAt(j, q).value) {
        var i := NodeHasSpot(j, q);
      }
    }
  }

  /** What is at q afterwards: the node of the copy, and elsewhere what was there. */
  function Expected(j: Job, start: Fs, q: Path): Option<FsEntry> {
    match NodeAt(j, q)
    case None => Get(start, q)
    case Some(n) => if n.Special? then None else Some(Skeleton(n))
  }

  lemma HoldsAsExpected(j: Job, start: Fs, fs: Fs, q: Path)
    requires JobOk(j) && Holds(start, fs, j.dest, Sent(j), |Sent(j)|, |Sent(j)|)
    ensures Get(fs, q) == Expected(j, start, q)
  {
    var s := Sent(j);
    if NodeAt(j, q).Some? {
      var i := NodeHasSpot(j, q);
      SentPlain(j, i);
      assert Done(s, |s|, |s|, i);
      assert InPlace(fs, j.dest, s, i);
    } else {
      forall i | 0 <= i < |s| ensures Spot(j.dest, s, i) != q { SpotHasNode(j, i); }
      assert !IsSpot(j.dest, s, |s|, |s|, q);
    }
  }

  lemma SentPlain(j: Job, i: nat)
    requires JobOk(j) && i < |Sent(j)|
    ensures !Sent(j)[i].node.Special?
  {
    if i >= |Head(j)| { assert Sent(j)[i] == Visited(j)[i - |Head(j)|]; }
  }

  /** The destination prepared with the lists of the tree. */
  function Prepared(j: Job, start: Fs): Option<Fs>
    requires JobOk(j)
  {
    SentInTree(j);
    Rebuild(start, j.dest, Described(j.dirName, j.perm, Visited(j)))
  }

  /** At an existing destination the lists of a tree are carried out if and only if nothing of the
      other kind is in the way; then each node is at its place, and nothing else changed. */
  lemma SkeletonFrom(j: Job, start: Fs)
    requires JobOk(j) && World(start) && IsDir(start, j.dest)
    ensures var r := Prepared(j, start);
            && (r.Some? <==> NothingInTheWay(j, start))
            && (r.Some? ==> World(r.value) && forall q :: Get(r.value, q) == Expected(j, start, q))
  {
    ListsOfTree(j);
    TreeListing(j, start);
    SkeletonRebuilt(start, j.dest, Sent(j));
    FitsEverywhere(j, start);
    var r := Rebuild(start, j.dest, ListOf(Sent(j)));
    if r.Some? {
      forall q ensures Get(r.value, q) == Expected(j, start, q) { HoldsAsExpected(j, start, r.value, q); }
    }
  }

  // ----- the whole preparation -----

  /** The destination, existing or not, prepared with the lists of the tree. */
  function Delivered(j: Job, before: Fs): Option<Fs>
    requires JobOk(j)
  {
    match Arrive(before, j.dest)
    case None => None
    case Some(start) => Prepared(j, start)
  }

  /** The destination can be a directory: it is one, or is missing from one. */
  predicate CanBeDir(before: Fs, dest: Path) {
    IsDir(before, dest) || (dest !in before && dest != [] && IsDir(before, Parent(dest)))
  }

  /** Nothing of the other kind is where a node goes, and no file goes where the destination is. */
  ghost predicate Clear(j: Job, before: Fs) {
    forall q {:trigger NodeAt(j, q)} :: NodeAt(j, q).Some? ==>
      Fits(before, q, NodeAt(j, q).value) && (q == j.dest ==> NodeAt(j, q).value.Dir?)
  }

  /** What is at q afterwards: the node of the copy, the destination, or what was there before. */
  function Outcome(j: Job, before: Fs, q: Path): Option<FsEntry> {
    match NodeAt(j, q)
    case Some(n) => if n.Special? then None else Some(Skeleton(n))
    case None => if q == j.dest && q !in before then Some(DirEntry(493)) else Get(before, q)
  }

  lemma ClearFrom(j: Job, before: Fs, start: Fs)
    requires World(before) && Arrive(before, j.dest) == Some(start)
    ensures NothingInTheWay(j, start) <==> Clear(j, before)
  {
    ArrivedInWorld(before, j.dest);
    forall q | NodeAt(j, q).Some?
      ensures Fits(start, q, NodeAt(j, q).value)
              <==> Fits(before, q, NodeAt(j, q).value) && (q == j.dest ==> NodeAt(j, q).value.Dir?)
    {
      if q != j.dest { assert Get(start, q) == Get(before, q); }
    }
  }

  /** For any tree and any file system: the lists are carried out if and only if the destination
      can be a directory and is clear; then each node is at its place, with its permission and
      size, the destination is there, and nothing else changed. */
  lemma SkeletonOfTree(j: Job, before: Fs)
    requires JobOk(j) && World(before)
    ensures var r := Delivered(j, before);
            && (r.Some? <==> CanBeDir(before, j.dest) && Clear(j, before))
            && (r.Some? ==> World(r.value) && forall q :: Get(r.value, q) == Outcome(j, before, q))
  {
    ArrivedInWorld(before, j.dest);
    if CanBeDir(before, j.dest) {
      var start := Arrive(before, j.dest).value;
      ClearFrom(j, before, start);
      SkeletonFrom(j, start);
      var r := Prepared(j, start);
      if r.Some? {
        forall q ensures Get(r.value, q) == Outcome(j, before, q) {
          assert Get(r.value, q) == Expected(j, start, q);
          if q != j.dest { assert Get(start, q) == Get(before, q); }
        }
      }
    }
  }

  // ----- where the copy lands -----

  /** Nothing of the copy is put outside the destination. */
  ghost predicate StaysInside(j: Job) {
    forall q {:trigger NodeAt(j, q)} :: NodeAt(j, q).Some? ==> j.dest <= q
  }

  /** The destination's own `..` is the only way out of it. */
  lemma InsideUnlessUp(j: Job)
    ensures StaysInside(j) <==> j.dirName != ".." || j.dest == []
  {
    BaseIs(j);
    var b := Base(j);
    if j.dirName == ".." && j.dest != [] {
      assert NodeAt(j, b).Some? && |b| < |j.dest|;
    } else {
      assert j.dest <= b;
      forall q | NodeAt(j, q).Some? ensures j.dest <= q {
        assert b <= q;
      }
    }
  }

  /** Nothing exists below the destination. */
  ghost predicate NoneBelowDest(fs: Fs, dest: Path) { forall q {:trigger Below(q, dest)} :: q in fs ==> !Below(q, dest) }

  lemma NothingBelow(j: Job, before: Fs)
    requires CanBeDir(before, j.dest) && NoneBelowDest(before, j.dest) && j.dirName != ".."
    ensures Clear(j, before)
  {
    BaseIs(j);
    var b := Base(j);
    forall q | NodeAt(j, q).Some?
      ensures Fits(before, q, NodeAt(j, q).value) && (q == j.dest ==> NodeAt(j, q).value.Dir?)
    {
      if q != j.dest {
        assert j.dest <= b <= q;
        assert Below(q, j.dest);
      } else {
        assert q == b;
      }
    }
  }

  /** Into an empty directory other than the root, or one still to be made, the tree is rebuilt
      without touching anything outside if and only if the last component of the source path is
      not `..`. */
  lemma RebuiltInsideIff(j: Job, before: Fs)
    requires JobOk(j) && World(before) && CanBeDir(before, j.dest) && NoneBelowDest(before, j.dest) && j.dest != []
    ensures Delivered(j, before).Some? && StaysInside(j) <==> j.dirName != ".."
  {
    SkeletonOfTree(j, before);
    InsideUnlessUp(j);
    if j.dirName != ".." { NothingBelow(j, before); }
  }

  /** `xcp -r t host:/srv/new` with /srv a directory and /srv/new missing: it is made. */
  lemma MissingIsMade(j: Job)
    requires JobOk(j) && j.dest == ["srv", "new"] && j.dirName != ".."
    ensures World(SRV) && j.dest !in SRV && Delivered(j, SRV).Some? && IsDir(Delivered(j, SRV).value, ["srv", "new"])
  {
    SrvWorld();
    assert Parent(["srv", "new"]) == ["srv"];
    forall q | q in SRV ensures !Below(q, ["srv", "new"]) { }
    NothingBelow(j, SRV);
    SkeletonOfTree(j, SRV);
    BaseIs(j);
    assert Get(Delivered(j, SRV).value, j.dest) == Outcome(j, SRV, j.dest);
  }

  lemma SrvWorld()
    ensures World(SRV)
  {
    assert Parent(["srv"]) == [] && Parent(["srv", "d"]) == ["srv"];
    assert forall p :: p in SRV ==> InDir(SRV, p);
  }

  /** With `..`, a file of the destination's own name makes the destination fail. */
  lemma UpFails(j: Job, start: Fs)
    requires JobOk(j) && World(start) && IsDir(start, j.dest) && j.dest != [] && j.dirName == ".."
    requires Find(j.entries, j.dest[|j.dest| - 1]).Some? && Find(j.entries, j.dest[|j.dest| - 1]).value.File?
    ensures Prepared(j, start) == None
  {
    SkeletonFrom(j, start);
    BaseIs(j);
    var b, n := Base(j), j.dest[|j.dest| - 1];
    assert j.dest == b + [n] && j.dest[|b|..] == [n] && Below(j.dest, b);
    assert NodeAt(j, j.dest) == Find(j.entries, n);
  }

  /** With `..`, the permission of the directory above is replaced and the tree lands there. */
  lemma UpEscapes(j: Job, start: Fs, n: string)
    requires JobOk(j) && World(start) && IsDir(start, j.dest) && j.dest != [] && j.dirName == ".."
    requires NothingInTheWay(j, start) && Find(j.entries, n).Some?
    ensures var r := Prepared(j, start);
            && r.Some? && Get(r.value, Parent(j.dest)) == Some(DirEntry(j.perm))
            && Parent(j.dest) + [n] in r.value && !(j.dest < Parent(j.dest) + [n])
  {
    SkeletonFrom(j, start);
    BaseIs(j);
    var b := Base(j);
    assert (b + [n])[|b|..] == [n] && (b + [n])[..|b|] == b && Below(b + [n], b);
    assert NodeAt(j, b + [n]) == Find(j.entries, n);
    var i := NodeHasSpot(j, b + [n]);
    SentPlain(j, i);
    var r := Prepared(j, start).value;
    assert Get(r, b) == Expected(j, start, b);
    assert Get(r, b + [n]) == Expected(j, start, b + [n]);
  }

  const SRV: Fs := map[[] := DirEntry(493), ["srv"] := DirEntry(493), ["srv", "d"] := DirEntry(493)]

  function Up(name: string, content: seq<Byte>): Job {
    Job(["srv", "d"], "..", 448, [Entry(name, File(content, 420))])
  }

  lemma UpOk(name: string, content: seq<Byte>)
    requires NameOk(name)
    ensures JobOk(Up(name, content)) && World(SRV) && EmptyDir(SRV, ["srv", "d"])
  {
    assert forall p :: p in SRV ==> InDir(SRV, p) by {
      assert Parent(["srv"]) == [] && Parent(["srv", "d"]) == ["srv"];
    }
    var e := Entry(name, File(content, 420));
    assert [e][1..] == [] && PreOrder([e], [".."]) == FirstItems(e, [".."]);
  }

  lemma NewBeside(j: Job, name: string)
    requires j == Up(name, [1]) && name != "d"
    ensures NothingInTheWay(j, SRV)
  {
    BaseIs(j);
    assert Base(j) == ["srv"];
    var d := ["srv", "d"];
    assert d[..1] == ["srv"] && d[1..] == ["d"] && Below(d, ["srv"]);
    assert Find(j.entries[1..], "d") == None;
    assert NodeAt(j, d) == Lookup(j.entries, ["d"]) == None;
    forall q | NodeAt(j, q).Some? ensures Fits(SRV, q, NodeAt(j, q).value) {
      assert q in SRV ==> q == ["srv"];
    }
  }

  /** `xcp -r .. host:/srv/d` into an empty /srv/d: a file `d` makes it fail. */
  lemma UpInputFails(j: Job)
    requires j == Up("d", [1])
    ensures JobOk(j) && EmptyDir(SRV, j.dest) && Prepared(j, SRV) == None
  {
    UpOk("d", [1]);
    UpFails(j, SRV);
  }

  /** The same with a file `x`: it becomes /srv/x, and the permission of /srv is replaced. */
  lemma UpInputEscapes(j: Job)
    requires j == Up("x", [1])
    ensures JobOk(j) && EmptyDir(SRV, j.dest)
    ensures var r := Prepared(j, SRV);
            r.Some? && ["srv", "x"] in r.value && Get(r.value, ["srv"]) == Some(DirEntry(448)) != Get(SRV, ["srv"])
  {
    UpOk("x", [1]);
    NewBeside(j, "x");
    assert Parent(["srv", "d"]) == ["srv"] && ["srv"] + ["x"] == ["srv", "x"];
    UpEscapes(j, SRV, "x");
  }
}
