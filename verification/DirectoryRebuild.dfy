/** The destination's half of a directory transfer (src/transfer.cpp:524-588 and 601-622) on a
    file system whose paths are resolved, `.` and `..` included; what a list of visited items
    makes of it, and exactly when it can be carried out. */
module DirectoryRebuild {
  import opened Basics
  import opened TransferInfo
  import opened Directory

  datatype FsEntry = DirEntry(perm: nat) | FileEntry(content: seq<Byte>, perm: nat)

  /** What exists, by absolute place; [] is the root. */
  type Fs = map<Path, FsEntry>

  function Get(fs: Fs, p: Path): Option<FsEntry> { if p in fs then Some(fs[p]) else None }

  predicate IsDir(fs: Fs, p: Path) { p in fs && fs[p].DirEntry? }

  /** Entered from `at`, a component leads here; the root is its own parent. */
  function Enter(at: Path, n: string): Path {
    if n == "." then at else if n == ".." then (if at == [] then [] else Parent(at)) else at + [n]
  }

  function Resolve(at: Path, p: Path): Path
    decreases |p|
  {
    if p == [] then at else Resolve(Enter(at, p[0]), p[1..])
  }

  const DEFAULT_DIR_PERM: nat := 0x1ed
  const DEFAULT_FILE_PERM: nat := 0x1a4

  /** stdfs::create_directories: None when a file is in the way. */
  function CreateDirectories(fs: Fs, p: Path): Option<Fs>
    decreases |p|
  {
    if p == [] then Some(fs)
    else
      match CreateDirectories(fs, Parent(p))
      case None => None
      case Some(g) =>
        if p !in g then Some(g[p := DirEntry(DEFAULT_DIR_PERM)]) else if g[p].DirEntry? then Some(g) else None
  }

  function Place(dest: Path, relativePath: string): Path { Resolve(dest, Split(relativePath)) }

  function MakeDirectory(fs: Fs, dest: Path, di: DirectoryInfo): Option<Fs> {
    var p := Place(dest, di.relativePath);
    match CreateDirectories(fs, p)
    case None => None
    case Some(g) => Some(g[p := DirEntry(di.posixPerm)])
  }

  /** A permission of 0 reads as "not known". */
  function FilePerm(perm: nat): nat { if perm == 0 then DEFAULT_FILE_PERM else perm }

  function Zeros(n: nat): (r: seq<Byte>)
    ensures |r| == n
  {
    seq<Byte>(n, _ => 0)
  }

  /** open(O_CREAT | O_TRUNC), fchmod and ftruncate: None when the directory is missing or the
      path is a directory. */
  function OpenFile(fs: Fs, dest: Path, fi: FileInfo): Option<Fs> {
    var p := Place(dest, fi.relativePath);
    if p == [] || !IsDir(fs, Parent(p)) || IsDir(fs, p) then None
    else Some(fs[p := FileEntry(Zeros(fi.fileSize), FilePerm(fi.posixPerm))])
  }

  function MakeDirectories(fs: Fs, dest: Path, dirs: seq<DirectoryInfo>): Option<Fs>
    decreases |dirs|
  {
    if dirs == [] then Some(fs)
    else
      match MakeDirectories(fs, dest, dirs[..|dirs| - 1])
      case None => None
      case Some(g) => MakeDirectory(g, dest, dirs[|dirs| - 1])
  }

  function OpenFiles(fs: Fs, dest: Path, files: seq<FileInfo>): Option<Fs>
    decreases |files|
  {
    if files == [] then Some(fs)
    else
      match OpenFiles(fs, dest, files[..|files| - 1])
      case None => None
      case Some(g) => OpenFile(g, dest, files[|files| - 1])
  }

  function Rebuild(fs: Fs, dest: Path, info: TransferInfo): Option<Fs> {
    match MakeDirectories(fs, dest, info.dirsInfo)
    case None => None
    case Some(g) => OpenFiles(g, dest, info.filesInfo)
  }

  /** init_transfer_info for a directory: the destination has to be a directory, or to be missing
      from one. None when it is a file, or when its own directory is missing. */
  function Arrive(fs: Fs, dest: Path): Option<Fs> {
    if dest in fs then (if fs[dest].DirEntry? then Some(fs) else None)
    else if dest != [] && IsDir(fs, Parent(dest)) then Some(fs[dest := DirEntry(DEFAULT_DIR_PERM)])
    else None
  }

  function Places(dest: Path, files: seq<FileInfo>): (r: seq<Path>)
    ensures |r| == |files|
  {
    seq(|files|, i requires 0 <= i < |files| => Place(dest, files[i].relativePath))
  }

  /** `recvCtx[i]` is the file the i-th context maps. */
  class TransferDestination {
    const requestedDstPath: Path
    var fs: Fs
    var recvCtx: seq<Path>

    constructor (dest: Path, fs: Fs)
      ensures requestedDstPath == dest && this.fs == fs && recvCtx == []
    {
      requestedDstPath, this.fs, recvCtx := dest, fs, [];
    }

    /** The preparation from `start` succeeded, or could not be carried out. */
    predicate Outcome(ok: bool, start: Fs, info: TransferInfo)
      reads this
    {
      var r := Rebuild(start, requestedDstPath, info);
      (ok <==> r.Some?) && (ok ==> fs == r.value && recvCtx == Places(requestedDstPath, info.filesInfo))
    }

    /** The directory cases of init_transfer_info: an existing directory is used, a missing one
        is made in an existing one, and anything else is refused and nothing touched. */
    method InitTransferDirectory(info: TransferInfo) returns (ok: bool)
      requires recvCtx == [] && info.sourceIsDirectory
      modifies this
      ensures var dest, was := requestedDstPath, old(fs);
              if IsDir(was, dest) then Outcome(ok, was, info)
              else if dest !in was && dest != [] && IsDir(was, Parent(dest))
              then Outcome(ok, was[dest := DirEntry(493)], info)
              else !ok && fs == was
    {
      if requestedDstPath in fs {
        if fs[requestedDstPath].FileEntry? {
          return false;
        }
      } else if requestedDstPath != [] && IsDir(fs, Parent(requestedDstPath)) {
        fs := fs[requestedDstPath := DirEntry(DEFAULT_DIR_PERM)];
      } else {
        return false;
      }
      ok := PrepareTransferDirectory(info);
    }

    method PrepareTransferDirectory(info: TransferInfo) returns (ok: bool)
      requires recvCtx == []
      modifies this
      ensures ok <==> Rebuild(old(fs), requestedDstPath, info).Some?
      ensures ok ==> fs == Rebuild(old(fs), requestedDstPath, info).value
      ensures ok ==> recvCtx == Places(requestedDstPath, info.filesInfo)
    {
      ok := CreateInAdvance(info.dirsInfo);
      if ok {
        ok := OpenInAdvance(info.filesInfo);
      }
    }

    /** "Create directories in advance". */
    method CreateInAdvance(dirs: seq<DirectoryInfo>) returns (ok: bool)
      modifies this`fs
      ensures ok <==> MakeDirectories(old(fs), requestedDstPath, dirs).Some?
      ensures ok ==> fs == MakeDirectories(old(fs), requestedDstPath, dirs).value
    {
      var i := 0;
      while i < |dirs|
        invariant 0 <= i <= |dirs|
        invariant MakeDirectories(old(fs), requestedDstPath, dirs[..i]) == Some(fs)
      {
        assert dirs[..i + 1][..i] == dirs[..i];
        var g := MakeDirectory(fs, requestedDstPath, dirs[i]);
        if g == None {
          DirectoriesStop(old(fs), requestedDstPath, dirs, i + 1);
          return false;
        }
        fs := g.value;
        i := i + 1;
      }
      assert dirs[..i] == dirs;
      return true;
    }

    /** "Open files for write in advance". */
    method OpenInAdvance(files: seq<FileInfo>) returns (ok: bool)
      requires recvCtx == []
      modifies this
      ensures ok <==> OpenFiles(old(fs), requestedDstPath, files).Some?
      ensures ok ==> fs == OpenFiles(old(fs), requestedDstPath, files).value && recvCtx == Places(requestedDstPath, files)
    {
      var i := 0;
      while i < |files|
        invariant 0 <= i <= |files| && recvCtx == Places(requestedDstPath, files[..i])
        invariant OpenFiles(old(fs), requestedDstPath, files[..i]) == Some(fs)
      {
        assert files[..i + 1][..i] == files[..i];
        var g := OpenFile(fs, requestedDstPath, files[i]);
        if g == None {
          FilesStop(old(fs), requestedDstPath, files, i + 1);
          return false;
        }
        fs := g.value;
        recvCtx := recvCtx + [Place(requestedDstPath, files[i].relativePath)];
        i := i + 1;
      }
      assert files[..i] == files;
      return true;
    }
  }

  lemma {:induction false} DirectoriesStop(fs: Fs, dest: Path, dirs: seq<DirectoryInfo>, k: nat)
    requires k <= |dirs| && MakeDirectories(fs, dest, dirs[..k]) == None
    ensures MakeDirectories(fs, dest, dirs) == None
    decreases |dirs|
  {
    if k < |dirs| {
      assert dirs[..|dirs| - 1][..k] == dirs[..k];
      DirectoriesStop(fs, dest, dirs[..|dirs| - 1], k);
    } else {
      assert dirs[..k] == dirs;
    }
  }

  lemma {:induction false} FilesStop(fs: Fs, dest: Path, files: seq<FileInfo>, k: nat)
    requires k <= |files| && OpenFiles(fs, dest, files[..k]) == None
    ensures OpenFiles(fs, dest, files) == None
    decreases |files|
  {
    if k < |files| {
      assert files[..|files| - 1][..k] == files[..k];
      FilesStop(fs, dest, files[..|files| - 1], k);
    } else {
      assert files[..k] == files;
    }
  }

  // ----- a file system -----

  /** What exists is in a directory. */
  predicate InDir(fs: Fs, p: Path) { p == [] || IsDir(fs, Parent(p)) }

  ghost predicate World(fs: Fs) {
    IsDir(fs, []) && forall p {:trigger InDir(fs, p)} :: p in fs ==> InDir(fs, p)
  }

  lemma {:induction false} NothingMissing(fs: Fs, p: Path)
    requires World(fs) && IsDir(fs, p)
    ensures CreateDirectories(fs, p) == Some(fs)
    decreases |p|
  {
    if p != [] {
      assert InDir(fs, p);
      NothingMissing(fs, Parent(p));
    }
  }

  lemma StaysWorld(fs: Fs, p: Path, e: FsEntry)
    requires World(fs) && InDir(fs, p) && (e.DirEntry? || !IsDir(fs, p)) && (p == [] ==> e.DirEntry?)
    ensures World(fs[p := e])
  {
    var g := fs[p := e];
    forall q | q in g ensures InDir(g, q) {
      if q != p { assert InDir(fs, q); }
    }
  }

  ghost predicate EmptyDir(fs: Fs, dest: Path) {
    IsDir(fs, dest) && forall q {:trigger Below(q, dest)} :: q in fs ==> !Below(q, dest)
  }

  /** The destination has to be a directory, or to be missing from an existing one; then it is
      a directory, made with 0755 and empty if it was missing, and every other place is as it was. */
  lemma ArrivedInWorld(fs: Fs, dest: Path)
    requires World(fs)
    ensures Arrive(fs, dest).Some? <==> IsDir(fs, dest) || (dest !in fs && dest != [] && IsDir(fs, Parent(dest)))
    ensures Arrive(fs, dest).Some? ==>
              var g := Arrive(fs, dest).value;
              && World(g) && IsDir(g, dest)
              && (dest in fs ==> g == fs) && (dest !in fs ==> EmptyDir(g, dest) && g[dest] == DirEntry(0x1ed))
              && (forall q :: q != dest ==> Get(g, q) == Get(fs, q))
  {
    if dest !in fs && dest != [] && IsDir(fs, Parent(dest)) {
      StaysWorld(fs, dest, DirEntry(DEFAULT_DIR_PERM));
      forall q | q in fs ensures !Below(q, dest) { NoneBelow(fs, dest, q); }
    }
  }

  /** Nothing exists below what does not. */
  lemma {:induction false} NoneBelow(fs: Fs, dest: Path, q: Path)
    requires World(fs) && dest !in fs && q in fs
    ensures !Below(q, dest)
    decreases |q|
  {
    assert InDir(fs, q);
    if |q| > |dest| + 1 {
      assert Parent(q)[..|dest|] == q[..|dest|];
      NoneBelow(fs, dest, Parent(q));
    }
  }

  // ----- one item -----

  /** Nothing of the other kind is where the item goes. */
  predicate Fits(fs: Fs, p: Path, n: Node) { p in fs ==> (n.Dir? <==> fs[p].DirEntry?) }

  lemma MakeOne(fs: Fs, dest: Path, di: DirectoryInfo, p: Path)
    requires World(fs) && InDir(fs, p) && Place(dest, di.relativePath) == p
    ensures MakeDirectory(fs, dest, di)
            == if p in fs && fs[p].FileEntry? then None else Some(fs[p := DirEntry(di.posixPerm)])
  {
    if p != [] { NothingMissing(fs, Parent(p)); }
    assert fs[p := DirEntry(DEFAULT_DIR_PERM)][p := DirEntry(di.posixPerm)] == fs[p := DirEntry(di.posixPerm)];
  }

  /** The entry a node becomes, before any of its content arrives. */
  function Skeleton(n: Node): FsEntry
    requires !n.Special?
  {
    match n
    case File(content, perm) => FileEntry(Zeros(|content|), FilePerm(perm))
    case Dir(perm, _) => DirEntry(perm)
  }

  // ----- a list of items -----

  /** Where the i-th item of a list goes. */
  function Spot(dest: Path, items: seq<Item>, i: nat): Path
    requires i < |items|
  {
    Resolve(dest, items[i].path)
  }

  predicate MadeBefore(dest: Path, items: seq<Item>, i: nat, p: Path)
    requires i <= |items|
  {
    exists j :: 0 <= j < i && items[j].node.Dir? && Spot(dest, items, j) == p
  }

  /** The directory of every item is there, or is made before it. */
  predicate Ready(fs: Fs, dest: Path, items: seq<Item>, i: nat)
    requires i < |items|
  {
    var p := Spot(dest, items, i);
    p == [] || IsDir(fs, Parent(p)) || MadeBefore(dest, items, i, Parent(p))
  }

  /** A list that can be carried out from `fs`, but for what is in the way. */
  predicate Listing(fs: Fs, dest: Path, items: seq<Item>) {
    && Named(items)
    && (forall i :: 0 <= i < |items| ==> !items[i].node.Special? && Ready(fs, dest, items, i))
    && (forall i, j :: 0 <= i < j < |items| ==> Spot(dest, items, i) != Spot(dest, items, j))
  }

  /** Is item i a directory among the first d items, or a file among the first f? */
  predicate Done(items: seq<Item>, d: nat, f: nat, i: nat)
    requires i < |items|
  {
    (i < d && items[i].node.Dir?) || (i < f && items[i].node.File?)
  }

  predicate IsSpot(dest: Path, items: seq<Item>, d: nat, f: nat, p: Path) {
    exists i :: 0 <= i < |items| && Done(items, d, f, i) && Spot(dest, items, i) == p
  }

  predicate InPlace(fs: Fs, dest: Path, items: seq<Item>, i: nat)
    requires i < |items|
  {
    !items[i].node.Special? && Get(fs, Spot(dest, items, i)) == Some(Skeleton(items[i].node))
  }

  /** fs is `start` with exactly the done items put in place. */
  ghost predicate Holds(start: Fs, fs: Fs, dest: Path, items: seq<Item>, d: nat, f: nat) {
    && World(fs)
    && (forall i :: 0 <= i < |items| && Done(items, d, f, i) ==> InPlace(fs, dest, items, i))
    && (forall p {:trigger IsSpot(dest, items, d, f, p)} {:trigger Get(fs, p)} ::
          IsSpot(dest, items, d, f, p) || Get(fs, p) == Get(start, p))
  }

  lemma HoldsStart(start: Fs, dest: Path, items: seq<Item>)
    requires World(start)
    ensures Holds(start, start, dest, items, 0, 0)
  { }

  /** One more item done. */
  lemma HoldsMore(start: Fs, fs: Fs, dest: Path, items: seq<Item>, k: nat, d: nat, f: nat, d': nat, f': nat)
    requires Listing(start, dest, items) && k < |items| && Holds(start, fs, dest, items, d, f)
    requires forall i :: 0 <= i < |items| ==> (Done(items, d', f', i) <==> Done(items, d, f, i) || i == k)
    requires World(fs[Spot(dest, items, k) := Skeleton(items[k].node)])
    ensures Holds(start, fs[Spot(dest, items, k) := Skeleton(items[k].node)], dest, items, d', f')
  {
    var g := fs[Spot(dest, items, k) := Skeleton(items[k].node)];
    forall i | 0 <= i < |items| && Done(items, d', f', i) ensures InPlace(g, dest, items, i) {
      if i != k { assert InPlace(fs, dest, items, i); }
    }
    forall p ensures IsSpot(dest, items, d', f', p) || Get(g, p) == Get(start, p) {
      if p == Spot(dest, items, k) {
        assert Done(items, d', f', k);
      } else if IsSpot(dest, items, d, f, p) {
        var i :| 0 <= i < |items| && Done(items, d, f, i) && Spot(dest, items, i) == p;
        assert Done(items, d', f', i);
      } else {
        assert Get(g, p) == Get(fs, p);
      }
    }
  }

  lemma HoldsSame(start: Fs, fs: Fs, dest: Path, items: seq<Item>, d: nat, f: nat, d': nat, f': nat)
    requires Holds(start, fs, dest, items, d, f)
    requires forall i :: 0 <= i < |items| ==> (Done(items, d', f', i) <==> Done(items, d, f, i))
    ensures Holds(start, fs, dest, items, d', f')
  {
    forall p ensures IsSpot(dest, items, d', f', p) || Get(fs, p) == Get(start, p) {
      if IsSpot(dest, items, d, f, p) {
        var i :| 0 <= i < |items| && Done(items, d, f, i) && Spot(dest, items, i) == p;
        assert Done(items, d', f', i);
      }
    }
  }

  /** The next item's place is as it was at the start, unless it was missing there. */
  lemma SpotIsFresh(start: Fs, fs: Fs, dest: Path, items: seq<Item>, k: nat, d: nat, f: nat)
    requires Listing(start, dest, items) && k < |items| && Holds(start, fs, dest, items, d, f) && !Done(items, d, f, k)
    ensures Get(fs, Spot(dest, items, k)) == Get(start, Spot(dest, items, k))
  {
    var p := Spot(dest, items, k);
    forall i | 0 <= i < |items| && Done(items, d, f, i) ensures Spot(dest, items, i) != p { }
    assert !IsSpot(dest, items, d, f, p);
  }

  /** Its directory is there, provided directories were kept. */
  lemma SpotIsReady(start: Fs, fs: Fs, dest: Path, items: seq<Item>, k: nat, d: nat, f: nat)
    requires Listing(start, dest, items) && k < |items| && Holds(start, fs, dest, items, d, f)
    requires forall i :: 0 <= i < k && items[i].node.Dir? ==> Done(items, d, f, i)
    requires forall i :: 0 <= i < |items| && Done(items, d, f, i) ==> Fits(start, Spot(dest, items, i), items[i].node)
    ensures InDir(fs, Spot(dest, items, k))
  {
    var p := Spot(dest, items, k);
    if p != [] {
      var q := Parent(p);
      assert Ready(start, dest, items, k);
      if MadeBefore(dest, items, k, q) {
        var j :| 0 <= j < k && items[j].node.Dir? && Spot(dest, items, j) == q;
        assert InPlace(fs, dest, items, j);
      } else if IsSpot(dest, items, d, f, q) {
        var i :| 0 <= i < |items| && Done(items, d, f, i) && Spot(dest, items, i) == q;
        assert InPlace(fs, dest, items, i) && Fits(start, q, items[i].node);
      } else {
        assert Get(fs, q) == Get(start, q);
      }
    }
  }

  // ----- carrying out a list -----

  predicate DirsFit(start: Fs, dest: Path, items: seq<Item>, k: nat)
    requires k <= |items|
  {
    forall i :: 0 <= i < k && items[i].node.Dir? ==> Fits(start, Spot(dest, items, i), items[i].node)
  }

  predicate FilesFit(start: Fs, dest: Path, items: seq<Item>, k: nat)
    requires k <= |items|
  {
    forall i :: 0 <= i < k && items[i].node.File? ==> Fits(start, Spot(dest, items, i), items[i].node)
  }

  lemma DirectoryStep(start: Fs, fs: Fs, dest: Path, items: seq<Item>, k: nat)
    requires World(start) && Listing(start, dest, items) && k < |items| && items[k].node.Dir?
    requires Holds(start, fs, dest, items, k, 0) && DirsFit(start, dest, items, k)
    ensures var r := MakeDirectory(fs, dest, DirInfo(items[k]));
            && (r.Some? <==> Fits(start, Spot(dest, items, k), items[k].node))
            && (r.Some? ==> Holds(start, r.value, dest, items, k + 1, 0))
  {
    var p := Spot(dest, items, k);
    SplitJoin(items[k].path);
    SpotIsReady(start, fs, dest, items, k, k, 0);
    SpotIsFresh(start, fs, dest, items, k, k, 0);
    MakeOne(fs, dest, DirInfo(items[k]), p);
    StaysWorld(fs, p, Skeleton(items[k].node));
    HoldsMore(start, fs, dest, items, k, k, 0, k + 1, 0);
  }

  lemma FileStep(start: Fs, fs: Fs, dest: Path, items: seq<Item>, k: nat)
    requires World(start) && Listing(start, dest, items) && k < |items| && items[k].node.File?
    requires Holds(start, fs, dest, items, |items|, k)
    requires DirsFit(start, dest, items, |items|) && FilesFit(start, dest, items, k)
    ensures var r := OpenFile(fs, dest, Info(items[k]));
            && (r.Some? <==> Fits(start, Spot(dest, items, k), items[k].node))
            && (r.Some? ==> Holds(start, r.value, dest, items, |items|, k + 1))
  {
    var p := Spot(dest, items, k);
    SplitJoin(items[k].path);
    SpotIsReady(start, fs, dest, items, k, |items|, k);
    SpotIsFresh(start, fs, dest, items, k, |items|, k);
    assert IsDir(fs, p) <==> Get(fs, p).Some? && Get(fs, p).value.DirEntry?;
    assert IsDir(start, p) <==> Get(start, p).Some? && Get(start, p).value.DirEntry?;
    if !IsDir(fs, p) {
      StaysWorld(fs, p, Skeleton(items[k].node));
      HoldsMore(start, fs, dest, items, k, |items|, k, |items|, k + 1);
    }
  }

  /** What making the directories among the first k items gives. */
  ghost predicate DirsSo(start: Fs, dest: Path, items: seq<Item>, k: nat, r: Option<Fs>)
    requires k <= |items|
  {
    && (r.Some? <==> DirsFit(start, dest, items, k))
    && (r.Some? ==> Holds(start, r.value, dest, items, k, 0))
  }

  ghost predicate FilesSo(start: Fs, dest: Path, items: seq<Item>, k: nat, r: Option<Fs>)
    requires k <= |items|
  {
    && (r.Some? <==> FilesFit(start, dest, items, k))
    && (r.Some? ==> Holds(start, r.value, dest, items, |items|, k))
  }

  lemma DirsNext(start: Fs, dest: Path, items: seq<Item>, k: nat, was: Option<Fs>, now: Option<Fs>)
    requires World(start) && Listing(start, dest, items) && k < |items| && DirsSo(start, dest, items, k, was)
    requires now == if was == None then None
                    else if items[k].node.Dir? then MakeDirectory(was.value, dest, DirInfo(items[k])) else was
    ensures DirsSo(start, dest, items, k + 1, now)
  {
    if was.Some? {
      if items[k].node.Dir? {
        DirectoryStep(start, was.value, dest, items, k);
      } else {
        HoldsSame(start, was.value, dest, items, k, 0, k + 1, 0);
      }
    }
  }

  lemma FilesNext(start: Fs, dest: Path, items: seq<Item>, k: nat, was: Option<Fs>, now: Option<Fs>)
    requires World(start) && Listing(start, dest, items) && k < |items| && FilesSo(start, dest, items, k, was)
    requires DirsFit(start, dest, items, |items|)
    requires now == if was == None then None
                    else if items[k].node.File? then OpenFile(was.value, dest, Info(items[k])) else was
    ensures FilesSo(start, dest, items, k + 1, now)
  {
    if was.Some? {
      if items[k].node.File? {
        FileStep(start, was.value, dest, items, k);
      } else {
        HoldsSame(start, was.value, dest, items, |items|, k, |items|, k + 1);
      }
    }
  }

  /** One more directory info, whether or not the ones before could be made. */
  lemma MakeNext(fs: Fs, dest: Path, dirs: seq<DirectoryInfo>, di: DirectoryInfo)
    ensures MakeDirectories(fs, dest, dirs + [di])
            == match MakeDirectories(fs, dest, dirs) case None => None case Some(g) => MakeDirectory(g, dest, di)
  {
    assert (dirs + [di])[..|dirs|] == dirs;
  }

  lemma OpenNext(fs: Fs, dest: Path, files: seq<FileInfo>, fi: FileInfo)
    ensures OpenFiles(fs, dest, files + [fi])
            == match OpenFiles(fs, dest, files) case None => None case Some(g) => OpenFile(g, dest, fi)
  {
    assert (files + [fi])[..|files|] == files;
  }

  lemma {:induction false} DirectoriesMade(start: Fs, dest: Path, items: seq<Item>, k: nat)
    requires World(start) && Listing(start, dest, items) && k <= |items|
    ensures DirsSo(start, dest, items, k, MakeDirectories(start, dest, DirInfos(items[..k])))
  {
    if k == 0 {
      HoldsStart(start, dest, items);
    } else {
      var before, now := DirInfos(items[..k - 1]), DirInfos(items[..k]);
      DirectoriesMade(start, dest, items, k - 1);
      ListsGrow(items, k - 1);
      if items[k - 1].node.Dir? {
        MakeNext(start, dest, before, DirInfo(items[k - 1]));
      } else {
        assert now == before;
      }
      DirsNext(start, dest, items, k - 1, MakeDirectories(start, dest, before), MakeDirectories(start, dest, now));
    }
  }

  lemma {:induction false} FilesOpened(start: Fs, made: Fs, dest: Path, items: seq<Item>, k: nat)
    requires World(start) && Listing(start, dest, items) && k <= |items|
    requires DirsFit(start, dest, items, |items|) && Holds(start, made, dest, items, |items|, 0)
    ensures FilesSo(start, dest, items, k, OpenFiles(made, dest, FileInfos(items[..k])))
  {
    if k > 0 {
      var before, now := FileInfos(items[..k - 1]), FileInfos(items[..k]);
      FilesOpened(start, made, dest, items, k - 1);
      ListsGrow(items, k - 1);
      if items[k - 1].node.File? {
        OpenNext(made, dest, before, Info(items[k - 1]));
      } else {
        assert now == before;
      }
      FilesNext(start, dest, items, k - 1, OpenFiles(made, dest, before), OpenFiles(made, dest, now));
    }
  }

  predicate AllFit(start: Fs, dest: Path, items: seq<Item>) {
    forall i :: 0 <= i < |items| ==> Fits(start, Spot(dest, items, i), items[i].node)
  }

  function ListOf(items: seq<Item>): TransferInfo
    requires Named(items)
  {
    TransferInfo(true, DirInfos(items), FileInfos(items))
  }

  /** The destination can be prepared if and only if nothing of the other kind is in the way of
      any item; then every item is in place and everything else is as it was. */
  lemma SkeletonRebuilt(start: Fs, dest: Path, items: seq<Item>)
    requires World(start) && Listing(start, dest, items)
    ensures var r := Rebuild(start, dest, ListOf(items));
            && (r.Some? <==> AllFit(start, dest, items))
            && (r.Some? ==> Holds(start, r.value, dest, items, |items|, |items|))
  {
    var n := |items|;
    assert items[..n] == items;
    DirectoriesMade(start, dest, items, n);
    var r := MakeDirectories(start, dest, DirInfos(items));
    if r.Some? {
      FilesOpened(start, r.value, dest, items, n);
    }
    assert AllFit(start, dest, items) <==> DirsFit(start, dest, items, n) && FilesFit(start, dest, items, n);
  }
}
