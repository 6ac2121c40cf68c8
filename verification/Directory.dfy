/** A directory tree on the source side, the lists that describe it, and what the destination
    makes of them (src/transfer.cpp:223-266, 535-544 and 601-622). */
module Directory {
  import opened Basics
  import opened TransferInfo
  import Hosts

  type Path = seq<string>

  /** The entries of a directory are in the order the directory iterator visits them. */
  datatype Node =
    | File(content: seq<Byte>, perm: nat)
    | Dir(perm: nat, entries: seq<Entry>)
    | Special

  datatype Entry = Entry(name: string, node: Node)

  // ----- paths as text -----

  /** A component of a path as text. */
  predicate TextOk(n: string) { n != "" && forall k :: 0 <= k < |n| ==> n[k] != '/' }

  /** A name a directory entry can have; `.` and `..` are not entries of the iteration. */
  predicate NameOk(n: string) { TextOk(n) && n != "." && n != ".." }

  predicate TextPath(p: Path) { p != [] && forall k :: 0 <= k < |p| ==> TextOk(p[k]) }

  predicate PathOk(p: Path) { p != [] && forall k :: 0 <= k < |p| ==> NameOk(p[k]) }

  function Join(p: Path): string
    requires p != []
  {
    if |p| == 1 then p[0] else p[0] + "/" + Join(p[1..])
  }

  function Split(s: string): (p: Path)
    ensures p != []
    decreases |s|
  {
    var i := Hosts.IndexOf(s, '/');
    if i < |s| then [s[..i]] + Split(s[i + 1..]) else [s]
  }

  lemma {:induction false} SplitJoin(p: Path)
    requires TextPath(p)
    ensures Split(Join(p)) == p
    decreases |p|
  {
    var s, n := Join(p), |p[0]|;
    forall k | 0 <= k < n ensures s[k] != '/' { assert s[k] == p[0][k]; }
    if |p| == 1 {
      assert Hosts.IndexOf(s, '/') == n;
    } else {
      assert s[n] == '/';
      assert Hosts.IndexOf(s, '/') == n;
      assert s[..n] == p[0] && s[n + 1..] == Join(p[1..]);
      SplitJoin(p[1..]);
    }
  }

  // ----- the tree and its iteration -----

  datatype Item = Item(path: Path, node: Node)

  /** recursive_directory_iterator: a directory comes before what is in it. */
  function PreOrder(entries: seq<Entry>, at: Path): seq<Item>
    decreases entries
  {
    if entries == [] then []
    else
      FirstItems(entries[0], at) + PreOrder(entries[1..], at)
  }

  /** An entry, then, for a directory, what is in it. */
  function FirstItems(e: Entry, at: Path): seq<Item>
    decreases e
  {
    [Item(at + [e.name], e.node)] + if e.node.Dir? then PreOrder(e.node.entries, at + [e.name]) else []
  }

  function Find(entries: seq<Entry>, name: string): Option<Node> {
    if entries == [] then None
    else if entries[0].name == name then Some(entries[0].node)
    else Find(entries[1..], name)
  }

  /** The node a path leads to. */
  function Lookup(entries: seq<Entry>, p: Path): Option<Node>
    decreases |p|
  {
    if p == [] then None
    else
      match Find(entries, p[0])
      case None => None
      case Some(node) =>
        if |p| == 1 then Some(node) else if node.Dir? then Lookup(node.entries, p[1..]) else None
  }

  /** Names are usable and distinct within each directory; permissions have no extra bits. */
  predicate WellFormed(entries: seq<Entry>)
    decreases entries
  {
    entries != [] ==>
      var e := entries[0];
      && NameOk(e.name) && Find(entries[1..], e.name) == None
      && (e.node.File? ==> e.node.perm < 4096)
      && (e.node.Dir? ==> e.node.perm < 4096 && WellFormed(e.node.entries))
      && WellFormed(entries[1..])
  }

  predicate Distinct(items: seq<Item>) {
    forall i, j :: 0 <= i < j < |items| ==> items[i].path != items[j].path
  }

  predicate Below(path: Path, at: Path) { |path| > |at| && path[..|at|] == at }

  /** Items are below `at`, at the place where the tree has them. */
  predicate Placed(entries: seq<Entry>, at: Path, items: seq<Item>) {
    forall i :: 0 <= i < |items| ==>
      && Below(items[i].path, at) && PathOk(items[i].path[|at|..])
      && Lookup(entries, items[i].path[|at|..]) == Some(items[i].node)
  }

  function Parent(p: Path): Path
    requires p != []
  {
    p[..|p| - 1]
  }

  predicate DirBefore(items: seq<Item>, i: nat, p: Path)
    requires i <= |items|
  {
    exists j :: 0 <= j < i && items[j].path == p && items[j].node.Dir?
  }

  /** The directory an item is in was visited before it. */
  predicate ParentsFirst(items: seq<Item>, at: Path) {
    forall i :: 0 <= i < |items| && |items[i].path| > |at| + 1 ==> DirBefore(items, i, Parent(items[i].path))
  }

  lemma ConcatParents(a: seq<Item>, b: seq<Item>, at: Path)
    requires ParentsFirst(a, at) && ParentsFirst(b, at)
    ensures ParentsFirst(a + b, at)
  {
    var c := a + b;
    forall i | 0 <= i < |c| && |c[i].path| > |at| + 1 ensures DirBefore(c, i, Parent(c[i].path)) {
      if i < |a| {
        assert DirBefore(a, i, Parent(a[i].path));
        var j :| 0 <= j < i && a[j].path == Parent(a[i].path) && a[j].node.Dir?;
        assert c[j] == a[j];
      } else {
        assert DirBefore(b, i - |a|, Parent(b[i - |a|].path));
        var j :| 0 <= j < i - |a| && b[j].path == Parent(b[i - |a|].path) && b[j].node.Dir?;
        assert c[j + |a|] == b[j];
      }
    }
  }

  /** A directory in front of the items below it. */
  lemma FirstParents(first: Item, sub: seq<Item>, at: Path, name: string)
    requires first.path == at + [name] && (first.node.Dir? || sub == [])
    requires ParentsFirst(sub, at + [name]) && forall i :: 0 <= i < |sub| ==> Below(sub[i].path, at + [name])
    ensures ParentsFirst([first] + sub, at)
  {
    var c := [first] + sub;
    forall i | 0 <= i < |c| && |c[i].path| > |at| + 1 ensures DirBefore(c, i, Parent(c[i].path)) {
      var s := sub[i - 1];
      if |s.path| == |at| + 2 {
        assert Parent(s.path) == at + [name];
        assert c[0] == first;
      } else {
        assert DirBefore(sub, i - 1, Parent(s.path));
        var j :| 0 <= j < i - 1 && sub[j].path == Parent(s.path) && sub[j].node.Dir?;
        assert c[j + 1] == sub[j];
      }
    }
  }

  lemma PlacedSub(entries: seq<Entry>, at: Path, e: Entry, sub: seq<Item>)
    requires entries != [] && entries[0] == e && e.node.Dir? && NameOk(e.name)
    requires Placed(e.node.entries, at + [e.name], sub)
    ensures Placed(entries, at, sub)
    ensures forall i :: 0 <= i < |sub| ==> |sub[i].path| > |at| + 1 && sub[i].path[|at|] == e.name
  {
    forall i | 0 <= i < |sub|
      ensures Below(sub[i].path, at) && PathOk(sub[i].path[|at|..])
              && Lookup(entries, sub[i].path[|at|..]) == Some(sub[i].node)
              && |sub[i].path| > |at| + 1 && sub[i].path[|at|] == e.name
    {
      var p := sub[i].path;
      assert p[..|at| + 1] == at + [e.name];
      assert p[|at|] == (at + [e.name])[|at|] == e.name;
      assert p[..|at|] == (at + [e.name])[..|at|] == at;
      assert p[|at|..][1..] == p[|at + [e.name]|..];
      assert p[|at|..] == [e.name] + p[|at + [e.name]|..];
    }
  }

  lemma PlacedRest(entries: seq<Entry>, at: Path, rest: seq<Item>)
    requires entries != [] && Find(entries[1..], entries[0].name) == None
    requires Placed(entries[1..], at, rest)
    ensures Placed(entries, at, rest)
    ensures forall i :: 0 <= i < |rest| ==> Below(rest[i].path, at) && rest[i].path[|at|] != entries[0].name
  {
    forall i | 0 <= i < |rest|
      ensures Lookup(entries, rest[i].path[|at|..]) == Some(rest[i].node)
              && Below(rest[i].path, at) && rest[i].path[|at|] != entries[0].name
    {
      var p := rest[i].path[|at|..];
      assert p[0] == rest[i].path[|at|];
      assert Find(entries[1..], p[0]).Some?;
    }
  }

  /** The iteration visits every item at its place, once, and after its directory. */
  lemma {:induction false} PreOrderListing(entries: seq<Entry>, at: Path)
    requires WellFormed(entries)
    ensures var items := PreOrder(entries, at);
            Placed(entries, at, items) && Distinct(items) && ParentsFirst(items, at)
    decreases entries
  {
    if entries != [] {
      var e := entries[0];
      var first, rest := FirstItems(e, at), PreOrder(entries[1..], at);
      assert PreOrder(entries, at) == first + rest;
      PreOrderListing(entries[1..], at);
      PlacedRest(entries, at, rest);
      FirstListing(entries, at);
      ConcatParents(first, rest, at);
    }
  }

  lemma {:induction false} FirstListing(entries: seq<Entry>, at: Path)
    requires WellFormed(entries) && entries != []
    ensures var first := FirstItems(entries[0], at);
            && Placed(entries, at, first) && Distinct(first) && ParentsFirst(first, at)
            && forall i :: 0 <= i < |first| ==> first[i].path[|at|] == entries[0].name
    decreases entries, 0
  {
    var e := entries[0];
    var head := Item(at + [e.name], e.node);
    assert head.path[|at|..] == [e.name];
    if e.node.Dir? {
      var sub := PreOrder(e.node.entries, at + [e.name]);
      PreOrderListing(e.node.entries, at + [e.name]);
      PlacedSub(entries, at, e, sub);
      FirstParents(head, sub, at, e.name);
    } else {
      FirstParents(head, [], at, e.name);
    }
  }

  /** Whatever the tree has is visited. */
  lemma {:induction false} AllVisited(entries: seq<Entry>, at: Path, p: Path)
    requires Lookup(entries, p).Some?
    ensures Item(at + p, Lookup(entries, p).value) in PreOrder(entries, at)
    decreases entries
  {
    var e := entries[0];
    if e.name == p[0] {
      assert [p[0]] + p[1..] == p;
      if |p| > 1 {
        AllVisited(e.node.entries, at + [e.name], p[1..]);
        assert at + [e.name] + p[1..] == at + p;
      } else {
        assert FirstItems(e, at)[0] == Item(at + p, e.node);
      }
    } else {
      AllVisited(entries[1..], at, p);
    }
  }

  // ----- the lists -----

  function DirsOf(items: seq<Item>): seq<Item>
    decreases |items|
  {
    if items == [] then []
    else DirsOf(items[..|items| - 1]) + if items[|items| - 1].node.Dir? then [items[|items| - 1]] else []
  }

  function FilesOf(items: seq<Item>): seq<Item>
    decreases |items|
  {
    if items == [] then []
    else FilesOf(items[..|items| - 1]) + if items[|items| - 1].node.File? then [items[|items| - 1]] else []
  }

  predicate Named(items: seq<Item>) { forall i :: 0 <= i < |items| ==> TextPath(items[i].path) }

  lemma {:induction false} OnlyDirs(items: seq<Item>)
    ensures forall d :: d in DirsOf(items) ==> d in items && d.node.Dir?
    ensures forall d :: d in items && d.node.Dir? ==> d in DirsOf(items)
    decreases |items|
  {
    if items != [] { OnlyDirs(items[..|items| - 1]); }
  }

  lemma {:induction false} OnlyFiles(items: seq<Item>)
    ensures forall f :: f in FilesOf(items) ==> f in items && f.node.File?
    ensures forall f :: f in items && f.node.File? ==> f in FilesOf(items)
    decreases |items|
  {
    if items != [] { OnlyFiles(items[..|items| - 1]); }
  }

  function DirInfo(d: Item): DirectoryInfo
    requires d.node.Dir? && d.path != []
  {
    DirectoryInfo(Join(d.path), d.node.perm)
  }

  function Info(f: Item): FileInfo
    requires f.node.File? && f.path != []
  {
    FileInfo(Join(f.path), |f.node.content|, f.node.perm)
  }

  /** The source's prepare_transfer_directory. `sendCtx[i]` is what its i-th open handle reads. */
  class TransferSource {
    var info: TransferInfo
    var sendCtx: seq<seq<Byte>>

    constructor ()
      ensures info == TransferInfo(true, [], []) && sendCtx == []
    {
      info, sendCtx := TransferInfo(true, [], []), [];
    }

    /** `visited` is the iteration over the source directory, with `dirName` in front of every
        path unless it is empty. It fails exactly when it meets a special file; on success
        index i of the file list and of the handles is the i-th visited file. */
    method PrepareTransferDirectory(dirName: string, perm: nat, visited: seq<Item>) returns (ok: bool)
      requires info == TransferInfo(true, [], []) && sendCtx == []
      requires Named(visited)
      modifies this
      ensures ok <==> forall i :: 0 <= i < |visited| ==> !visited[i].node.Special?
      ensures ok ==> info == Described(dirName, perm, visited) && sendCtx == Contents(visited)
    {
      if dirName != "" {
        info := info.(dirsInfo := info.dirsInfo + [DirectoryInfo(dirName, perm)]);
      }
      ghost var start := info.dirsInfo;
      var i := 0;
      while i < |visited|
        invariant 0 <= i <= |visited|
        invariant forall k :: 0 <= k < i ==> !visited[k].node.Special?
        invariant info.sourceIsDirectory && info.dirsInfo == start + DirInfos(visited[..i])
        invariant info.filesInfo == FileInfos(visited[..i]) && sendCtx == Contents(visited[..i])
      {
        var p := visited[i];
        match p.node {
          case Dir(perm, _) =>
            info := info.(dirsInfo := info.dirsInfo + [DirectoryInfo(Join(p.path), perm)]);
          case File(content, perm) =>
            info := info.(filesInfo := info.filesInfo + [FileInfo(Join(p.path), |content|, perm)]);
            sendCtx := sendCtx + [content];
          case Special =>
            return false;
        }
        ListsGrow(visited, i);
        i := i + 1;
      }
      assert visited[..i] == visited;
      return true;
    }
  }

  function DirInfos(items: seq<Item>): (r: seq<DirectoryInfo>)
    requires Named(items)
    ensures |r| == |DirsOf(items)|
  {
    OnlyDirs(items);
    var dirs := DirsOf(items);
    seq(|dirs|, i requires 0 <= i < |dirs| && dirs[i] in dirs => DirInfo(dirs[i]))
  }

  function FileInfos(items: seq<Item>): (r: seq<FileInfo>)
    requires Named(items)
    ensures |r| == |FilesOf(items)|
  {
    OnlyFiles(items);
    var files := FilesOf(items);
    seq(|files|, i requires 0 <= i < |files| && files[i] in files => Info(files[i]))
  }

  function Contents(items: seq<Item>): (r: seq<seq<Byte>>)
    ensures |r| == |FilesOf(items)|
  {
    OnlyFiles(items);
    var files := FilesOf(items);
    seq(|files|, i requires 0 <= i < |files| && files[i] in files => files[i].node.content)
  }

  function Described(dirName: string, perm: nat, visited: seq<Item>): TransferInfo
    requires Named(visited)
  {
    TransferInfo(true, (if dirName == "" then [] else [DirectoryInfo(dirName, perm)]) + DirInfos(visited), FileInfos(visited))
  }

  lemma ListsGrow(items: seq<Item>, i: nat)
    requires Named(items) && i < |items|
    ensures DirInfos(items[..i + 1]) == DirInfos(items[..i]) + if items[i].node.Dir? then [DirInfo(items[i])] else []
    ensures FileInfos(items[..i + 1]) == FileInfos(items[..i]) + if items[i].node.File? then [Info(items[i])] else []
    ensures Contents(items[..i + 1]) == Contents(items[..i]) + if items[i].node.File? then [items[i].node.content] else []
  {
    assert items[..i + 1][..i] == items[..i];
  }
}
