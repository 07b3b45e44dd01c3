/** One instant of a directory tree with symbolic links, and path lookup in it. */
module FileTree {
  import opened Basics
  import opened Sql

  type Name = string
  type Path = seq<Name>
  type Object = nat

  datatype Kind = Regular | Directory | Link | Other

  datatype Target = Target(absolute: bool, names: Path)

  datatype Node = Node(
    dev: nat, ino: nat, kind: Kind, bits: nat, mtime: int, ctime: int,
    content: seq<Byte>, entries: map<Name, Object>, target: Target)

  datatype Stat = Stat(dev: nat, ino: nat, kind: Kind, bits: nat, size: nat, mtime: int, ctime: int)

  /** Paths are absolute: `[]` is the anchor. */
  datatype Snapshot = Snapshot(top: Object, nodes: map<Object, Node>)

  ghost predicate NodeOk(s: Snapshot, o: Object)
    requires o in s.nodes
  {
    && (forall name :: name in s.nodes[o].entries ==> s.nodes[o].entries[name] in s.nodes)
    && (!s.nodes[o].kind.Directory? ==> s.nodes[o].entries == map[])
  }

  ghost predicate SnapshotOk(s: Snapshot) {
    && s.top in s.nodes && s.nodes[s.top].kind.Directory?
    && forall o :: o in s.nodes ==> NodeOk(s, o)
  }

  function StatOf(n: Node): Stat {
    Stat(n.dev, n.ino, n.kind, n.bits, |n.content|, n.mtime, n.ctime)
  }

  function Child(s: Snapshot, o: Object, name: Name): (r: Option<Object>)
    ensures r.Some? ==> r.value in s.nodes
  {
    if o in s.nodes && name in s.nodes[o].entries && s.nodes[o].entries[name] in s.nodes
    then Some(s.nodes[o].entries[name]) else None
  }

  /** Descends entry by entry and follows no link. */
  function Walk(s: Snapshot, path: Path): (r: Option<Object>)
    requires s.top in s.nodes
    ensures r.Some? ==> r.value in s.nodes
    decreases |path|
  {
    if path == [] then Some(s.top)
    else match Walk(s, path[..|path| - 1])
      case None => None
      case Some(o) => Child(s, o, path[|path| - 1])
  }

  function Parent(path: Path): Path { if path == [] then [] else path[..|path| - 1] }

  /** Strict resolution of `todo` below the canonical path `at`, through at most `hops` links. */
  function Follow(s: Snapshot, at: Path, todo: Path, hops: nat): Option<Path>
    requires s.top in s.nodes
    decreases hops, |todo|
  {
    if todo == [] then Some(at)
    else if todo[0] == ".." then Follow(s, Parent(at), todo[1..], hops)
    else match Walk(s, at + [todo[0]])
      case None => None
      case Some(o) =>
        if !s.nodes[o].kind.Link? then Follow(s, at + [todo[0]], todo[1..], hops)
        else if hops == 0 then None
        else Follow(s, LinkBase(s.nodes[o], at), s.nodes[o].target.names + todo[1..], hops - 1)
  }

  function LinkBase(link: Node, at: Path): Path { if link.target.absolute then [] else at }

  /** lstat: links are followed everywhere but at the end. */
  function LookUp(s: Snapshot, path: Path, hops: nat): (r: Option<Object>)
    requires s.top in s.nodes
    ensures r.Some? ==> r.value in s.nodes
  {
    if path == [] then Some(s.top)
    else match Follow(s, [], path[..|path| - 1], hops)
      case None => None
      case Some(q) => Walk(s, q + [path[|path| - 1]])
  }

  /** A path that resolves to itself: no `..` in it, and no link on the way or at the end. */
  ghost predicate Canonical(s: Snapshot, path: Path)
    requires s.top in s.nodes
  {
    && ".." !in path
    && Walk(s, path).Some?
    && !s.nodes[Walk(s, path).value].kind.Link?
  }

  lemma ParentIsDirectory(s: Snapshot, path: Path)
    requires SnapshotOk(s) && path != [] && Walk(s, path).Some?
    ensures Walk(s, Parent(path)).Some? && s.nodes[Walk(s, Parent(path)).value].kind.Directory?
  {
    var o := Walk(s, Parent(path)).value;
    assert NodeOk(s, o);
  }

  lemma {:induction false} PrefixIsDirectory(s: Snapshot, path: Path, k: nat)
    requires SnapshotOk(s) && k < |path| && Walk(s, path).Some?
    ensures Walk(s, path[..k]).Some? && s.nodes[Walk(s, path[..k]).value].kind.Directory?
    decreases |path|
  {
    ParentIsDirectory(s, path);
    if k < |path| - 1 {
      PrefixIsDirectory(s, Parent(path), k);
      assert Parent(path)[..k] == path[..k];
    }
  }

  lemma WalkExtends(s: Snapshot, at: Path, name: Name)
    requires s.top in s.nodes
    ensures Walk(s, at + [name]) == match Walk(s, at) case None => None case Some(o) => Child(s, o, name)
  {
    assert (at + [name])[..|at|] == at;
  }

  /** One entry further down a path that exists. */
  lemma WalkStep(s: Snapshot, path: Path, k: nat)
    requires SnapshotOk(s) && k < |path| && Walk(s, path).Some?
    ensures Walk(s, path[..k]).Some? && s.nodes[Walk(s, path[..k]).value].kind.Directory?
    ensures Walk(s, path[..k + 1]).Some?
    ensures Walk(s, path[..k + 1]) == Child(s, Walk(s, path[..k]).value, path[k])
    ensures k + 1 < |path| ==> s.nodes[Walk(s, path[..k + 1]).value].kind.Directory?
  {
    PrefixIsDirectory(s, path, k);
    WalkExtends(s, path[..k], path[k]);
    assert path[..k] + [path[k]] == path[..k + 1];
    if k + 1 < |path| { PrefixIsDirectory(s, path, k + 1); } else { assert path[..k + 1] == path; }
  }

  lemma ParentIsCanonical(s: Snapshot, path: Path)
    requires SnapshotOk(s) && Canonical(s, path)
    ensures Canonical(s, Parent(path))
  {
    if path != [] { ParentIsDirectory(s, path); }
  }

  /** Whatever links a reference goes through, its resolution is free of them. */
  lemma {:induction false} ResolutionIsCanonical(s: Snapshot, at: Path, todo: Path, hops: nat)
    requires SnapshotOk(s) && Canonical(s, at) && Follow(s, at, todo, hops).Some?
    ensures Canonical(s, Follow(s, at, todo, hops).value)
    decreases hops, |todo|
  {
    if todo != [] {
      if todo[0] == ".." {
        ParentIsCanonical(s, at);
        ResolutionIsCanonical(s, Parent(at), todo[1..], hops);
      } else {
        var o := Walk(s, at + [todo[0]]).value;
        if !s.nodes[o].kind.Link? {
          ResolutionIsCanonical(s, at + [todo[0]], todo[1..], hops);
        } else {
          ResolutionIsCanonical(s, LinkBase(s.nodes[o], at), s.nodes[o].target.names + todo[1..], hops - 1);
        }
      }
    }
  }

  /** The part of a canonical path still to go is taken as it stands. */
  lemma {:induction false} CanonicalResolvesToItself(s: Snapshot, path: Path, k: nat, hops: nat)
    requires SnapshotOk(s) && Canonical(s, path) && k <= |path|
    ensures Follow(s, path[..k], path[k..], hops) == Some(path)
    decreases |path| - k
  {
    if k == |path| {
      assert path[..k] == path;
    } else {
      assert path[k..][0] == path[k] && path[k] in path;
      assert path[..k] + [path[k]] == path[..k + 1] && path[k..][1..] == path[k + 1..];
      if k + 1 < |path| { PrefixIsDirectory(s, path, k + 1); } else { assert path[..k + 1] == path; }
      CanonicalResolvesToItself(s, path, k + 1, hops);
    }
  }

  lemma LookUpOfCanonical(s: Snapshot, path: Path, hops: nat)
    requires SnapshotOk(s) && Canonical(s, path)
    ensures Follow(s, [], path, hops) == Some(path)
    ensures LookUp(s, path, hops) == Walk(s, path)
  {
    CanonicalResolvesToItself(s, path, 0, hops);
    assert path[..0] == [] && path[0..] == path;
    if path != [] {
      ParentIsCanonical(s, path);
      var parent := Parent(path);
      CanonicalResolvesToItself(s, parent, 0, hops);
      assert parent[..0] == [] && parent[0..] == parent;
      assert parent + [path[|path| - 1]] == path;
    }
  }

  lemma PrefixOfSplice(names: Path, todo: Path, k: nat)
    requires 0 < k < |todo|
    ensures |names + todo[1..]| > |names| + k - 1
    ensures (names + todo[1..])[..|names| + k - 1] == names + todo[..k][1..]
    ensures (names + todo[1..])[|names| + k - 1] == todo[k]
  {}

  lemma PrefixOfTail(todo: Path, k: nat)
    requires 0 < k < |todo|
    ensures todo[..k][1..] == todo[1..][..k - 1] && todo[1..][k - 1] == todo[k] && todo[..k][0] == todo[0]
  {}

  /** A path that resolves has an entry at every component on the way. */
  lemma {:induction false} ResolvedPrefixExists(s: Snapshot, at: Path, todo: Path, k: nat, hops: nat)
    requires s.top in s.nodes && k < |todo| && todo[k] != ".." && Follow(s, at, todo, hops).Some?
    ensures Follow(s, at, todo[..k], hops).Some?
    ensures Walk(s, Follow(s, at, todo[..k], hops).value + [todo[k]]).Some?
    decreases hops, |todo|
  {
    if k > 0 {
      PrefixOfTail(todo, k);
      if todo[0] == ".." {
        ResolvedPrefixExists(s, Parent(at), todo[1..], k - 1, hops);
      } else {
        var o := Walk(s, at + [todo[0]]).value;
        if !s.nodes[o].kind.Link? {
          ResolvedPrefixExists(s, at + [todo[0]], todo[1..], k - 1, hops);
        } else {
          var names := s.nodes[o].target.names;
          PrefixOfSplice(names, todo, k);
          ResolvedPrefixExists(s, LinkBase(s.nodes[o], at), names + todo[1..], |names| + k - 1, hops - 1);
        }
      }
    }
  }

  lemma ChainExists(s: Snapshot, root: Path, parts: Path, k: nat, hops: nat)
    requires s.top in s.nodes && k < |parts| && parts[k] != ".." && Follow(s, [], root + parts, hops).Some?
    ensures LookUp(s, root + parts[..k + 1], hops).Some?
  {
    ResolvedPrefixExists(s, [], root + parts, |root| + k, hops);
    var path := root + parts[..k + 1];
    assert path[..|path| - 1] == (root + parts)[..|root| + k];
    assert path[|path| - 1] == parts[k];
  }

  /** A link leads where its target leads: from the anchor if the target is absolute, and otherwise from the directory
      of the link; `..` leads to the directory above, and at the anchor nowhere else. */
  lemma LinksLead(s: Snapshot, at: Path, name: Name, rest: Path, hops: nat)
    requires s.top in s.nodes && name != ".." && Walk(s, at + [name]).Some?
    ensures var n := s.nodes[Walk(s, at + [name]).value];
      && (n.kind == Link && hops > 0 && n.target.absolute ==>
            Follow(s, at, [name] + rest, hops) == Follow(s, [], n.target.names + rest, hops - 1))
      && (n.kind == Link && hops > 0 && !n.target.absolute ==>
            Follow(s, at, [name] + rest, hops) == Follow(s, at, n.target.names + rest, hops - 1))
      && (n.kind == Link && hops == 0 ==> Follow(s, at, [name] + rest, hops) == None)
      && (n.kind != Link ==> Follow(s, at, [name] + rest, hops) == Follow(s, at + [name], rest, hops))
    ensures Follow(s, at + [name], [".."] + rest, hops) == Follow(s, at, rest, hops)
    ensures Follow(s, [], [".."] + rest, hops) == Follow(s, [], rest, hops)
  {
    assert ([name] + rest)[1..] == rest && ([".."] + rest)[1..] == rest;
    assert (at + [name])[..|at|] == at;
  }
}
