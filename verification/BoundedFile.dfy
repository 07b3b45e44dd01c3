/** `read_bounded_file` against a file system that other processes change between, and during, its calls. */
module BoundedFile {
  import opened Basics
  import opened Sql
  import opened FileReferences
  import opened FileTree

  const MAX_BOUND := 65536
  const CHUNK := 8192

  datatype Failure = InvalidBound | Unavailable | NotRegular | TooLarge | Changed

  /** `_identity` */
  function Identity(st: Stat): (nat, nat, Kind, nat) { (st.dev, st.ino, st.kind, st.bits) }

  /** `_content_identity` */
  function ContentIdentity(st: Stat): ((nat, nat, Kind, nat), nat, int, int) {
    (Identity(st), st.size, st.mtime, st.ctime)
  }

  /** A link of the reference chain: directories count by identity, everything else by content identity. */
  datatype ChainEntry = Dir(identity: (nat, nat, Kind, nat)) | Leaf(content: ((nat, nat, Kind, nat), nat, int, int))

  function EntryOf(st: Stat): ChainEntry {
    if st.kind.Directory? then Dir(Identity(st)) else Leaf(ContentIdentity(st))
  }

  /** Two objects count as the same by device, inode and mode, and as unchanged by size and both times as well; in a
      reference chain a directory may change its content. */
  lemma IdentitiesByFields(a: Stat, b: Stat)
    ensures Identity(a) == Identity(b) <==> a.dev == b.dev && a.ino == b.ino && a.kind == b.kind && a.bits == b.bits
    ensures ContentIdentity(a) == ContentIdentity(b) <==> a == b
    ensures EntryOf(a) == EntryOf(b) <==>
      && a.dev == b.dev && a.ino == b.ino && a.kind == b.kind && a.bits == b.bits
      && (a.kind != Directory ==> a.size == b.size && a.mtime == b.mtime && a.ctime == b.ctime)
  {}

  /** What examining an object tells. */
  lemma StatByFields(n: Node)
    ensures StatOf(n) == Stat(n.dev, n.ino, n.kind, n.bits, |n.content|, n.mtime, n.ctime)
  {}

  datatype Check = Check(parent: Object, name: Name, identity: (nat, nat, Kind, nat))

  /** Every system call sees the snapshot of some later instant; `history` is arbitrary, so anything may happen in
      between. An object missing from a snapshot makes the call on it fail. */
  class FileSystem {
    const history: nat -> Snapshot
    const hops: nat
    var now: nat
    var handed: nat

    constructor (history: nat -> Snapshot, hops: nat)
      ensures this.history == history && this.hops == hops && now == 0 && handed == 0
    {
      this.history, this.hops := history, hops;
      now, handed := 0, 0;
    }

    function At(t: nat): Snapshot { history(t) }

    ghost predicate Valid() { forall t :: SnapshotOk(At(t)) }

    /** Nothing changes from `t` on. */
    ghost predicate Quiet(t: nat) { forall u :: t <= u ==> At(u) == At(t) }

    ghost predicate HasContent(o: Object, t: nat, bytes: seq<Byte>) {
      o in At(t).nodes && At(t).nodes[o].content == bytes
    }

    /** The content of `o` is `bytes` at every instant of the interval. */
    ghost predicate Steady(o: Object, from: nat, to: nat, bytes: seq<Byte>) {
      forall t :: from <= t <= to ==> HasContent(o, t, bytes)
    }

    ghost predicate Alike(o: Object, t: nat, p: Object, u: nat) {
      && o in At(t).nodes && p in At(u).nodes
      && At(t).nodes[o].kind.Regular?
      && ContentIdentity(StatOf(At(t).nodes[o])) == ContentIdentity(StatOf(At(u).nodes[p]))
    }

    /** Every write, and every reuse of an inode, changes the content identity. */
    ghost predicate Tracked() {
      forall o, t, p, u :: t <= u && Alike(o, t, p, u) ==> p == o && Steady(o, t, u, At(t).nodes[o].content)
    }

    /** A last examination that agrees with the first one in content identity and with the bytes in size. */
    ghost predicate Ends(o: Object, t: nat, before: FileTree.Stat, size: nat) {
      && o in At(t).nodes
      && ContentIdentity(StatOf(At(t).nodes[o])) == ContentIdentity(before)
      && size == |At(t).nodes[o].content|
    }

    /** Byte `k` of the object was `b` at some instant of the interval. */
    ghost predicate Seen(o: Object, k: nat, b: Byte, from: nat, to: nat) {
      exists t :: from <= t <= to && HasByte(o, k, b, t)
    }

    ghost predicate HasByte(o: Object, k: nat, b: Byte, t: nat) {
      o in At(t).nodes && k < |At(t).nodes[o].content| && At(t).nodes[o].content[k] == b
    }

    /** Bytes collected at possibly different instants: a read is not atomic. */
    ghost predicate Collected(o: Object, offset: nat, bytes: seq<Byte>, from: nat, to: nat) {
      forall i :: 0 <= i < |bytes| ==> Seen(o, offset + i, bytes[i], from, to)
    }

    /** The entry named an object of this identity at some instant of the interval. */
    ghost predicate Confirmed(c: Check, from: nat, to: nat) {
      exists t :: from <= t <= to && Names(c, At(t))
    }

    method Tick()
      modifies this`now
      ensures now >= old(now)
    {
      var t: nat :| t >= now;
      now := t;
    }

    method Resolve(path: Path) returns (r: Option<Path>)
      requires Valid()
      modifies this`now
      ensures now >= old(now)
      ensures r == Follow(At(now), [], path, hops)
    {
      Tick();
      r := Follow(At(now), [], path, hops);
    }

    method Stat(path: Path) returns (r: Option<FileTree.Stat>)
      requires Valid()
      modifies this`now
      ensures now >= old(now)
      ensures r == StatFollowed(At(now), path, hops)
    {
      Tick();
      r := StatFollowed(At(now), path, hops);
    }

    method LStat(path: Path) returns (r: Option<Stat>)
      requires Valid()
      modifies this`now
      ensures now >= old(now)
      ensures r == StatAtPath(At(now), path, hops)
    {
      Tick();
      r := StatAtPath(At(now), path, hops);
    }

    method FStat(o: Object) returns (r: Option<Stat>)
      modifies this`now
      ensures now >= old(now)
      ensures r == StatOfObject(At(now), o)
    {
      Tick();
      r := StatOfObject(At(now), o);
    }

    /** open with O_NOFOLLOW, and O_DIRECTORY where asked */
    method OpenAt(parent: Object, name: Name, directory: bool) returns (r: Option<Object>)
      modifies this`now
      ensures now >= old(now)
      ensures r == Opened(At(now), parent, name, directory)
    {
      Tick();
      r := Opened(At(now), parent, name, directory);
    }

    method StatAt(parent: Object, name: Name) returns (r: Option<Stat>)
      modifies this`now
      ensures now >= old(now)
      ensures r == StatOfEntry(At(now), parent, name)
    {
      Tick();
      r := StatOfEntry(At(now), parent, name);
    }

    /** Returns between one byte and `limit`, fewer than are there if it likes, and none only at the end. */
    method Read(o: Object, offset: nat, limit: nat) returns (r: Option<seq<Byte>>)
      requires limit >= 1
      modifies this`now, this`handed
      ensures now >= old(now)
      ensures r.None? ==> o !in At(now).nodes && handed == old(handed)
      ensures r.Some? ==> |r.value| <= limit && handed == old(handed) + |r.value|
      ensures r.Some? ==> Collected(o, offset, r.value, old(now), now)
      ensures r == Some([]) ==> o in At(now).nodes && offset >= |At(now).nodes[o].content|
    {
      Tick();
      if o !in At(now).nodes { return None; }
      var chunk: seq<Byte> := [];
      var more := true;
      while more && |chunk| < limit && o in At(now).nodes && offset + |chunk| < |At(now).nodes[o].content|
        invariant now >= old(now) && handed == old(handed)
        invariant |chunk| <= limit
        invariant chunk == [] ==> more && o in At(now).nodes
        invariant Collected(o, offset, chunk, old(now), now)
        decreases limit - |chunk|
      {
        ghost var before, was := chunk, now;
        assert HasByte(o, offset + |chunk|, At(now).nodes[o].content[offset + |chunk|], now);
        chunk := chunk + [At(now).nodes[o].content[offset + |chunk|]];
        more := *;
        Tick();
        CollectedWithin(this, o, offset, before, old(now), was, old(now), now);
      }
      handed := handed + |chunk|;
      r := Some(chunk);
    }
  }

  lemma CollectedWithin(
    fs: FileSystem, o: Object, offset: nat, bytes: seq<Byte>, from: nat, to: nat, earlier: nat, later: nat)
    requires fs.Collected(o, offset, bytes, from, to) && earlier <= from && to <= later
    ensures fs.Collected(o, offset, bytes, earlier, later)
  {
    forall i | 0 <= i < |bytes| ensures fs.Seen(o, offset + i, bytes[i], earlier, later) {
      assert fs.Seen(o, offset + i, bytes[i], from, to);
    }
  }

  lemma CollectedJoins(fs: FileSystem, o: Object, a: seq<Byte>, b: seq<Byte>, from: nat, mid: nat, to: nat)
    requires from <= mid <= to
    requires fs.Collected(o, 0, a, from, mid) && fs.Collected(o, |a|, b, mid, to)
    ensures fs.Collected(o, 0, a + b, from, to)
  {
    forall i | 0 <= i < |a + b| ensures fs.Seen(o, i, (a + b)[i], from, to) {
      if i < |a| {
        assert fs.Seen(o, 0 + i, a[i], from, mid);
      } else {
        assert fs.Seen(o, |a| + (i - |a|), b[i - |a|], mid, to);
      }
    }
  }

  lemma SteadyByte(fs: FileSystem, o: Object, k: nat, b: Byte, content: seq<Byte>, from: nat, to: nat)
    requires fs.Seen(o, k, b, from, to) && fs.Steady(o, from, to, content)
    ensures k < |content| && b == content[k]
  {
    var t :| from <= t <= to && fs.HasByte(o, k, b, t);
    assert fs.HasContent(o, t, content);
  }

  /** Bytes collected from a file that did not change are a prefix of it. */
  lemma SteadyPrefix(fs: FileSystem, o: Object, bytes: seq<Byte>, content: seq<Byte>, from: nat, to: nat)
    requires fs.Collected(o, 0, bytes, from, to) && fs.Steady(o, from, to, content) && from <= to
    ensures bytes <= content
  {
    forall i | 0 <= i < |bytes| ensures i < |content| && bytes[i] == content[i] {
      assert fs.Seen(o, 0 + i, bytes[i], from, to);
      SteadyByte(fs, o, i, bytes[i], content, from, to);
    }
    if bytes != [] {
      assert fs.Seen(o, 0 + (|bytes| - 1), bytes[|bytes| - 1], from, to);
      SteadyByte(fs, o, |bytes| - 1, bytes[|bytes| - 1], content, from, to);
    }
  }

  function StatOfObject(s: Snapshot, o: Object): Option<Stat> {
    if o in s.nodes then Some(StatOf(s.nodes[o])) else None
  }

  function StatAtPath(s: Snapshot, path: Path, hops: nat): Option<Stat>
    requires s.top in s.nodes
  {
    match LookUp(s, path, hops)
    case None => None
    case Some(o) => Some(StatOf(s.nodes[o]))
  }

  function StatFollowed(s: Snapshot, path: Path, hops: nat): Option<Stat>
    requires s.top in s.nodes
  {
    match Follow(s, [], path, hops)
    case None => None
    case Some(q) =>
      match Walk(s, q)
      case None => None
      case Some(o) => Some(StatOf(s.nodes[o]))
  }

  function StatOfEntry(s: Snapshot, parent: Object, name: Name): Option<Stat> {
    match Child(s, parent, name)
    case None => None
    case Some(o) => Some(StatOf(s.nodes[o]))
  }

  function Opened(s: Snapshot, parent: Object, name: Name, directory: bool): (r: Option<Object>) {
    match Child(s, parent, name)
    case None => None
    case Some(o) =>
      if s.nodes[o].kind.Link? || (directory && !s.nodes[o].kind.Directory?) then None else Some(o)
  }

  predicate Names(c: Check, s: Snapshot) {
    var st := StatOfEntry(s, c.parent, c.name);
    st.Some? && Identity(st.value) == c.identity
  }

  /** One component of the reference at one instant. */
  function EntryAt(s: Snapshot, root: Path, parts: Path, k: nat, hops: nat): Option<ChainEntry>
    requires s.top in s.nodes && k < |parts|
  {
    var st := StatAtPath(s, root + parts[..k + 1], hops);
    if st.None? then None else Some(EntryOf(st.value))
  }

  /** `_reference_chain` at one instant. */
  function ChainAt(s: Snapshot, root: Path, parts: Path, n: nat, hops: nat): Option<seq<ChainEntry>>
    requires s.top in s.nodes && n <= |parts|
  {
    if n == 0 then Some([])
    else
      var init, entry := ChainAt(s, root, parts, n - 1, hops), EntryAt(s, root, parts, n - 1, hops);
      if init.None? || entry.None? then None else Some(init.value + [entry.value])
  }

  /** The component looked like this at some instant of the interval. */
  ghost predicate EntrySeen(fs: FileSystem, root: Path, parts: Path, k: nat, entry: ChainEntry, from: nat, to: nat)
    requires fs.Valid() && k < |parts|
  {
    exists t :: from <= t <= to && LooksLike(fs, root, parts, k, entry, t)
  }

  ghost predicate LooksLike(fs: FileSystem, root: Path, parts: Path, k: nat, entry: ChainEntry, t: nat)
    requires fs.Valid() && k < |parts|
  {
    EntryAt(fs.At(t), root, parts, k, fs.hops) == Some(entry)
  }

  /** Each component of the reference looked as in the chain at some instant of the interval. */
  ghost predicate ChainSeen(fs: FileSystem, root: Path, parts: Path, chain: seq<ChainEntry>, from: nat, to: nat)
    requires fs.Valid()
  {
    |chain| <= |parts| && forall k :: 0 <= k < |chain| ==> EntrySeen(fs, root, parts, k, chain[k], from, to)
  }

  lemma ChainSeenWithin(fs: FileSystem, root: Path, parts: Path, chain: seq<ChainEntry>,
                        from: nat, to: nat, earlier: nat, later: nat)
    requires fs.Valid() && ChainSeen(fs, root, parts, chain, from, to) && earlier <= from && to <= later
    ensures ChainSeen(fs, root, parts, chain, earlier, later)
  {
    forall k | 0 <= k < |chain| ensures EntrySeen(fs, root, parts, k, chain[k], earlier, later) {
      assert EntrySeen(fs, root, parts, k, chain[k], from, to);
    }
  }

  lemma ChainSeenOn(fs: FileSystem, root: Path, parts: Path, chain: seq<ChainEntry>, entry: ChainEntry,
                    from: nat, mid: nat, to: nat)
    requires fs.Valid() && ChainSeen(fs, root, parts, chain, from, mid) && from <= mid <= to && |chain| < |parts|
    requires LooksLike(fs, root, parts, |chain|, entry, to)
    ensures ChainSeen(fs, root, parts, chain + [entry], from, to)
  {
    ChainSeenWithin(fs, root, parts, chain, from, mid, from, to);
    assert EntrySeen(fs, root, parts, |chain|, entry, from, to);
  }

  method LookAt(fs: FileSystem, root: Path, parts: Path, k: nat) returns (entry: Option<ChainEntry>)
    requires fs.Valid() && k < |parts|
    modifies fs`now
    ensures fs.now >= old(fs.now)
    ensures entry == EntryAt(fs.At(fs.now), root, parts, k, fs.hops)
  {
    var st := fs.LStat(root + parts[..k + 1]);
    return if st.None? then None else Some(EntryOf(st.value));
  }

  ghost predicate ComponentMissing(fs: FileSystem, root: Path, parts: Path, t: nat)
    requires fs.Valid()
  {
    exists k :: 0 <= k < |parts| && EntryAt(fs.At(t), root, parts, k, fs.hops) == None
  }

  /** `_reference_chain`, each component at an instant of its own. */
  method ReferenceChain(fs: FileSystem, root: Path, parts: Path) returns (r: Option<seq<ChainEntry>>)
    requires fs.Valid()
    modifies fs`now
    ensures fs.now >= old(fs.now)
    ensures r.Some? ==> |r.value| == |parts| && ChainSeen(fs, root, parts, r.value, old(fs.now), fs.now)
    ensures r.None? ==> ComponentMissing(fs, root, parts, fs.now)
    ensures fs.Quiet(old(fs.now)) ==> r == ChainAt(fs.At(old(fs.now)), root, parts, |parts|, fs.hops)
  {
    var result := [];
    ghost var s, quiet := fs.At(fs.now), fs.Quiet(fs.now);
    for i := 0 to |parts|
      invariant fs.now >= old(fs.now)
      invariant |result| == i && ChainSeen(fs, root, parts, result, old(fs.now), fs.now)
      invariant quiet ==> Some(result) == ChainAt(s, root, parts, i, fs.hops)
    {
      ghost var was := fs.now;
      var entry := LookAt(fs, root, parts, i);
      if quiet { ChainAtNext(s, root, parts, i, result, entry, fs.hops); }
      if entry.None? { return None; }
      ChainSeenOn(fs, root, parts, result, entry.value, old(fs.now), was, fs.now);
      result := result + [entry.value];
    }
    return Some(result);
  }

  lemma ChainAtNext(s: Snapshot, root: Path, parts: Path, i: nat, result: seq<ChainEntry>,
                    entry: Option<ChainEntry>, hops: nat)
    requires s.top in s.nodes && i < |parts| && Some(result) == ChainAt(s, root, parts, i, hops)
    requires entry == EntryAt(s, root, parts, i, hops)
    ensures entry.None? ==> ChainAt(s, root, parts, |parts|, hops).None?
    ensures entry.Some? ==> ChainAt(s, root, parts, i + 1, hops) == Some(result + [entry.value])
  {
    if entry.None? { ChainStaysBroken(s, root, parts, i + 1, |parts|, hops); }
  }

  lemma {:induction false} ChainStaysBroken(s: Snapshot, root: Path, parts: Path, k: nat, n: nat, hops: nat)
    requires s.top in s.nodes && k <= n <= |parts| && ChainAt(s, root, parts, k, hops).None?
    ensures ChainAt(s, root, parts, n, hops).None?
    decreases n
  {
    if k < n { ChainStaysBroken(s, root, parts, k, n - 1, hops); }
  }

  lemma {:induction false} ChainIsComplete(s: Snapshot, root: Path, parts: Path, n: nat, hops: nat)
    requires s.top in s.nodes && n <= |parts| && ".." !in parts && Follow(s, [], root + parts, hops).Some?
    ensures ChainAt(s, root, parts, n, hops).Some?
  {
    if n > 0 {
      ChainIsComplete(s, root, parts, n - 1, hops);
      assert parts[n - 1] in parts;
      ChainExists(s, root, parts, n - 1, hops);
    }
  }

  // ---------------------------------------------------------------- descending without links

  /** The object an entry led to: the next one's parent, or what the descent ended at. */
  function Led(checks: seq<Check>, i: nat, fd: Object): Object
    requires i <= |checks|
  {
    if i < |checks| then checks[i].parent else fd
  }

  /** The name led from its parent to `o`, which is no link, and `o` had the noted identity, at instants of the
      interval. */
  ghost predicate Leads(fs: FileSystem, c: Check, o: Object, from: nat, to: nat) {
    && (exists t :: from <= t <= to && OpensTo(fs, c, o, t))
    && (exists t :: from <= t <= to && HasIdentity(fs, c, o, t))
  }

  ghost predicate OpensTo(fs: FileSystem, c: Check, o: Object, t: nat) {
    Child(fs.At(t), c.parent, c.name) == Some(o) && !fs.At(t).nodes[o].kind.Link?
  }

  ghost predicate HasIdentity(fs: FileSystem, c: Check, o: Object, t: nat) {
    o in fs.At(t).nodes && Identity(StatOf(fs.At(t).nodes[o])) == c.identity
  }

  /** The i-th name led to where the next one was opened, or to where the descent ended. */
  ghost predicate LeadsAt(fs: FileSystem, checks: seq<Check>, i: nat, fd: Object, from: nat, to: nat)
    requires i < |checks|
  {
    Leads(fs, checks[i], Led(checks, i + 1, fd), from, to)
  }

  /** Opening the noted names one after the other, each in what the one before led to, leads from `top` to `fd`. */
  ghost predicate Descends(fs: FileSystem, top: Object, checks: seq<Check>, fd: Object, from: nat, to: nat) {
    && Led(checks, 0, fd) == top
    && forall i :: 0 <= i < |checks| ==> LeadsAt(fs, checks, i, fd, from, to)
  }

  ghost predicate Spells(checks: seq<Check>, path: Path) {
    |checks| == |path| && forall i :: 0 <= i < |checks| ==> SpellsAt(checks, path, i)
  }

  predicate SpellsAt(checks: seq<Check>, path: Path, i: nat)
    requires i < |checks| == |path|
  {
    checks[i].name == path[i]
  }

  lemma DescendsWithin(fs: FileSystem, top: Object, checks: seq<Check>, fd: Object, from: nat, to: nat, later: nat)
    requires Descends(fs, top, checks, fd, from, to) && to <= later
    ensures Descends(fs, top, checks, fd, from, later)
  {
    forall i | 0 <= i < |checks| ensures LeadsAt(fs, checks, i, fd, from, later) {
      assert LeadsAt(fs, checks, i, fd, from, to);
    }
  }

  lemma DescendsOn(fs: FileSystem, top: Object, checks: seq<Check>, fd: Object, c: Check, o: Object,
                   from: nat, mid: nat, to: nat)
    requires Descends(fs, top, checks, fd, from, mid) && c.parent == fd && from <= mid <= to && Leads(fs, c, o, mid, to)
    ensures Descends(fs, top, checks + [c], o, from, to)
  {
    var more := checks + [c];
    forall i | 0 <= i < |more| ensures LeadsAt(fs, more, i, o, from, to) {
      if i < |checks| { assert LeadsAt(fs, checks, i, fd, from, mid); }
    }
  }
}
