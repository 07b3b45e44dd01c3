/** The reader itself: path lookup, pinned directories, the chunk loop and the checks before bytes are handed out. */
module BoundedRead {
  import opened Basics
  import opened Sql
  import opened FileReferences
  import opened FileTree
  import opened BoundedFile

  datatype Plan = Plan(canonical: Path, rootBefore: Stat, candidate: Path, before: Stat, references: seq<ChainEntry>)

  /** What a reader would like to say: the reference resolves inside the root to a regular file that is small
      enough, and this is its content. */
  function Whole(s: Snapshot, root: Path, reference: string, maxBytes: int, hops: nat): Result<seq<Byte>, Failure>
    requires s.top in s.nodes
  {
    if !(1 <= maxBytes <= MAX_BOUND) then Err(InvalidBound)
    else if !Acceptable(reference) then Err(Unavailable)
    else WholeOf(s, root, Parts(reference), maxBytes, hops)
  }

  function WholeOf(s: Snapshot, root: Path, parts: Path, maxBytes: int, hops: nat): Result<seq<Byte>, Failure>
    requires s.top in s.nodes
  {
    match Follow(s, [], root, hops)
    case None => Err(Unavailable)
    case Some(canonical) =>
      match Follow(s, [], canonical + parts, hops)
      case None => Err(Unavailable)
      case Some(candidate) =>
        if !(canonical <= candidate) then Err(Unavailable)
        else if canonical == candidate then Err(NotRegular)
        else match Walk(s, candidate)
          case None => Err(Unavailable)
          case Some(o) =>
            if !s.nodes[o].kind.Regular? then Err(NotRegular)
            else if |s.nodes[o].content| > maxBytes then Err(TooLarge)
            else Ok(s.nodes[o].content)
  }

  /** What is learnt before anything is opened, at one instant. */
  ghost predicate PlannedAt(s: Snapshot, p: Plan, root: Path, parts: Path, maxBytes: int, hops: nat)
    requires s.top in s.nodes
  {
    && Follow(s, [], root, hops) == Some(p.canonical)
    && StatFollowed(s, p.canonical, hops) == Some(p.rootBefore)
    && Follow(s, [], p.canonical + parts, hops) == Some(p.candidate)
    && p.canonical < p.candidate
    && StatAtPath(s, p.candidate, hops) == Some(p.before)
    && p.before.kind.Regular? && p.before.size <= maxBytes
    && ChainAt(s, p.canonical, parts, |parts|, hops) == Some(p.references)
  }

  /** In one snapshot a resolution is canonical, so it can be looked up and descended to alike. */
  lemma ResolvedFacts(s: Snapshot, path: Path, q: Path, hops: nat)
    requires SnapshotOk(s) && Follow(s, [], path, hops) == Some(q)
    ensures Canonical(s, q) && Follow(s, [], q, hops) == Some(q) && LookUp(s, q, hops) == Walk(s, q)
    ensures StatFollowed(s, q, hops) == StatAtPath(s, q, hops) == Some(StatOf(s.nodes[Walk(s, q).value]))
  {
    ResolutionIsCanonical(s, [], path, hops);
    LookUpOfCanonical(s, q, hops);
  }

  /** Planning in a file system at rest finds a plan, or the failure of the simple form. */
  ghost predicate PreparedAt(s: Snapshot, r: Result<Plan, Failure>, root: Path, parts: Path, maxBytes: int, hops: nat)
    requires s.top in s.nodes
  {
    match r
    case Ok(p) => PlannedAt(s, p, root, parts, maxBytes, hops)
    case Err(e) => WholeOf(s, root, parts, maxBytes, hops) == Err(e)
  }

  ghost predicate InTime(from: nat, t: nat, to: nat) { from <= t <= to }

  /** The instants of the preparation: its beginning, the root resolved and examined, the reference resolved, the file
      first examined, its end. */
  datatype Start = Start(begin: nat, rooted: nat, examined: nat, resolved: nat, first: nat, end: nat)

  /** Each part of the plan was so at its instant. */
  ghost predicate Prepared(fs: FileSystem, p: Plan, root: Path, parts: Path, maxBytes: nat, t: Start, o: Object)
    requires fs.Valid()
  {
    && t.begin <= t.rooted <= t.examined <= t.resolved <= t.first <= t.end
    && StatFollowed(fs.At(t.examined), p.canonical, fs.hops) == Some(p.rootBefore)
    && Resolves(fs, root, p.canonical, t.rooted) && Resolves(fs, p.canonical + parts, p.candidate, t.resolved)
    && p.canonical < p.candidate && p.before.kind.Regular? && p.before.size <= maxBytes
    && LookUp(fs.At(t.first), p.candidate, fs.hops) == Some(o) && p.before == StatOf(fs.At(t.first).nodes[o])
    && |p.references| == |parts| && ChainSeen(fs, p.canonical, parts, p.references, t.first, t.end)
  }

  ghost predicate Resolves(fs: FileSystem, path: Path, q: Path, t: nat)
    requires fs.Valid()
  {
    Follow(fs.At(t), [], path, fs.hops) == Some(q)
  }

  /** Before anything is opened: root, candidate, first examination and reference chain. */
  method Prepare(fs: FileSystem, root: Path, parts: Path, maxBytes: nat)
    returns (r: Result<Plan, Failure>, ghost rooted: nat, ghost examined: nat, ghost resolved: nat, ghost first: nat,
      ghost o: Object)
    requires fs.Valid() && ".." !in parts
    modifies fs`now
    ensures r != Err(InvalidBound)
    ensures fs.now >= old(fs.now)
    ensures r.Ok? ==>
      Prepared(fs, r.value, root, parts, maxBytes,
               Start(old(fs.now), rooted, examined, resolved, first, fs.now), o)
    ensures fs.Quiet(old(fs.now)) ==> PreparedAt(fs.At(old(fs.now)), r, root, parts, maxBytes, fs.hops)
  {
    ghost var s := fs.At(fs.now);
    rooted, examined, resolved, first, o := fs.now, fs.now, fs.now, fs.now, 0;
    var canonical := fs.Resolve(root);
    rooted := fs.now;
    if canonical.None? { return Err(Unavailable), rooted, examined, resolved, first, o; }
    var rootBefore := fs.Stat(canonical.value);
    examined := fs.now;
    ghost var quiet := fs.Quiet(old(fs.now));
    if quiet { ResolvedFacts(s, root, canonical.value, fs.hops); }
    if rootBefore.None? { return Err(Unavailable), rooted, examined, resolved, first, o; }
    var candidate := fs.Resolve(canonical.value + parts);
    resolved := fs.now;
    if candidate.None? || !(canonical.value <= candidate.value) {
      return Err(Unavailable), rooted, examined, resolved, first, o;
    }
    if |candidate.value| == |canonical.value| { return Err(NotRegular), rooted, examined, resolved, first, o; }
    if quiet { ResolvedFacts(s, canonical.value + parts, candidate.value, fs.hops); }
    var before := fs.LStat(candidate.value);
    first := fs.now;
    if before.None? { return Err(Unavailable), rooted, examined, resolved, first, o; }
    o := LookUp(fs.At(first), candidate.value, fs.hops).value;
    if quiet { ChainIsComplete(s, canonical.value, parts, |parts|, fs.hops); }
    var references := ReferenceChain(fs, canonical.value, parts);
    if references.None? { return Err(Unavailable), rooted, examined, resolved, first, o; }
    if !before.value.kind.Regular? { return Err(NotRegular), rooted, examined, resolved, first, o; }
    if before.value.size > maxBytes { return Err(TooLarge), rooted, examined, resolved, first, o; }
    return Ok(Plan(canonical.value, rootBefore.value, candidate.value, before.value, references.value)),
      rooted, examined, resolved, first, o;
  }

  ghost predicate DirectoryAt(s: Snapshot, path: Path)
    requires s.top in s.nodes
  {
    Walk(s, path).Some? && s.nodes[Walk(s, path).value].kind.Directory?
  }

  ghost predicate AllNamed(s: Snapshot, checks: seq<Check>) {
    forall i :: 0 <= i < |checks| ==> NamedAt(s, checks, i)
  }

  predicate NamedAt(s: Snapshot, checks: seq<Check>, i: nat)
    requires i < |checks|
  {
    Names(checks[i], s)
  }

  /** Opens one directory, not through a link, and notes what its name led to. */
  method OpenDirectory(fs: FileSystem, at: Object, name: Name) returns (r: Option<(Object, Check)>)
    requires fs.Valid()
    modifies fs`now
    ensures fs.now >= old(fs.now)
    ensures r.Some? ==> r.value.1.parent == at && r.value.1.name == name
    ensures r.Some? ==> Leads(fs, r.value.1, r.value.0, old(fs.now), fs.now)
    ensures fs.Quiet(old(fs.now)) ==> DirectoryOpened(fs.At(old(fs.now)), at, name, r)
  {
    var child := fs.OpenAt(at, name, true);
    if child.None? { return None; }
    ghost var opening := fs.now;
    var st := fs.FStat(child.value);
    if st.None? { return None; }
    var check := Check(at, name, Identity(st.value));
    assert OpensTo(fs, check, child.value, opening) && HasIdentity(fs, check, child.value, fs.now);
    return Some((child.value, check));
  }

  ghost predicate DirectoryOpened(s: Snapshot, at: Object, name: Name, r: Option<(Object, Check)>) {
    var o := Opened(s, at, name, true);
    o.Some? ==> r.Some? && r.value.0 == o.value && Names(r.value.1, s)
  }

  lemma SpellsLast(noted: seq<Check>, path: Path, check: Check)
    requires path != [] && Spells(noted, Parent(path)) && check.name == path[|path| - 1]
    ensures Spells(noted + [check], path)
  {
    forall i | 0 <= i < |path| ensures SpellsAt(noted + [check], path, i) {
      if i < |noted| { assert SpellsAt(noted, Parent(path), i); }
    }
  }

  lemma AllNamedOn(s: Snapshot, noted: seq<Check>, check: Check)
    requires AllNamed(s, noted) && Names(check, s)
    ensures AllNamed(s, noted + [check])
  {
    forall i | 0 <= i < |noted + [check]| ensures NamedAt(s, noted + [check], i) {
      if i < |noted| { assert NamedAt(s, noted, i); }
    }
  }

  /** Opens the directories `path[lo..hi]` one in the other below `fd`, never through a link, and notes what each name
      led to. At rest this descends to the object the path names. */
  method OpenDirectories(
    fs: FileSystem, fd: Object, path: Path, lo: nat, hi: nat, checks: seq<Check>, ghost top: Object, ghost from: nat)
    returns (r: Option<(Object, seq<Check>)>)
    requires fs.Valid() && from <= fs.now && lo <= hi <= |path|
    requires Underway(fs, top, checks, fd, path, lo, from, fs.now)
    modifies fs`now
    ensures fs.now >= old(fs.now)
    ensures r.Some? ==> Underway(fs, top, r.value.1, r.value.0, path, hi, from, fs.now)
    ensures r.Some? ==> GoesOn(lo, fd, r.value.1, r.value.0)
    ensures fs.Quiet(old(fs.now)) ==> PinnedAt(fs.At(old(fs.now)), fd, path, lo, hi, checks, r)
  {
    var at, noted := fd, checks;
    ghost var s := fs.At(fs.now);
    ghost var pinned := fs.Quiet(fs.now) && Pinned(s, path, lo, fd, checks) && DirectoryAt(s, path[..hi]);
    for i := lo to hi
      invariant fs.now >= old(fs.now)
      invariant Underway(fs, top, noted, at, path, i, from, fs.now)
      invariant GoesOn(lo, fd, noted, at)
      invariant pinned ==> Pinned(s, path, i, at, noted)
    {
      r := OpenNext(fs, at, path, i, hi, noted, top, from);
      if r.None? { return; }
      at, noted := r.value.0, r.value.1;
    }
    return Some((at, noted));
  }

  /** The first `k` names of the descent led to `fd`. */
  predicate GoesOn(k: nat, fd: Object, later: seq<Check>, at: Object) {
    k <= |later| && Led(later, k, at) == fd
  }

  /** One name further. */
  method OpenNext(
    fs: FileSystem, at: Object, path: Path, i: nat, ghost hi: nat, noted: seq<Check>,
    ghost top: Object, ghost from: nat)
    returns (r: Option<(Object, seq<Check>)>)
    requires fs.Valid() && i < hi <= |path| && from <= fs.now && Underway(fs, top, noted, at, path, i, from, fs.now)
    modifies fs`now
    ensures fs.now >= old(fs.now)
    ensures r.Some? ==> Underway(fs, top, r.value.1, r.value.0, path, i + 1, from, fs.now)
    ensures forall k, o :: r.Some? && GoesOn(k, o, noted, at) ==> GoesOn(k, o, r.value.1, r.value.0)
    ensures fs.Quiet(old(fs.now)) ==> PinnedOn(fs.At(old(fs.now)), at, path, i, hi, noted, r)
  {
    ghost var s := fs.At(fs.now);
    ghost var pinned := fs.Quiet(fs.now) && Pinned(s, path, i, at, noted) && DirectoryAt(s, path[..hi]);
    var child := OpenDirectory(fs, at, path[i]);
    if pinned { PinnedStep(s, path, i, hi, at, noted, child); }
    if child.None? { return None; }
    var (o, check) := child.value;
    UnderwayStep(fs, top, noted, at, path, i, check, o, from, old(fs.now), fs.now);
    return Some((o, noted + [check]));
  }

  ghost predicate PinnedOn(
    s: Snapshot, at: Object, path: Path, i: nat, hi: nat, noted: seq<Check>, r: Option<(Object, seq<Check>)>)
    requires s.top in s.nodes && i < hi <= |path|
  {
    Pinned(s, path, i, at, noted) && DirectoryAt(s, path[..hi]) ==>
      r.Some? && Pinned(s, path, i + 1, r.value.0, r.value.1)
  }

  /** The first `k` names of the path have been opened one after the other. */
  ghost predicate Underway(
    fs: FileSystem, top: Object, noted: seq<Check>, at: Object, path: Path, k: nat, from: nat, to: nat)
  {
    k <= |path| && Spells(noted, path[..k]) && Descends(fs, top, noted, at, from, to)
  }

  lemma UnderwayStep(fs: FileSystem, top: Object, noted: seq<Check>, at: Object, path: Path, k: nat,
                     check: Check, o: Object, from: nat, mid: nat, to: nat)
    requires k < |path| && from <= mid <= to && Underway(fs, top, noted, at, path, k, from, mid)
    requires check.parent == at && check.name == path[k] && Leads(fs, check, o, mid, to)
    ensures Underway(fs, top, noted + [check], o, path, k + 1, from, to)
  {
    DescendsOn(fs, top, noted, at, check, o, from, mid, to);
    assert Parent(path[..k + 1]) == path[..k];
    SpellsLast(noted, path[..k + 1], check);
  }

  /** At rest: the first `k` names lead to the object reached. */
  ghost predicate Pinned(s: Snapshot, path: Path, k: nat, at: Object, noted: seq<Check>)
    requires s.top in s.nodes && k <= |path|
  {
    Walk(s, path[..k]) == Some(at) && AllNamed(s, noted)
  }

  lemma PinnedStep(s: Snapshot, path: Path, i: nat, hi: nat, at: Object, noted: seq<Check>, child: Option<(Object,
                   Check)>)
    requires SnapshotOk(s) && i < hi <= |path| && DirectoryAt(s, path[..hi]) && Pinned(s, path, i, at, noted)
    requires DirectoryOpened(s, at, path[i], child)
    ensures child.Some? && Pinned(s, path, i + 1, child.value.0, noted + [child.value.1])
  {
    NextDirectory(s, path, i, hi);
    AllNamedOn(s, noted, child.value.1);
  }

  ghost predicate PinnedAt(
    s: Snapshot, fd: Object, path: Path, lo: nat, hi: nat, checks: seq<Check>, r: Option<(Object, seq<Check>)>)
    requires s.top in s.nodes && lo <= hi <= |path|
  {
    Pinned(s, path, lo, fd, checks) && DirectoryAt(s, path[..hi]) ==>
      r.Some? && Pinned(s, path, hi, r.value.0, r.value.1)
  }

  lemma NextDirectory(s: Snapshot, path: Path, i: nat, hi: nat)
    requires SnapshotOk(s) && i < hi <= |path| && DirectoryAt(s, path[..hi]) && Walk(s, path[..i]).Some?
    ensures Opened(s, Walk(s, path[..i]).value, path[i], true) == Walk(s, path[..i + 1])
    ensures Walk(s, path[..i + 1]).Some?
  {
    WalkStep(s, path[..hi], i);
    assert path[..hi][..i] == path[..i] && path[..hi][..i + 1] == path[..i + 1];
  }

  /** Short reads until one is empty or the bound is passed. */
  method ReadChunks(fs: FileSystem, fd: Object, maxBytes: nat) returns (r: Result<seq<Byte>, Failure>)
    modifies fs`now, fs`handed
    ensures r != Err(InvalidBound)
    ensures fs.now >= old(fs.now)
    ensures fs.handed <= old(fs.handed) + maxBytes + 1
    ensures r.Ok? ==> |r.value| <= maxBytes && fs.Collected(fd, 0, r.value, old(fs.now), fs.now)
    ensures r.Err? ==>
      || (r.error == TooLarge && fs.handed == old(fs.handed) + maxBytes + 1)
      || (r.error == Unavailable && fd !in fs.At(fs.now).nodes)
    ensures fs.Quiet(old(fs.now)) ==>
      forall content :: fs.HasContent(fd, old(fs.now), content) && |content| <= maxBytes ==> r == Ok(content)
  {
    var raw: seq<Byte> := [];
    var more := true;
    while more && |raw| <= maxBytes
      invariant fs.now >= old(fs.now)
      invariant fs.handed == old(fs.handed) + |raw|
      invariant |raw| <= maxBytes + 1
      invariant fs.Collected(fd, 0, raw, old(fs.now), fs.now)
      invariant !more && fs.Quiet(old(fs.now)) ==> AtEnd(fs.At(old(fs.now)), fd, |raw|)
      decreases more, maxBytes + 1 - |raw|
    {
      ghost var was := fs.now;
      var chunk := fs.Read(fd, |raw|, if CHUNK < maxBytes + 1 - |raw| then CHUNK else maxBytes + 1 - |raw|);
      if chunk.None? { return Err(Unavailable); }
      CollectedJoins(fs, fd, raw, chunk.value, old(fs.now), was, fs.now);
      if chunk.value == [] { more := false; }
      raw := raw + chunk.value;
    }
    forall content | fs.Quiet(old(fs.now)) && fs.HasContent(fd, old(fs.now), content)
      ensures raw <= content && (|raw| <= maxBytes ==> raw == content)
    {
      SteadyPrefix(fs, fd, raw, content, old(fs.now), fs.now);
    }
    if |raw| > maxBytes { return Err(TooLarge); }
    return Ok(raw);
  }

  ghost predicate AtEnd(s: Snapshot, o: Object, k: nat) {
    o in s.nodes && k >= |s.nodes[o].content|
  }

  ghost predicate NameMissing(fs: FileSystem, checks: seq<Check>, t: nat) {
    exists i :: 0 <= i < |checks| && StatOfEntry(fs.At(t), checks[i].parent, checks[i].name) == None
  }

  ghost predicate NameDiffers(fs: FileSystem, checks: seq<Check>, t: nat) {
    exists i :: 0 <= i < |checks| && LeadsElsewhere(fs, checks[i], t)
  }

  ghost predicate LeadsElsewhere(fs: FileSystem, c: Check, t: nat) {
    var st := StatOfEntry(fs.At(t), c.parent, c.name);
    st.Some? && Identity(st.value) != c.identity
  }

  /** Every name opened must still lead to what was opened. */
  method ConfirmNames(fs: FileSystem, checks: seq<Check>) returns (e: Option<Failure>)
    modifies fs`now
    ensures e != Some(InvalidBound)
    ensures fs.now >= old(fs.now)
    ensures e == Some(Unavailable) ==> NameMissing(fs, checks, fs.now)
    ensures e == Some(Changed) ==> NameDiffers(fs, checks, fs.now)
    ensures e == None || e == Some(Unavailable) || e == Some(Changed)
    ensures e.None? ==> forall i :: 0 <= i < |checks| ==> fs.Confirmed(checks[i], old(fs.now), fs.now)
    ensures fs.Quiet(old(fs.now)) && AllNamed(fs.At(old(fs.now)), checks) ==> e.None?
  {
    for i := 0 to |checks|
      invariant fs.now >= old(fs.now)
      invariant forall k :: 0 <= k < i ==> fs.Confirmed(checks[k], old(fs.now), fs.now)
    {
      ghost var was := fs.now;
      if AllNamed(fs.At(old(fs.now)), checks) { assert NamedAt(fs.At(old(fs.now)), checks, i); }
      var st := fs.StatAt(checks[i].parent, checks[i].name);
      if st.None? { return Some(Unavailable); }
      if Identity(st.value) != checks[i].identity {
        assert LeadsElsewhere(fs, checks[i], fs.now);
        return Some(Changed);
      }
      assert Names(checks[i], fs.At(fs.now));
      forall k | 0 <= k < i ensures fs.Confirmed(checks[k], old(fs.now), fs.now) {
        assert fs.Confirmed(checks[k], old(fs.now), was);
      }
    }
    return None;
  }

  ghost predicate HadIdentity(fs: FileSystem, identity: (nat, nat, Kind, nat), o: Object, t: nat) {
    o in fs.At(t).nodes && Identity(StatOf(fs.At(t).nodes[o])) == identity
  }

  /** At some instant of the interval the object had the identity of the root examined before. */
  ghost predicate IsRoot(fs: FileSystem, before: Stat, o: Object, from: nat, to: nat) {
    exists t :: from <= t <= to && HadIdentity(fs, Identity(before), o, t)
  }

  /** The object that the first `k` names led to is the root. */
  ghost predicate PassesRoot(fs: FileSystem, before: Stat, k: nat, checks: seq<Check>, fd: Object, from: nat, to: nat) {
    k <= |checks| && IsRoot(fs, before, Led(checks, k, fd), from, to)
  }

  lemma PassesRootLater(fs: FileSystem, before: Stat, k: nat, checks: seq<Check>, fd: Object, from: nat, to: nat,
                        more: seq<Check>, at: Object, earlier: nat, later: nat)
    requires PassesRoot(fs, before, k, checks, fd, from, to) && GoesOn(k, Led(checks, k, fd), more, at)
    requires earlier <= from && to <= later
    ensures PassesRoot(fs, before, k, more, at, earlier, later)
  {
    var t :| from <= t <= to && HadIdentity(fs, Identity(before), Led(checks, k, fd), t);
  }

  /** Every directory above the candidate has been opened, the root on the way. */
  ghost predicate ParentReached(fs: FileSystem, p: Plan, anchor: Object, checks: seq<Check>, fd: Object, from: nat,
                                to: nat)
    requires p.candidate != []
  {
    && Underway(fs, anchor, checks, fd, p.candidate, |p.candidate| - 1, from, to)
    && PassesRoot(fs, p.rootBefore, |p.canonical|, checks, fd, from, to)
  }

  lemma RootThenParent(fs: FileSystem, p: Plan, anchor: Object, checks: seq<Check>, fd: Object, from: nat, mid: nat,
                       more: seq<Check>, at: Object, to: nat)
    requires p.canonical < p.candidate && mid <= to
    requires |checks| == |p.canonical| && IsRoot(fs, p.rootBefore, fd, from, mid)
    requires Underway(fs, anchor, more, at, p.candidate, |p.candidate| - 1, from, to)
    requires GoesOn(|p.canonical|, fd, more, at)
    ensures ParentReached(fs, p, anchor, more, at, from, to)
  {
    var t :| from <= t <= mid && HadIdentity(fs, Identity(p.rootBefore), fd, t);
  }

  /** From the anchor to the root, which must be the one seen before. */
  method PinRoot(fs: FileSystem, p: Plan, anchor: Object) returns (r: Result<(Object, seq<Check>), Failure>)
    requires fs.Valid() && p.canonical < p.candidate
    modifies fs`now
    ensures r != Err(InvalidBound)
    ensures fs.now >= old(fs.now)
    ensures r.Ok? ==> Underway(fs, anchor, r.value.1, r.value.0, p.candidate, |p.canonical|, old(fs.now), fs.now)
    ensures r.Ok? ==> IsRoot(fs, p.rootBefore, r.value.0, old(fs.now), fs.now)
    ensures fs.Quiet(old(fs.now)) ==> PinnedFrom(fs.At(old(fs.now)), p, anchor, |p.canonical|, r)
  {
    var above := OpenDirectories(fs, anchor, p.candidate, 0, |p.canonical|, [], anchor, old(fs.now));
    if above.None? { return Err(Unavailable); }
    ghost var reached := fs.now;
    var rootNow := fs.FStat(above.value.0);
    if rootNow.None? { return Err(Unavailable); }
    if Identity(rootNow.value) != Identity(p.rootBefore) { return Err(Changed); }
    assert HadIdentity(fs, Identity(p.rootBefore), above.value.0, fs.now);
    DescendsWithin(fs, anchor, above.value.1, above.value.0, old(fs.now), reached, fs.now);
    return Ok(above.value);
  }

  /** From the root on to the file's directory. */
  method PinBelow(fs: FileSystem, p: Plan, ghost anchor: Object, fd: Object, checks: seq<Check>, ghost from: nat)
    returns (r: Option<(Object, seq<Check>)>)
    requires fs.Valid() && p.canonical < p.candidate && from <= fs.now
    requires Underway(fs, anchor, checks, fd, p.candidate, |p.canonical|, from, fs.now)
    requires IsRoot(fs, p.rootBefore, fd, from, fs.now)
    modifies fs`now
    ensures fs.now >= old(fs.now)
    ensures r.Some? ==> ParentReached(fs, p, anchor, r.value.1, r.value.0, from, fs.now)
    ensures fs.Quiet(old(fs.now)) ==>
      PinnedAt(fs.At(old(fs.now)), fd, p.candidate, |p.canonical|, |p.candidate| - 1, checks, r)
  {
    ghost var pinned := fs.now;
    r := OpenDirectories(fs, fd, p.candidate, |p.canonical|, |p.candidate| - 1, checks, anchor, from);
    if r.Some? {
      RootThenParent(fs, p, anchor, checks, fd, from, pinned, r.value.1, r.value.0, fs.now);
    }
  }

  /** From the anchor to the file's directory. */
  method PinParent(fs: FileSystem, p: Plan, anchor: Object) returns (r: Result<(Object, seq<Check>), Failure>)
    requires fs.Valid() && p.canonical < p.candidate
    modifies fs`now
    ensures r != Err(InvalidBound)
    ensures fs.now >= old(fs.now)
    ensures r.Ok? ==> ParentReached(fs, p, anchor, r.value.1, r.value.0, old(fs.now), fs.now)
    ensures fs.Quiet(old(fs.now)) ==> PinnedFrom(fs.At(old(fs.now)), p, anchor, |p.candidate| - 1, r)
  {
    var root := PinRoot(fs, p, anchor);
    if root.Err? { return root; }
    ghost var pinned := fs.now;
    var below := PinBelow(fs, p, anchor, root.value.0, root.value.1, old(fs.now));
    if fs.Quiet(old(fs.now)) {
      assert fs.Quiet(pinned) && fs.At(pinned) == fs.At(old(fs.now));
      PinnedTogether(fs.At(pinned), p, anchor, root.value, below);
    }
    r := if below.None? then Err(Unavailable) else Ok(below.value);
  }

  lemma PinnedTogether(
    s: Snapshot, p: Plan, anchor: Object, root: (Object, seq<Check>), below: Option<(Object, seq<Check>)>)
    requires s.top in s.nodes && p.canonical < p.candidate && PinnedFrom(s, p, anchor, |p.canonical|, Ok(root))
    requires PinnedAt(s, root.0, p.candidate, |p.canonical|, |p.candidate| - 1, root.1, below)
    ensures PinnedFrom(s, p, anchor, |p.candidate| - 1, if below.None? then Err(Unavailable) else Ok(below.value))
  {}

  /** The file itself, which must be the one seen before. */
  method OpenPinned(fs: FileSystem, p: Plan, parent: Object)
    returns (r: Result<Object, Failure>, ghost seen: nat)
    requires fs.Valid() && p.candidate != []
    modifies fs`now
    ensures r != Err(InvalidBound)
    ensures fs.now >= old(fs.now)
    ensures r.Ok? ==> InTime(old(fs.now), seen, fs.now) && r.value in fs.At(seen).nodes
    ensures r.Ok? ==> ContentIdentity(StatOf(fs.At(seen).nodes[r.value])) == ContentIdentity(p.before)
    ensures r.Ok? ==> Leads(fs, Check(parent, Last(p.candidate), Identity(p.before)), r.value, old(fs.now), fs.now)
    ensures fs.Quiet(old(fs.now)) ==> OpenedAt(fs.At(old(fs.now)), p, parent, r)
  {
    seen := fs.now;
    var file := fs.OpenAt(parent, Last(p.candidate), false);
    if file.None? { return Err(Unavailable), seen; }
    ghost var named := fs.now;
    var st := fs.FStat(file.value);
    seen := fs.now;
    if st.None? { return Err(Unavailable), seen; }
    if !st.value.kind.Regular? { return Err(NotRegular), seen; }
    if ContentIdentity(st.value) != ContentIdentity(p.before) { return Err(Changed), seen; }
    ghost var check := Check(parent, Last(p.candidate), Identity(p.before));
    assert OpensTo(fs, check, file.value, named) && HasIdentity(fs, check, file.value, seen);
    return Ok(file.value), seen;
  }

  function Last<T>(s: seq<T>): T
    requires s != []
  {
    s[|s| - 1]
  }

  /** At rest, a plan describes a regular file at the end of a route of directories. */
  ghost predicate Reachable(s: Snapshot, p: Plan)
    requires s.top in s.nodes
  {
    && p.canonical < p.candidate
    && Canonical(s, p.canonical) && Canonical(s, p.candidate)
    && p.rootBefore == StatOf(s.nodes[Walk(s, p.canonical).value])
    && p.before == StatOf(s.nodes[Walk(s, p.candidate).value])
    && p.before.kind.Regular?
  }

  /** At rest: root and parent of the candidate are directories on its way, and the root is the one seen before. */
  ghost predicate RouteOpen(s: Snapshot, p: Plan)
    requires s.top in s.nodes && p.canonical < p.candidate
  {
    && DirectoryAt(s, p.candidate[..|p.canonical|]) && DirectoryAt(s, p.candidate[..|p.candidate| - 1])
    && p.rootBefore == StatOf(s.nodes[Walk(s, p.candidate[..|p.canonical|]).value])
  }

  ghost predicate PinnedFrom(s: Snapshot, p: Plan, anchor: Object, k: nat, r: Result<(Object, seq<Check>), Failure>)
    requires s.top in s.nodes && p.canonical < p.candidate && k <= |p.candidate|
  {
    RouteOpen(s, p) && anchor == s.top ==> r.Ok? && Pinned(s, p.candidate, k, r.value.0, r.value.1)
  }

  ghost predicate OpenedAt(s: Snapshot, p: Plan, parent: Object, r: Result<Object, Failure>)
    requires p.candidate != []
  {
    var o := Child(s, parent, Last(p.candidate));
    o.Some? && p.before == StatOf(s.nodes[o.value]) && p.before.kind.Regular? ==> r == Ok(o.value)
  }

  lemma RouteIsOpen(s: Snapshot, p: Plan)
    requires SnapshotOk(s) && Reachable(s, p)
    ensures RouteOpen(s, p)
    ensures Walk(s, p.candidate) ==
            Child(s, Walk(s, p.candidate[..|p.candidate| - 1]).value, Last(p.candidate))
  {
    PrefixIsDirectory(s, p.candidate, |p.canonical|);
    PrefixIsDirectory(s, p.candidate, |p.candidate| - 1);
    assert p.candidate[..|p.canonical|] == p.canonical;
  }

  /** Where and when returned bytes were the content. `file` was found at the candidate before anything was opened,
      and `descriptor` is what opening the candidate name by name from `top` led to. The instants, in order: the root
      resolved, the root examined, the reference resolved, the file first examined, the read begun, the file last
      examined, the root resolved again, the reference resolved again. */
  datatype Window = Window(
    canonical: Path, candidate: Path, chain: seq<ChainEntry>, root: Stat, file: Object, top: Object, route: seq<Check>,
    descriptor: Object, rooted: nat, examined: nat, resolved: nat, first: nat, begun: nat, last: nat, rerooted: nat,
    confirmed: nat)

  ghost predicate InOrder(w: Window) {
    w.rooted <= w.examined <= w.resolved <= w.first <= w.begun <= w.last <= w.rerooted <= w.confirmed
  }

  /** Root and reference resolved to the same places before and after, the reference lies inside the root, and its
      components looked alike before and after. */
  ghost predicate SameReference(fs: FileSystem, w: Window, root: Path, parts: Path, end: nat)
    requires fs.Valid()
  {
    && Resolves(fs, root, w.canonical, w.rooted) && Resolves(fs, root, w.canonical, w.rerooted)
    && w.canonical < w.candidate
    && Resolves(fs, w.canonical + parts, w.candidate, w.resolved)
    && Resolves(fs, w.canonical + parts, w.candidate, w.confirmed)
    && |w.chain| == |parts|
    && ChainSeen(fs, w.canonical, parts, w.chain, w.first, w.begun)
    && ChainSeen(fs, w.canonical, parts, w.chain, w.confirmed, end)
  }

  /** The candidate was opened name by name from the anchor, through no link and through the root examined before, and
      afterwards each name still led from the same directory to something of the same identity. */
  ghost predicate SameRoute(fs: FileSystem, w: Window)
    requires fs.Valid()
  {
    && Spells(w.route, w.candidate)
    && (exists t :: w.first <= t <= w.begun && IsTop(fs, w.top, t))
    && Descends(fs, w.top, w.route, w.descriptor, w.first, w.begun)
    && StatFollowed(fs.At(w.examined), w.canonical, fs.hops) == Some(w.root)
    && PassesRoot(fs, w.root, |w.canonical|, w.route, w.descriptor, w.first, w.begun)
    && StillNamed(fs, w.route, w.last, w.rerooted)
  }

  ghost predicate IsTop(fs: FileSystem, o: Object, t: nat) { fs.At(t).top == o }

  ghost predicate StillNamed(fs: FileSystem, route: seq<Check>, from: nat, to: nat) {
    forall i :: 0 <= i < |route| ==> fs.Confirmed(route[i], from, to)
  }

  /** Each byte was at its place in the opened file at some instant of the read; before and after, the file had one
      content identity, and the size of the bytes. When every write shows in the content identity, the bytes were its
      whole content all along. */
  ghost predicate SameContent(fs: FileSystem, w: Window, bytes: seq<Byte>)
    requires fs.Valid()
  {
    && LookUp(fs.At(w.first), w.candidate, fs.hops) == Some(w.file)
    && fs.Collected(w.descriptor, 0, bytes, w.begun, w.last)
    && fs.Alike(w.file, w.first, w.descriptor, w.last) && |bytes| == |fs.At(w.last).nodes[w.descriptor].content|
    && (fs.Tracked() ==> w.descriptor == w.file && fs.Steady(w.file, w.first, w.last, bytes))
  }

  ghost predicate FaithfulRead(fs: FileSystem, w: Window, root: Path, parts: Path, bytes: seq<Byte>, start: nat,
                               end: nat)
    requires fs.Valid()
  {
    && start <= w.rooted && InOrder(w) && w.confirmed <= end
    && SameReference(fs, w, root, parts, end) && SameRoute(fs, w) && SameContent(fs, w, bytes)
  }

  /** Equal content identities before, at and after the read leave no room for another content. */
  lemma SteadyAcross(fs: FileSystem, o: Object, first: nat, p: Object, seen: nat, last: nat, bytes: seq<Byte>)
    requires fs.Tracked() && first <= seen <= last
    requires fs.Alike(o, first, p, seen) && fs.Alike(p, seen, p, last)
    requires fs.Collected(p, 0, bytes, seen, last) && |bytes| == |fs.At(last).nodes[p].content|
    ensures fs.Steady(o, first, last, bytes)
  {
    var content := fs.At(first).nodes[o].content;
    assert fs.HasContent(o, seen, content);
    assert fs.Steady(o, seen, last, content);
    SteadyPrefix(fs, o, bytes, content, seen, last);
    assert fs.HasContent(o, last, content);
    assert bytes == content;
    forall t | first <= t <= last ensures fs.HasContent(o, t, bytes) {
      if t <= seen { assert fs.Steady(o, first, seen, content); }
    }
  }

  lemma NamedWithin(fs: FileSystem, route: seq<Check>, from: nat, to: nat, later: nat)
    requires StillNamed(fs, route, from, to) && to <= later
    ensures StillNamed(fs, route, from, later)
  {
    forall i | 0 <= i < |route| ensures fs.Confirmed(route[i], from, later) {
      assert fs.Confirmed(route[i], from, to);
    }
  }

  /** The instants of the confirmation: its beginning, the file last examined, the root and the reference resolved
      again, its end. */
  datatype Finish = Finish(begin: nat, last: nat, rerooted: nat, confirmed: nat, end: nat)

  ghost predicate Reconfirmed(
    fs: FileSystem, p: Plan, root: Path, parts: Path, fd: Object, checks: seq<Check>, size: nat, t: Finish)
    requires fs.Valid()
  {
    && t.begin <= t.last <= t.rerooted <= t.confirmed <= t.end
    && fs.Ends(fd, t.last, p.before, size)
    && Resolves(fs, root, p.canonical, t.rerooted) && Resolves(fs, p.canonical + parts, p.candidate, t.confirmed)
    && ChainSeen(fs, p.canonical, parts, p.references, t.confirmed, t.end)
    && StillNamed(fs, checks, t.last, t.rerooted)
  }

  /** The file, one of the names, the root, the candidate or a component of the reference was missing. */
  ghost predicate SomethingMissing(
    fs: FileSystem, p: Plan, root: Path, parts: Path, fd: Object, checks: seq<Check>, t: nat)
    requires fs.Valid()
  {
    fd !in fs.At(t).nodes || NameMissing(fs, checks, t) || ReferenceMissing(fs, p, root, parts, t)
  }

  ghost predicate ReferenceMissing(fs: FileSystem, p: Plan, root: Path, parts: Path, t: nat)
    requires fs.Valid()
  {
    || Follow(fs.At(t), [], root, fs.hops) == None || Follow(fs.At(t), [], p.canonical + parts, fs.hops) == None
    || ComponentMissing(fs, p.canonical, parts, t)
  }

  /** The file had another content identity or size than was read, or a name, the root, the candidate or a component of
      the reference led elsewhere. */
  ghost predicate SomethingDiffers(
    fs: FileSystem, p: Plan, root: Path, parts: Path, fd: Object, checks: seq<Check>, size: nat, t: nat)
    requires fs.Valid()
  {
    || (fd in fs.At(t).nodes && !fs.Ends(fd, t, p.before, size)) || NameDiffers(fs, checks, t)
    || ReferenceDiffers(fs, p, root, parts, t)
  }

  ghost predicate ReferenceDiffers(fs: FileSystem, p: Plan, root: Path, parts: Path, t: nat)
    requires fs.Valid()
  {
    || LedElsewhere(Follow(fs.At(t), [], root, fs.hops), p.canonical)
    || LedElsewhere(Follow(fs.At(t), [], p.canonical + parts, fs.hops), p.candidate)
    || ComponentDiffers(fs, p.canonical, parts, p.references, t)
  }

  predicate LedElsewhere(found: Option<Path>, expected: Path) { found.Some? && found.value != expected }

  ghost predicate ComponentDiffers(fs: FileSystem, root: Path, parts: Path, chain: seq<ChainEntry>, t: nat)
    requires fs.Valid()
  {
    exists k :: 0 <= k < |parts| && ComponentDiffersAt(fs, root, parts, chain, k, t)
  }

  ghost predicate ComponentDiffersAt(fs: FileSystem, root: Path, parts: Path, chain: seq<ChainEntry>, k: nat, t: nat)
    requires fs.Valid() && k < |parts|
  {
    var entry := EntryAt(fs.At(t), root, parts, k, fs.hops);
    entry.Some? && (k >= |chain| || entry.value != chain[k])
  }

  /** Two different chains differ in a component, at the instant at which the second was looked at. */
  lemma ChainsDiffer(fs: FileSystem, root: Path, parts: Path, chain: seq<ChainEntry>, seen: seq<ChainEntry>,
                     from: nat, to: nat) returns (t: nat)
    requires fs.Valid() && |chain| == |parts| == |seen| && chain != seen && ChainSeen(fs, root, parts, seen, from, to)
    ensures from <= t <= to && ComponentDiffers(fs, root, parts, chain, t)
  {
    var k :| 0 <= k < |parts| && chain[k] != seen[k];
    assert EntrySeen(fs, root, parts, k, seen[k], from, to);
    t :| from <= t <= to && LooksLike(fs, root, parts, k, seen[k], t);
    assert ComponentDiffersAt(fs, root, parts, chain, k, t);
  }

  /** The root, the candidate and the reference chain once more. */
  method ConfirmReference(fs: FileSystem, root: Path, parts: Path, p: Plan)
    returns (e: Option<Failure>, ghost rerooted: nat, ghost confirmed: nat)
    requires fs.Valid() && |p.references| == |parts|
    modifies fs`now
    ensures fs.now >= old(fs.now)
    ensures e == None || e == Some(Unavailable) || e == Some(Changed)
    ensures e.None? ==> old(fs.now) <= rerooted <= confirmed <= fs.now
    ensures e.None? ==> Resolves(fs, root, p.canonical, rerooted)
    ensures e.None? ==> Resolves(fs, p.canonical + parts, p.candidate, confirmed)
    ensures e.None? ==> ChainSeen(fs, p.canonical, parts, p.references, confirmed, fs.now)
    ensures e == Some(Unavailable) ==> ReferenceMissing(fs, p, root, parts, fs.now)
    ensures e == Some(Changed) ==>
      exists t :: InTime(old(fs.now), t, fs.now) && ReferenceDiffers(fs, p, root, parts, t)
    ensures fs.Quiet(old(fs.now)) ==> ReferenceConfirmedAt(fs.At(old(fs.now)), root, parts, p, fs.hops, e)
  {
    rerooted, confirmed := fs.now, fs.now;
    var canonical := fs.Resolve(root);
    rerooted := fs.now;
    if canonical.None? { return Some(Unavailable), rerooted, confirmed; }
    if canonical.value != p.canonical {
      assert InTime(old(fs.now), rerooted, fs.now) && ReferenceDiffers(fs, p, root, parts, rerooted);
      return Some(Changed), rerooted, confirmed;
    }
    var candidate := fs.Resolve(p.canonical + parts);
    confirmed := fs.now;
    if candidate.None? { return Some(Unavailable), rerooted, confirmed; }
    if candidate.value != p.candidate {
      assert InTime(old(fs.now), confirmed, fs.now) && ReferenceDiffers(fs, p, root, parts, confirmed);
      return Some(Changed), rerooted, confirmed;
    }
    var references := ReferenceChain(fs, p.canonical, parts);
    if references.None? { return Some(Unavailable), rerooted, confirmed; }
    if references.value != p.references {
      ghost var t := ChainsDiffer(fs, p.canonical, parts, p.references, references.value, confirmed, fs.now);
      assert InTime(old(fs.now), t, fs.now) && ReferenceDiffers(fs, p, root, parts, t);
      return Some(Changed), rerooted, confirmed;
    }
    return None, rerooted, confirmed;
  }

  ghost predicate ReferenceConfirmedAt(s: Snapshot, root: Path, parts: Path, p: Plan, hops: nat, e: Option<Failure>)
    requires s.top in s.nodes
  {
    (exists maxBytes :: PlannedAt(s, p, root, parts, maxBytes, hops)) ==> e.None?
  }

  /** After the last byte: the file again, then its names, the root, the candidate and the reference chain. A failure
      says truly whether something was missing or something was different. */
  method Confirm(fs: FileSystem, root: Path, parts: Path, p: Plan, fd: Object, checks: seq<Check>, raw: seq<Byte>)
    returns (e: Option<Failure>, ghost last: nat, ghost rerooted: nat, ghost confirmed: nat)
    requires fs.Valid() && |p.references| == |parts|
    modifies fs`now
    ensures fs.now >= old(fs.now)
    ensures e == None || e == Some(Unavailable) || e == Some(Changed)
    ensures e.None? ==>
      Reconfirmed(fs, p, root, parts, fd, checks, |raw|, Finish(old(fs.now), last, rerooted, confirmed, fs.now))
    ensures e == Some(Unavailable) ==>
      exists t :: InTime(old(fs.now), t, fs.now) && SomethingMissing(fs, p, root, parts, fd, checks, t)
    ensures e == Some(Changed) ==>
      exists t :: InTime(old(fs.now), t, fs.now) && SomethingDiffers(fs, p, root, parts, fd, checks, |raw|, t)
    ensures fs.Quiet(old(fs.now)) ==> ConfirmedAt(fs.At(old(fs.now)), root, parts, p, fd, checks, raw, fs.hops, e)
  {
    last, rerooted, confirmed := fs.now, fs.now, fs.now;
    var after := fs.FStat(fd);
    last := fs.now;
    if after.None? {
      assert InTime(old(fs.now), last, fs.now) && SomethingMissing(fs, p, root, parts, fd, checks, last);
      return Some(Unavailable), last, rerooted, confirmed;
    }
    if ContentIdentity(after.value) != ContentIdentity(p.before) || |raw| != after.value.size {
      assert InTime(old(fs.now), last, fs.now) && SomethingDiffers(fs, p, root, parts, fd, checks, |raw|, last);
      return Some(Changed), last, rerooted, confirmed;
    }
    e := ConfirmNames(fs, checks);
    ghost var named := fs.now;
    if e.Some? {
      assert InTime(old(fs.now), named, fs.now);
      assert e == Some(Unavailable) ==> SomethingMissing(fs, p, root, parts, fd, checks, named);
      assert e == Some(Changed) ==> SomethingDiffers(fs, p, root, parts, fd, checks, |raw|, named);
      return e, last, rerooted, confirmed;
    }
    e, rerooted, confirmed := ConfirmReference(fs, root, parts, p);
    if e == Some(Unavailable) {
      assert InTime(old(fs.now), fs.now, fs.now) && SomethingMissing(fs, p, root, parts, fd, checks, fs.now);
    } else if e == Some(Changed) {
      ghost var t :| InTime(named, t, fs.now) && ReferenceDiffers(fs, p, root, parts, t);
      assert InTime(old(fs.now), t, fs.now) && SomethingDiffers(fs, p, root, parts, fd, checks, |raw|, t);
    } else {
      NamedWithin(fs, checks, last, named, rerooted);
    }
  }

  ghost predicate ConfirmedAt(
    s: Snapshot, root: Path, parts: Path, p: Plan, fd: Object, checks: seq<Check>, raw: seq<Byte>, hops: nat,
    e: Option<Failure>)
    requires s.top in s.nodes
  {
    (exists maxBytes :: PlannedAt(s, p, root, parts, maxBytes, hops))
    && StatOfObject(s, fd) == Some(p.before) && |raw| == p.before.size && AllNamed(s, checks)
    ==> e.None?
  }

  /** From the anchor the candidate was opened name by name, and its end examined at `seen`. */
  ghost predicate RouteTaken(
    fs: FileSystem, p: Plan, top: Object, checks: seq<Check>, fd: Object, from: nat, seen: nat, to: nat)
  {
    && from <= seen <= to
    && (exists t :: from <= t <= to && IsTop(fs, top, t))
    && Spells(checks, p.candidate) && Descends(fs, top, checks, fd, from, to)
    && PassesRoot(fs, p.rootBefore, |p.canonical|, checks, fd, from, to)
    && fs.Ends(fd, seen, p.before, p.before.size)
  }

  lemma TakesRoute(fs: FileSystem, p: Plan, top: Object, checks: seq<Check>, parent: Object, check: Check, fd: Object,
                   from: nat, anchored: nat, pinned: nat, seen: nat, to: nat)
    requires from <= anchored <= pinned <= seen <= to && p.candidate != [] && IsTop(fs, top, anchored)
    requires ParentReached(fs, p, top, checks, parent, anchored, pinned)
    requires check.parent == parent && check.name == Last(p.candidate) && Leads(fs, check, fd, pinned, to)
    requires fs.Ends(fd, seen, p.before, p.before.size)
    ensures RouteTaken(fs, p, top, checks + [check], fd, from, seen, to)
  {
    DescendsOn(fs, top, checks, parent, check, fd, anchored, pinned, to);
    DescendsSince(fs, top, checks + [check], fd, anchored, to, from);
    SpellsLast(checks, p.candidate, check);
    PassesRootLater(fs, p.rootBefore, |p.canonical|, checks, parent, anchored, pinned, checks + [check], fd, from, to);
  }

  /** Opens the candidate name by name; `seen` is the instant at which the opened file was examined. */
  method OpenCandidate(fs: FileSystem, p: Plan)
    returns (r: Result<(Object, seq<Check>), Failure>, ghost top: Object, ghost seen: nat)
    requires fs.Valid() && p.canonical < p.candidate
    modifies fs`now
    ensures r != Err(InvalidBound)
    ensures fs.now >= old(fs.now)
    ensures r.Ok? ==> RouteTaken(fs, p, top, r.value.1, r.value.0, old(fs.now), seen, fs.now)
    ensures fs.Quiet(old(fs.now)) ==> CandidateOpenedAt(fs.At(old(fs.now)), p, r)
  {
    seen := fs.now;
    ghost var s, quiet := fs.At(fs.now), fs.Quiet(fs.now) && Reachable(fs.At(fs.now), p);
    if quiet { RouteIsOpen(s, p); }
    fs.Tick();
    var anchor := fs.At(fs.now).top;
    top := anchor;
    ghost var anchored := fs.now;
    var directory := PinParent(fs, p, anchor);
    if directory.Err? { return Err(directory.error), top, seen; }
    assert IsTop(fs, top, anchored);
    var (parent, checks) := directory.value;
    ghost var pinned := fs.now;
    var file, examined := OpenPinned(fs, p, parent);
    seen := examined;
    if file.Err? { return Err(file.error), top, seen; }
    var check := Check(parent, Last(p.candidate), Identity(p.before));
    TakesRoute(fs, p, top, checks, parent, check, file.value, old(fs.now), anchored, pinned, seen, fs.now);
    if quiet { AllNamedOn(s, checks, check); }
    return Ok((file.value, checks + [check])), top, seen;
  }

  ghost predicate CandidateOpenedAt(s: Snapshot, p: Plan, r: Result<(Object, seq<Check>), Failure>)
    requires s.top in s.nodes
  {
    Reachable(s, p) ==> r.Ok? && Walk(s, p.candidate) == Some(r.value.0) && AllNamed(s, r.value.1)
  }

  /** What the opening and the read established. */
  datatype Opening = Opening(fd: Object, checks: seq<Check>, bytes: seq<Byte>)

  /** The bytes of the file, and what is needed to confirm them; `begun` is the instant of the first read. */
  method ReadPinned(fs: FileSystem, p: Plan, maxBytes: nat)
    returns (r: Result<Opening, Failure>, ghost top: Object, ghost seen: nat, ghost begun: nat)
    requires fs.Valid() && p.canonical < p.candidate
    modifies fs`now, fs`handed
    ensures r != Err(InvalidBound)
    ensures fs.now >= old(fs.now)
    ensures fs.handed <= old(fs.handed) + maxBytes + 1
    ensures r.Ok? ==> RouteTaken(fs, p, top, r.value.checks, r.value.fd, old(fs.now), seen, begun)
    ensures r.Ok? ==> begun <= fs.now && |r.value.bytes| <= maxBytes
    ensures r.Ok? ==> fs.Collected(r.value.fd, 0, r.value.bytes, begun, fs.now)
    ensures fs.Quiet(old(fs.now)) ==> ReadAt(fs.At(old(fs.now)), p, maxBytes, r)
  {
    ghost var s := fs.At(fs.now);
    var opening, anchor, examined := OpenCandidate(fs, p);
    top, seen, begun := anchor, examined, fs.now;
    if opening.Err? { return Err(opening.error), top, seen, begun; }
    var (fd, checks) := opening.value;
    var bytes := ReadChunks(fs, fd, maxBytes);
    if bytes.Err? { return Err(bytes.error), top, seen, begun; }
    return Ok(Opening(fd, checks, bytes.value)), top, seen, begun;
  }

  ghost predicate ReadAt(s: Snapshot, p: Plan, maxBytes: nat, r: Result<Opening, Failure>)
    requires s.top in s.nodes
  {
    Reachable(s, p) && p.before.size <= maxBytes ==>
      r.Ok? && Walk(s, p.candidate) == Some(r.value.fd) && AllNamed(s, r.value.checks)
      && r.value.bytes == s.nodes[r.value.fd].content
  }

  const NOWHERE := Window([], [], [], Stat(0, 0, Other, 0, 0, 0, 0), 0, 0, [], 0, 0, 0, 0, 0, 0, 0, 0, 0)

  /** The whole read, for a reference already split into its parts. */
  method ReadReference(fs: FileSystem, root: Path, parts: Path, maxBytes: nat)
    returns (r: Result<seq<Byte>, Failure>, ghost w: Window)
    requires fs.Valid() && ".." !in parts
    modifies fs`now, fs`handed
    ensures r != Err(InvalidBound)
    ensures fs.handed <= old(fs.handed) + maxBytes + 1
    ensures r.Ok? ==> |r.value| <= maxBytes && FaithfulRead(fs, w, root, parts, r.value, old(fs.now), fs.now)
    ensures fs.Quiet(old(fs.now)) ==> r == WholeOf(fs.At(old(fs.now)), root, parts, maxBytes, fs.hops)
  {
    w := NOWHERE;
    ghost var s, quiet := fs.At(fs.now), fs.Quiet(fs.now);
    var plan, rooted, examined, resolved, first, o := Prepare(fs, root, parts, maxBytes);
    if plan.Err? { return Err(plan.error), w; }
    var p := plan.value;
    if quiet { PlanIsReachable(s, p, root, parts, maxBytes, fs.hops); }
    ghost var planned := fs.now;
    var pinned, top, seen, begun := ReadPinned(fs, p, maxBytes);
    if pinned.Err? { return Err(pinned.error), w; }
    var Opening(fd, checks, raw) := pinned.value;
    ghost var finish := fs.now;
    var e, last, rerooted, confirmed := Confirm(fs, root, parts, p, fd, checks, raw);
    if e.Some? { return Err(e.value), w; }
    w := Window(p.canonical, p.candidate, p.references, p.rootBefore, o, top, checks, fd,
                rooted, examined, resolved, first, begun, last, rerooted, confirmed);
    Assembled(fs, w, p, root, parts, maxBytes, raw,
              Start(old(fs.now), rooted, examined, resolved, first, planned), seen,
              Finish(finish, last, rerooted, confirmed, fs.now));
    return Ok(raw), w;
  }

  /** Preparation, route, bytes and confirmation together make a faithful read. */
  lemma Assembled(fs: FileSystem, w: Window, p: Plan, root: Path, parts: Path, maxBytes: nat, raw: seq<Byte>,
                  a: Start, seen: nat, z: Finish)
    requires fs.Valid() && Prepared(fs, p, root, parts, maxBytes, a, w.file)
    requires RouteTaken(fs, p, w.top, w.route, w.descriptor, a.end, seen, w.begun)
    requires w.begun <= z.begin && fs.Collected(w.descriptor, 0, raw, w.begun, z.begin)
    requires Reconfirmed(fs, p, root, parts, w.descriptor, w.route, |raw|, z)
    requires (w.canonical, w.candidate, w.chain, w.root) == (p.canonical, p.candidate, p.references, p.rootBefore)
    requires (w.rooted, w.examined, w.resolved, w.first) == (a.rooted, a.examined, a.resolved, a.first)
    requires (w.last, w.rerooted, w.confirmed) == (z.last, z.rerooted, z.confirmed)
    ensures FaithfulRead(fs, w, root, parts, raw, a.begin, z.end)
  {
    ChainSeenWithin(fs, p.canonical, parts, p.references, a.first, a.end, a.first, w.begun);
    DescendsSince(fs, w.top, w.route, w.descriptor, a.end, w.begun, a.first);
    ContentFacts(fs, w, p, raw, seen, z.begin);
    PassesRootLater(fs, p.rootBefore, |p.canonical|, w.route, w.descriptor, a.end, w.begun,
                    w.route, w.descriptor, a.first, w.begun);
    var t :| a.end <= t <= w.begun && IsTop(fs, w.top, t);
  }

  lemma DescendsSince(fs: FileSystem, top: Object, checks: seq<Check>, fd: Object, from: nat, to: nat, earlier: nat)
    requires Descends(fs, top, checks, fd, from, to) && earlier <= from
    ensures Descends(fs, top, checks, fd, earlier, to)
  {
    forall i | 0 <= i < |checks| ensures LeadsAt(fs, checks, i, fd, earlier, to) {
      assert LeadsAt(fs, checks, i, fd, from, to);
    }
  }

  lemma ContentFacts(fs: FileSystem, w: Window, p: Plan, raw: seq<Byte>, seen: nat, finish: nat)
    requires fs.Valid() && w.first <= seen <= w.begun <= finish <= w.last && p.before.kind.Regular?
    requires LookUp(fs.At(w.first), w.candidate, fs.hops) == Some(w.file)
    requires p.before == StatOf(fs.At(w.first).nodes[w.file])
    requires fs.Ends(w.descriptor, seen, p.before, p.before.size) && fs.Ends(w.descriptor, w.last, p.before, |raw|)
    requires fs.Collected(w.descriptor, 0, raw, w.begun, finish)
    ensures SameContent(fs, w, raw)
  {
    CollectedWithin(fs, w.descriptor, 0, raw, w.begun, finish, w.begun, w.last);
    CollectedWithin(fs, w.descriptor, 0, raw, w.begun, finish, seen, w.last);
    assert fs.Alike(w.file, w.first, w.descriptor, seen) && fs.Alike(w.descriptor, seen, w.descriptor, w.last);
    if fs.Tracked() { SteadyAcross(fs, w.file, w.first, w.descriptor, seen, w.last, raw); }
  }

  /** `read_bounded_file`. Whatever other processes do, at most one byte over the bound is ever read and returned
      bytes are one whole content of the file that the reference below this root led to, before and after; with nobody
      else active the result is exactly the simple form. */
  method ReadBoundedFile(fs: FileSystem, root: Path, reference: string, maxBytes: int)
    returns (r: Result<seq<Byte>, Failure>, ghost w: Window)
    requires fs.Valid()
    modifies fs`now, fs`handed
    ensures r == Err(InvalidBound) <==> maxBytes < 1 || maxBytes > 65536
    ensures fs.handed <= old(fs.handed) + if r == Err(InvalidBound) then 0 else maxBytes + 1
    ensures r.Ok? ==> Acceptable(reference) && |r.value| <= maxBytes
    ensures r.Ok? ==> FaithfulRead(fs, w, root, Parts(reference), r.value, old(fs.now), fs.now)
    ensures fs.Quiet(old(fs.now)) ==> r == Whole(fs.At(old(fs.now)), root, reference, maxBytes, fs.hops)
  {
    w := NOWHERE;
    if !(1 <= maxBytes <= MAX_BOUND) { return Err(InvalidBound), w; }
    var normal := RelativeReference(reference);
    if normal.None? { return Err(Unavailable), w; }
    NormalFormIsStable(reference);
    r, w := ReadReference(fs, root, Parts(normal.value), maxBytes);
  }

  lemma PlanIsReachable(s: Snapshot, p: Plan, root: Path, parts: Path, maxBytes: nat, hops: nat)
    requires SnapshotOk(s) && PlannedAt(s, p, root, parts, maxBytes, hops)
    ensures Reachable(s, p)
    ensures WholeOf(s, root, parts, maxBytes, hops) == Ok(s.nodes[Walk(s, p.candidate).value].content)
  {
    ResolvedFacts(s, root, p.canonical, hops);
    ResolvedFacts(s, p.canonical + parts, p.candidate, hops);
  }
}
