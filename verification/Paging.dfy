/** Keyset paging over event keys: ORDER BY, row comparison and LIMIT. */
module Paging {
  import opened Sql

  /** attempt number, runner generation, sequence, event id. */
  datatype Key = Key(number: nat, generation: nat, sequence: nat, id: Uuid)

  /** SQL row comparison is lexicographic. */
  predicate Less(a: Key, b: Key) {
    || a.number < b.number
    || (a.number == b.number && a.generation < b.generation)
    || (a.number == b.number && a.generation == b.generation && a.sequence < b.sequence)
    || (a.number == b.number && a.generation == b.generation && a.sequence == b.sequence && a.id < b.id)
  }

  /** Each column decides when those before it agree. */
  lemma ColumnsDecideInOrder(a: Key, b: Key)
    ensures a.number != b.number ==> (Less(a, b) <==> a.number < b.number)
    ensures a.number == b.number && a.generation != b.generation ==> (Less(a, b) <==> a.generation < b.generation)
    ensures (a.number, a.generation) == (b.number, b.generation) && a.sequence != b.sequence ==>
      (Less(a, b) <==> a.sequence < b.sequence)
    ensures (a.number, a.generation, a.sequence) == (b.number, b.generation, b.sequence) ==>
      (Less(a, b) <==> a.id < b.id)
  {}

  ghost predicate Increasing(s: seq<Key>) {
    forall i, j :: 0 <= i < j < |s| ==> Less(s[i], s[j])
  }

  predicate IsLeast(s: set<Key>, k: Key) {
    k in s && forall o :: o in s && o != k ==> Less(k, o)
  }

  lemma {:induction false} LeastExists(s: set<Key>)
    requires s != {}
    ensures exists k :: IsLeast(s, k)
    decreases s
  {
    var x :| x in s;
    var rest := s - {x};
    assert forall o :: o in s ==> o == x || o in rest;
    if rest == {} {
      assert IsLeast(s, x);
    } else {
      LeastExists(rest);
      var m :| IsLeast(rest, m);
      if Less(x, m) {
        assert IsLeast(s, x);
      } else {
        assert IsLeast(s, m);
      }
    }
  }

  /** ORDER BY all four key columns. */
  function Sorted(s: set<Key>): (r: seq<Key>)
    ensures Increasing(r)
    ensures forall k :: k in r <==> k in s
  {
    if s == {} then []
    else
      LeastExists(s);
      var k :| IsLeast(s, k);
      [k] + Sorted(s - {k})
  }

  /** The keys after the anchor, in order, at most `limit` of them. */
  function Page(visible: set<Key>, after: Option<Key>, limit: nat): seq<Key> {
    var rest := Sorted(set k | k in visible && (after.None? || Less(after.value, k)));
    if |rest| <= limit then rest else rest[..limit]
  }

  predicate Beyond(after: Option<Key>, k: Key) {
    after.None? || Less(after.value, k)
  }

  /** A page holds exactly the least keys beyond the anchor. */
  ghost predicate IsPage(visible: set<Key>, after: Option<Key>, limit: nat, page: seq<Key>) {
    && Increasing(page) && |page| <= limit
    && (forall i :: 0 <= i < |page| ==> page[i] in visible && Beyond(after, page[i]))
    && (forall k :: k in visible && Beyond(after, k) && k !in page ==> |page| == limit)
    && (forall k, i :: k in visible && Beyond(after, k) && k !in page && 0 <= i < |page| ==> Less(page[i], k))
  }

  lemma PageIsLeast(visible: set<Key>, after: Option<Key>, limit: nat)
    ensures IsPage(visible, after, limit, Page(visible, after, limit))
  {
    var rest := Sorted(set k | k in visible && (after.None? || Less(after.value, k)));
    var page := Page(visible, after, limit);
    assert page <= rest;
    forall i | 0 <= i < |page| ensures page[i] in visible && Beyond(after, page[i]) {
      assert rest[i] in rest;
    }
    forall k | k in visible && Beyond(after, k) && k !in page
      ensures |page| == limit && forall i :: 0 <= i < |page| ==> Less(page[i], k)
    {
      assert k in rest;
      var j :| 0 <= j < |rest| && rest[j] == k;
      assert forall i :: 0 <= i < |page| ==> page[i] == rest[i] && page[i] in page;
      assert j >= |page|;
    }
  }

  // ---------------------------------------------------------------- a reader

  /** One request: what the database shows at that moment, and the page size. */
  datatype Poll = Poll(visible: set<Key>, limit: nat)

  function Last(read: seq<Key>): Option<Key> {
    if read == [] then None else Some(read[|read| - 1])
  }

  /** Everything read so far by asking each time for the page after the last key. */
  function ReadAll(polls: seq<Poll>): seq<Key> {
    if polls == [] then []
    else
      var n := |polls| - 1;
      var read := ReadAll(polls[..n]);
      read + Page(polls[n].visible, Last(read), polls[n].limit)
  }

  function LastPage(polls: seq<Poll>): seq<Key>
    requires polls != []
  {
    var n := |polls| - 1;
    Page(polls[n].visible, Last(ReadAll(polls[..n])), polls[n].limit)
  }

  /** Events are only ever added between requests. */
  ghost predicate Growing(polls: seq<Poll>) {
    forall i, j :: 0 <= i <= j < |polls| ==> polls[i].visible <= polls[j].visible
  }

  /** What was there at the first request and lies within reach of the reader has been read. */
  ghost predicate NoGap(start: set<Key>, read: seq<Key>) {
    forall k :: k in start && read != [] && !Less(read[|read| - 1], k) ==> k in read
  }

  lemma ReadStep(start: set<Key>, visible: set<Key>, read: seq<Key>, limit: nat, page: seq<Key>)
    requires Increasing(read) && NoGap(start, read) && start <= visible
    requires IsPage(visible, Last(read), limit, page)
    ensures Increasing(read + page) && NoGap(start, read + page)
    ensures |page| < limit ==> forall k :: k in start ==> k in read + page
  {
    var all := read + page;
    forall i, j | 0 <= i < j < |all| ensures Less(all[i], all[j]) {
      if i < |read| <= j {
        assert Beyond(Last(read), page[j - |read|]);
        if i < |read| - 1 { assert Less(read[i], read[|read| - 1]); }
      }
    }
    forall k | k in start && k !in all
      ensures |page| == limit
      ensures all != [] ==> Less(all[|all| - 1], k)
    {
      assert k !in read && k !in page;
      assert Beyond(Last(read), k);
    }
  }

  lemma {:induction false} ReadingIsSound(polls: seq<Poll>)
    requires polls != [] && Growing(polls)
    ensures Increasing(ReadAll(polls)) && NoGap(polls[0].visible, ReadAll(polls))
    ensures |LastPage(polls)| < polls[|polls| - 1].limit ==>
              forall k :: k in polls[0].visible ==> k in ReadAll(polls)
  {
    var n := |polls| - 1;
    if n > 0 {
      assert Growing(polls[..n]) && polls[..n][0] == polls[0];
      ReadingIsSound(polls[..n]);
    }
    var read := ReadAll(polls[..n]);
    PageIsLeast(polls[n].visible, Last(read), polls[n].limit);
    ReadStep(polls[0].visible, polls[n].visible, read, polls[n].limit, LastPage(polls));
  }

  // ---------------------------------------------------------------- agreement with the sorted log

  function Restrict(s: seq<Key>, keep: set<Key>): seq<Key> {
    if s == [] then []
    else
      var rest := Restrict(s[..|s| - 1], keep);
      if s[|s| - 1] in keep then rest + [s[|s| - 1]] else rest
  }

  lemma {:induction false} RestrictKeeps(s: seq<Key>, keep: set<Key>)
    requires Increasing(s)
    ensures Increasing(Restrict(s, keep))
    ensures forall k :: k in Restrict(s, keep) <==> k in s && k in keep
  {
    if s != [] {
      var n := |s| - 1;
      RestrictKeeps(s[..n], keep);
      assert s == s[..n] + [s[n]];
      var rest := Restrict(s[..n], keep);
      forall k | k in rest ensures Less(k, s[n]) {
        assert k in s[..n];
      }
    }
  }

  lemma ClosedBelow(a: seq<Key>, b: seq<Key>, n: nat, p: nat)
    requires Increasing(b) && n <= p < |b| && b[p] in a
    requires forall x, y :: x in b && y in a && Less(x, y) ==> x in a
    ensures b[n] in a
  {
    if n < p { assert Less(b[n], b[p]); }
  }

  /** After a common stretch of `n` keys both sequences go on with the same key. */
  lemma NextIsSame(a: seq<Key>, b: seq<Key>, n: nat)
    requires Increasing(a) && Increasing(b) && |a| == n + 1 && a[..n] <= b && a[n] in b
    requires forall x, y :: x in b && y in a && Less(x, y) ==> x in a
    ensures n < |b| && b[n] == a[n]
  {
    forall i | 0 <= i < n ensures a[i] == b[i] { assert a[..n][i] == b[i]; }
    var p :| 0 <= p < |b| && b[p] == a[n];
    assert p >= n;
    ClosedBelow(a, b, n, p);
    var q :| 0 <= q < |a| && a[q] == b[n];
    assert q >= n;
  }

  /** A shorter part of a downward-closed one is downward-closed. */
  lemma StaysClosed(a: seq<Key>, b: seq<Key>, n: nat)
    requires Increasing(a) && n <= |a|
    requires forall x, y :: x in b && y in a && Less(x, y) ==> x in a
    ensures forall x, y :: x in b && y in a[..n] && Less(x, y) ==> x in a[..n]
  {
    forall x, y | x in b && y in a[..n] && Less(x, y) ensures x in a[..n] {
      var j :| 0 <= j < n && a[j] == y;
      var i :| 0 <= i < |a| && a[i] == x;
      assert i < n;
      assert a[..n][i] == x;
    }
  }

  /** An increasing sequence over a downward-closed part of another one is its prefix. */
  lemma {:induction false} ClosedPartIsPrefix(a: seq<Key>, b: seq<Key>)
    requires Increasing(a) && Increasing(b)
    requires forall k :: k in a ==> k in b
    requires forall x, y :: x in b && y in a && Less(x, y) ==> x in a
    ensures a <= b
  {
    if a != [] {
      var n := |a| - 1;
      StaysClosed(a, b, n);
      ClosedPartIsPrefix(a[..n], b);
      assert a[n] in a;
      NextIsSame(a, b, n);
      assert a == a[..n] + [a[n]];
    }
  }

  /** A reader that has reached `y` has read every `x` below it that was there at the start. */
  lemma ReadDownwards(all: seq<Key>, start: set<Key>, x: Key, y: Key)
    requires Increasing(all) && NoGap(start, all) && x in start && y in all && Less(x, y)
    ensures x in all
  {
    var j :| 0 <= j < |all| && all[j] == y;
    assert j == |all| - 1 || Less(all[j], all[|all| - 1]);
  }

  /** Paging while events are appended: of the events present at the start, the reader has always read a
      prefix of the sorted log, each once and in order, and the whole of it once a page comes back short. */
  lemma PagingAgreesWithSortedLog(polls: seq<Poll>)
    requires polls != [] && Growing(polls)
    ensures Increasing(ReadAll(polls))
    ensures Restrict(ReadAll(polls), polls[0].visible) <= Sorted(polls[0].visible)
    ensures |LastPage(polls)| < polls[|polls| - 1].limit ==>
              Restrict(ReadAll(polls), polls[0].visible) == Sorted(polls[0].visible)
  {
    ReadingIsSound(polls);
    var all := ReadAll(polls);
    var start := polls[0].visible;
    RestrictKeeps(all, start);
    var a, b := Restrict(all, start), Sorted(start);
    forall x, y | x in b && y in a && Less(x, y) ensures x in a {
      ReadDownwards(all, start, x, y);
    }
    ClosedPartIsPrefix(a, b);
    if |LastPage(polls)| < polls[|polls| - 1].limit {
      assert forall k :: k in b ==> k in a;
      ClosedPartIsPrefix(b, a);
    }
  }

  /** Sorting the elements of an increasing sequence gives it back. */
  lemma SortedOfIncreasing(log: seq<Key>)
    requires Increasing(log)
    ensures Sorted(set k | k in log) == log
  {
    var s := Sorted(set k | k in log);
    ClosedPartIsPrefix(log, s);
    ClosedPartIsPrefix(s, log);
  }

  lemma BeyondIsTail(log: seq<Key>, m: nat, k: Key)
    requires Increasing(log) && m <= |log|
    ensures k in log && Beyond(Last(log[..m]), k) <==> k in log[m..]
  {
    if k in log && Beyond(Last(log[..m]), k) {
      var j :| 0 <= j < |log| && log[j] == k;
      assert j >= m;
      assert log[m..][j - m] == k;
    }
    if k in log[m..] {
      var j :| 0 <= j < |log[m..]| && log[m..][j] == k;
      assert log[m + j] == k;
    }
  }

  /** Over a log that grows at its end, the page after its first `m` keys is the next stretch of the log. */
  lemma PageOfLog(log: seq<Key>, m: nat, limit: nat)
    requires Increasing(log) && m <= |log|
    ensures Page((set k | k in log), Last(log[..m]), limit) == log[m..if m + limit <= |log| then m + limit else |log|]
  {
    var visible, after, tail := (set k | k in log), Last(log[..m]), log[m..];
    RestIsTail(log, m);
    SortedOfIncreasing(tail);
  }

  lemma RestIsTail(log: seq<Key>, m: nat)
    requires Increasing(log) && m <= |log|
    ensures var visible, after := (set k | k in log), Last(log[..m]);
            (set k | k in visible && (after.None? || Less(after.value, k))) == set k | k in log[m..]
  {
    var visible, after := (set k | k in log), Last(log[..m]);
    var rest := set k | k in visible && (after.None? || Less(after.value, k));
    forall k ensures k in rest <==> k in log[m..] { BeyondIsTail(log, m, k); }
  }
}
