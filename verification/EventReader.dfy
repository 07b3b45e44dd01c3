/** The event page query against the agent database, and a reader that follows a run. */
module EventReader {
  import opened Sql
  import opened AgentModel
  import AgentRuns
  import AgentHistory
  import opened Paging
  import CursorCodec
  import opened AcceptanceLog

  datatype PageError = InvalidLimit | AnchorMissing

  predicate OfRun(db: Db, runId: Uuid, e: Event) {
    e.attemptId in db.attempts && db.attempts[e.attemptId].runId == runId
  }

  /** The sort key of an event. */
  function KeyOf(db: Db, e: Event): Key {
    Key(if e.attemptId in db.attempts then db.attempts[e.attemptId].number else 0, e.generation, e.sequence, e.id)
  }

  function RunKeys(db: Db, runId: Uuid): set<Key> {
    set e | e in db.events && OfRun(db, runId, e) :: KeyOf(db, e)
  }

  /** The rows behind a page of keys. */
  function Rows(db: Db, keys: seq<Key>): seq<Event> {
    if keys == [] then []
    else
      var rest := Rows(db, keys[..|keys| - 1]);
      match FindEvent(db.events, keys[|keys| - 1].id)
      case None => rest
      case Some(e) => rest + [e]
  }

  /** The anchor's key, if the anchor is an event of this run. */
  function Anchor(db: Db, runId: Uuid, id: Uuid): Option<Key> {
    match FindEvent(db.events, id)
    case None => None
    case Some(e) => if OfRun(db, runId, e) then Some(KeyOf(db, e)) else None
  }

  function EventsPage(db: Db, runId: Uuid, after: Option<Uuid>, limit: nat): Result<seq<Event>, PageError> {
    if !(1 <= limit <= 101) then Err(InvalidLimit)
    else if after.None? then Ok(Rows(db, Page(RunKeys(db, runId), None, limit)))
    else if Anchor(db, runId, after.value).None? then Err(AnchorMissing)
    else Ok(Rows(db, Page(RunKeys(db, runId), Anchor(db, runId, after.value), limit)))
  }

  // ---------------------------------------------------------------- the log of a run

  /** The run's events in the order of their acceptance. */
  function RunLog(db: Db, events: seq<Event>, runId: Uuid): seq<Event> {
    if events == [] then []
    else
      var rest := RunLog(db, events[..|events| - 1], runId);
      var e := events[|events| - 1];
      if OfRun(db, runId, e) then rest + [e] else rest
  }

  function LogOf(db: Db, runId: Uuid): seq<Event> {
    RunLog(db, db.events, runId)
  }

  ghost function Keys(db: Db, es: seq<Event>): (ks: seq<Key>)
    ensures |ks| == |es| && forall i :: 0 <= i < |es| ==> ks[i] == KeyOf(db, es[i])
  {
    seq(|es|, i requires 0 <= i < |es| => KeyOf(db, es[i]))
  }

  lemma {:induction false} LogMembers(db: Db, events: seq<Event>, runId: Uuid)
    ensures forall e :: e in RunLog(db, events, runId) <==> e in events && OfRun(db, runId, e)
  {
    if events != [] {
      var n := |events| - 1;
      LogMembers(db, events[..n], runId);
      assert events == events[..n] + [events[n]];
    }
  }

  /** The log keeps the order of acceptance. */
  lemma {:induction false} LogOrder(db: Db, events: seq<Event>, runId: Uuid)
    requires forall i, j :: 0 <= i < j < |events| && OfRun(db, runId, events[i]) && OfRun(db, runId, events[j]) ==>
      Less(KeyOf(db, events[i]), KeyOf(db, events[j]))
    ensures Increasing(Keys(db, RunLog(db, events, runId)))
  {
    if events != [] {
      var n := |events| - 1;
      LogOrder(db, events[..n], runId);
      LogMembers(db, events[..n], runId);
      var rest := RunLog(db, events[..n], runId);
      if OfRun(db, runId, events[n]) {
        forall i | 0 <= i < |rest| ensures Less(KeyOf(db, rest[i]), KeyOf(db, events[n])) {
          assert rest[i] in events[..n];
          var k :| 0 <= k < n && events[k] == rest[i];
        }
      }
    }
  }

  lemma {:induction false} LogInOrder(db: Db, events: seq<Event>, runId: Uuid)
    ensures InOrder(RunLog(db, events, runId), events)
  {
    if events != [] {
      var n := |events| - 1;
      var rest, log := RunLog(db, events[..n], runId), RunLog(db, events, runId);
      LogInOrder(db, events[..n], runId);
      LogMembers(db, events[..n], runId);
      assert events == events[..n] + [events[n]];
      forall i, j | 0 <= i < j < |log| ensures Before(log[i], log[j], events) {
        if j < |rest| {
          BeforeWithMore(rest[i], rest[j], events[..n], events[n]);
        } else {
          assert rest[i] in rest;
          BeforeTheNew(rest[i], events[..n], events[n]);
        }
      }
    }
  }

  /** The log is the acceptance log, row by row. */
  lemma LogOfIsRunLog(db: Db, runId: Uuid)
    ensures IsRunLog(LogOf(db, runId), db, runId)
  {
    LogMembers(db, db.events, runId);
    LogInOrder(db, db.events, runId);
  }

  /** Identities are unique, and the run's log is in key order. */
  ghost predicate SoundLog(db: Db, runId: Uuid) {
    && Distinct(db.events)
    && Increasing(Keys(db, LogOf(db, runId)))
  }

  /** In a sound database the acceptance order of a run is its key order. */
  lemma LogIsSound(db: Db, runId: Uuid)
    requires AgentRuns.Inv(db)
    ensures SoundLog(db, runId)
  {
    forall i, j | 0 <= i < j < |db.events| && OfRun(db, runId, db.events[i]) && OfRun(db, runId, db.events[j])
      ensures Less(KeyOf(db, db.events[i]), KeyOf(db, db.events[j]))
    {
      assert AgentRuns.AttemptOk(db, db.events[i].attemptId);
      assert AgentRuns.AttemptOk(db, db.events[j].attemptId);
      assert AgentRuns.PositionLess(db.events[i], db.events[j]);
    }
    LogOrder(db, db.events, runId);
  }

  lemma {:induction false} LogPrefix(db: Db, v: Db, events: seq<Event>, more: seq<Event>, runId: Uuid)
    requires events <= more
    requires forall i :: 0 <= i < |events| ==> (OfRun(v, runId, events[i]) <==> OfRun(db, runId, events[i]))
    ensures RunLog(db, events, runId) <= RunLog(v, more, runId)
    decreases |more|
  {
    if events == more {
      if events != [] {
        LogPrefix(db, v, events[..|events| - 1], more[..|more| - 1], runId);
        LogPrefix(v, db, more[..|more| - 1], events[..|events| - 1], runId);
      }
    } else {
      LogPrefix(db, v, events, more[..|more| - 1], runId);
    }
  }

  // ---------------------------------------------------------------- one page

  lemma KeysOfLog(db: Db, runId: Uuid)
    ensures RunKeys(db, runId) == set k | k in Keys(db, LogOf(db, runId))
  {
    var log := LogOf(db, runId);
    LogMembers(db, db.events, runId);
    var ks := Keys(db, log);
    forall k ensures k in RunKeys(db, runId) <==> k in ks {
      if k in RunKeys(db, runId) {
        var e :| e in db.events && OfRun(db, runId, e) && KeyOf(db, e) == k;
        assert e in log;
        var i :| 0 <= i < |log| && log[i] == e;
        assert ks[i] == k;
      }
      if k in ks {
        var i :| 0 <= i < |ks| && ks[i] == k;
        assert log[i] in log;
      }
    }
  }

  lemma {:induction false} RowsOfLog(db: Db, es: seq<Event>)
    requires forall i, j :: 0 <= i < j < |db.events| ==> db.events[i].id != db.events[j].id
    requires forall i :: 0 <= i < |es| ==> es[i] in db.events
    ensures Rows(db, Keys(db, es)) == es
  {
    if es != [] {
      var n := |es| - 1;
      RowsOfLog(db, es[..n]);
      AgentHistory.FindsThe(db.events, es[n]);
      assert Keys(db, es)[..n] == Keys(db, es[..n]);
      assert es == es[..n] + [es[n]];
    }
  }

  function Min(a: nat, b: nat): nat {
    if a <= b then a else b
  }

  /** The anchor of the m-th event of the log is its key. */
  lemma AnchorOfLog(db: Db, runId: Uuid, m: nat)
    requires SoundLog(db, runId) && m < |LogOf(db, runId)|
    ensures Anchor(db, runId, LogOf(db, runId)[m].id) == Some(KeyOf(db, LogOf(db, runId)[m]))
  {
    LogMembers(db, db.events, runId);
    assert LogOf(db, runId)[m] in LogOf(db, runId);
    AgentHistory.FindsThe(db.events, LogOf(db, runId)[m]);
  }

  lemma KeysOfStretch(db: Db, runId: Uuid, m: nat, limit: nat)
    requires SoundLog(db, runId) && m <= |LogOf(db, runId)|
    ensures var log := LogOf(db, runId);
            Page(RunKeys(db, runId), if m == 0 then None else Some(KeyOf(db, log[m - 1])), limit) ==
            Keys(db, log[m..Min(m + limit, |log|)])
  {
    var log := LogOf(db, runId);
    var ks := Keys(db, log);
    KeysOfLog(db, runId);
    PageOfLog(ks, m, limit);
    assert Last(ks[..m]) == if m == 0 then None else Some(KeyOf(db, log[m - 1]));
  }

  lemma RowsOfStretch(db: Db, runId: Uuid, m: nat, hi: nat)
    requires SoundLog(db, runId) && m <= hi <= |LogOf(db, runId)|
    ensures Rows(db, Keys(db, LogOf(db, runId)[m..hi])) == LogOf(db, runId)[m..hi]
  {
    var log := LogOf(db, runId);
    LogMembers(db, db.events, runId);
    forall i | 0 <= i < hi - m ensures log[m..hi][i] in db.events { assert log[m + i] in log; }
    RowsOfLog(db, log[m..hi]);
  }

  lemma NextStretchOfLog(db: Db, runId: Uuid, m: nat, limit: nat)
    requires SoundLog(db, runId) && 1 <= limit <= 101 && m <= |LogOf(db, runId)|
    ensures var log := LogOf(db, runId);
            EventsPage(db, runId, if m == 0 then None else Some(log[m - 1].id), limit) ==
            Ok(log[m..Min(m + limit, |log|)])
  {
    KeysOfStretch(db, runId, m, limit);
    RowsOfStretch(db, runId, m, Min(m + limit, |LogOf(db, runId)|));
    if m > 0 { AnchorOfLog(db, runId, m - 1); }
  }

  function After(read: seq<Event>): Option<Uuid> {
    if read == [] then None else Some(read[|read| - 1].id)
  }

  lemma StretchExtends<T>(s: seq<T>, read: seq<T>, hi: nat)
    requires read <= s && |read| <= hi <= |s|
    ensures read + s[|read|..hi] == s[..hi]
  {
    assert read == s[..|read|];
  }

  ghost predicate IsLog(db: Db, runId: Uuid, log: seq<Event>) {
    SoundLog(db, runId) && log == LogOf(db, runId)
  }

  /** The cursor of a reader that holds the first `m` events. */
  function AfterFirst(log: seq<Event>, m: nat): Option<Uuid>
    requires m <= |log|
  {
    if m == 0 then None else Some(log[m - 1].id)
  }

  /** In a sound database the acceptance log is the log the query pages through. */
  lemma RunLogIsLog(db: Db, runId: Uuid, log: seq<Event>)
    requires AgentRuns.Inv(db) && IsRunLog(log, db, runId)
    ensures IsLog(db, runId, log)
  {
    LogIsSound(db, runId);
    LogOfIsRunLog(db, runId);
    LogIsUnique(log, LogOf(db, runId), db, runId);
  }

  /** Asking after the m-th event of the acceptance log returns the next stretch of the log. */
  lemma PageIsNextStretch(db: Db, runId: Uuid, log: seq<Event>, m: nat, limit: nat)
    requires AgentRuns.Inv(db) && IsRunLog(log, db, runId) && 1 <= limit <= 101 && m <= |log|
    ensures EventsPage(db, runId, AfterFirst(log, m), limit) == Ok(log[m..Min(m + limit, |log|)])
  {
    RunLogIsLog(db, runId, log);
    PageAfterFirst(db, runId, log, m, limit);
  }

  lemma PageAfterFirst(db: Db, runId: Uuid, log: seq<Event>, m: nat, limit: nat)
    requires IsLog(db, runId, log) && 1 <= limit <= 101 && m <= |log|
    ensures EventsPage(db, runId, AfterFirst(log, m), limit) == Ok(log[m..Min(m + limit, |log|)])
  {
    NextStretchOfLog(db, runId, m, limit);
  }

  /** A reader that holds a prefix of the log holds a longer one after its next request. */
  lemma PageExtendsPrefix(db: Db, runId: Uuid, log: seq<Event>, read: seq<Event>, limit: nat) returns (page: seq<Event>)
    requires IsLog(db, runId, log) && 1 <= limit <= 101 && read <= log
    ensures EventsPage(db, runId, After(read), limit) == Ok(page)
    ensures read + page <= log && (|page| < limit ==> read + page == log)
  {
    var hi := Min(|read| + limit, |log|);
    assert After(read) == AfterFirst(log, |read|);
    PageAfterFirst(db, runId, log, |read|, limit);
    StretchExtends(log, read, hi);
    page := log[|read|..hi];
    assert log[..|log|] == log;
  }

  // ---------------------------------------------------------------- a reader along a run

  /** One request: the database at that moment, and the page size. */
  datatype Request = Request(db: Db, limit: nat)

  /** What the reader holds after its requests; `None` would be a refused anchor or limit. */
  function ReadRun(reqs: seq<Request>, runId: Uuid): Option<seq<Event>> {
    if reqs == [] then Some([])
    else
      var n := |reqs| - 1;
      match ReadRun(reqs[..n], runId)
      case None => None
      case Some(read) =>
        match EventsPage(reqs[n].db, runId, After(read), reqs[n].limit)
        case Err(_) => None
        case Ok(page) => Some(read + page)
  }

  /** Between requests the run's log only grows. */
  ghost predicate Following(reqs: seq<Request>, runId: Uuid) {
    && (forall i :: 0 <= i < |reqs| ==> SoundLog(reqs[i].db, runId) && 1 <= reqs[i].limit <= 101)
    && (forall i, j :: 0 <= i < j < |reqs| ==> LogOf(reqs[i].db, runId) <= LogOf(reqs[j].db, runId))
  }

  /** The reader holds a prefix of the acceptance log it last saw, and all of it if the last page came back short. */
  ghost predicate CaughtUp(reqs: seq<Request>, runId: Uuid)
    requires reqs != []
  {
    var n := |reqs| - 1;
    var before, read := ReadRun(reqs[..n], runId), ReadRun(reqs, runId);
    && before.Some? && read.Some? && IsPrefixOfLog(read.value, reqs[n].db, runId)
    && (|read.value| - |before.value| < reqs[n].limit ==> IsRunLog(read.value, reqs[n].db, runId))
  }

  ghost predicate CaughtUpWithLog(reqs: seq<Request>, runId: Uuid)
    requires reqs != []
  {
    var n := |reqs| - 1;
    var before, read := ReadRun(reqs[..n], runId), ReadRun(reqs, runId);
    && before.Some? && read.Some? && read.value <= LogOf(reqs[n].db, runId)
    && (|read.value| - |before.value| < reqs[n].limit ==> read.value == LogOf(reqs[n].db, runId))
  }

  lemma {:induction false} FollowingReaderHoldsPrefix(reqs: seq<Request>, runId: Uuid)
    requires reqs != [] && Following(reqs, runId)
    ensures CaughtUpWithLog(reqs, runId)
  {
    var n := |reqs| - 1;
    if n > 0 {
      assert Following(reqs[..n], runId);
      FollowingReaderHoldsPrefix(reqs[..n], runId);
      assert LogOf(reqs[n - 1].db, runId) <= LogOf(reqs[n].db, runId);
    }
    var read := ReadRun(reqs[..n], runId).value;
    var page := PageExtendsPrefix(reqs[n].db, runId, LogOf(reqs[n].db, runId), read, reqs[n].limit);
  }

  lemma LogGrows(dbs: seq<Db>, ls: seq<AgentRuns.Label>, digest: Event -> string, i: nat, j: nat, runId: Uuid)
    requires AgentHistory.IsRun(dbs, ls, digest) && i <= j < |dbs|
    ensures LogOf(dbs[i], runId) <= LogOf(dbs[j], runId)
  {
    AgentHistory.RunGrows(dbs, ls, digest, i, j);
    AgentHistory.RunKeepsInv(dbs, ls, digest, i);
    forall k | 0 <= k < |dbs[i].events|
      ensures OfRun(dbs[j], runId, dbs[i].events[k]) <==> OfRun(dbs[i], runId, dbs[i].events[k])
    {
      assert AgentRuns.EventOk(dbs[i], dbs[i].events[k]);
    }
    LogPrefix(dbs[i], dbs[j], dbs[i].events, dbs[j].events, runId);
  }

  lemma LogIsSoundInRun(dbs: seq<Db>, ls: seq<AgentRuns.Label>, digest: Event -> string, i: nat, runId: Uuid)
    requires AgentHistory.IsRun(dbs, ls, digest) && i < |dbs|
    ensures SoundLog(dbs[i], runId)
  {
    AgentHistory.RunKeepsInv(dbs, ls, digest, i);
    LogIsSound(dbs[i], runId);
  }

  /** However requests interleave with accepts, resumes and cancels, the reader holds exactly a prefix of the
      acceptance log, its anchor is never refused, and a short page means it has caught up. */
  lemma ReaderFollowsAcceptanceLog(dbs: seq<Db>, ls: seq<AgentRuns.Label>, digest: Event -> string,
                                   runId: Uuid, at: seq<nat>, reqs: seq<Request>)
    requires AgentHistory.IsRun(dbs, ls, digest) && reqs != [] && |at| == |reqs|
    requires forall i :: 0 <= i < |at| ==> at[i] < |dbs| && reqs[i].db == dbs[at[i]] && 1 <= reqs[i].limit <= 101
    requires forall i, j :: 0 <= i < j < |at| ==> at[i] <= at[j]
    ensures CaughtUp(reqs, runId)
  {
    forall i | 0 <= i < |at| ensures SoundLog(reqs[i].db, runId) {
      LogIsSoundInRun(dbs, ls, digest, at[i], runId);
    }
    forall i, j | 0 <= i < j < |at| ensures LogOf(reqs[i].db, runId) <= LogOf(reqs[j].db, runId) {
      LogGrows(dbs, ls, digest, at[i], at[j], runId);
    }
    FollowingReaderHoldsPrefix(reqs, runId);
    LogOfIsRunLog(reqs[|reqs| - 1].db, runId);
  }

  // ---------------------------------------------------------------- the public listing

  datatype EventPage = EventPage(items: seq<Event>, next: Option<Uuid>)

  /** One row more than asked for tells whether a next page exists. */
  function Listed(rows: seq<Event>, limit: nat): EventPage
    requires limit >= 1
  {
    if |rows| > limit then EventPage(rows[..limit], Some(rows[limit - 1].id)) else EventPage(rows, None)
  }

  /** `list_events` */
  function ListEvents(db: Db, runId: Uuid, after: Option<Uuid>, limit: nat): Result<EventPage, PageError> {
    if !(1 <= limit <= 100) then Err(InvalidLimit)
    else match EventsPage(db, runId, after, limit + 1)
      case Err(error) => Err(error)
      case Ok(rows) => Ok(Listed(rows, limit))
  }

  /** The stretch of `limit` events after the first `m`, with a cursor exactly while events remain. */
  ghost predicate Stretch(page: EventPage, log: seq<Event>, m: nat, limit: nat)
    requires m <= |log| && limit >= 1
  {
    && page.items == log[m..Min(m + limit, |log|)]
    && page.next == (if m + limit < |log| then Some(log[m + limit - 1].id) else None)
  }

  lemma StretchOfStretch<T>(s: seq<T>, m: nat, k: nat, hi: nat)
    requires m + k <= hi <= |s|
    ensures s[m..hi][..k] == s[m..m + k]
    ensures k > 0 ==> s[m..hi][k - 1] == s[m + k - 1]
  {}

  lemma ListedStretch(log: seq<Event>, m: nat, limit: nat)
    requires m <= |log| && limit >= 1
    ensures Stretch(Listed(log[m..Min(m + limit + 1, |log|)], limit), log, m, limit)
  {
    if m + limit < |log| { StretchOfStretch(log, m, limit, m + limit + 1); }
  }

  lemma ListingOfPage(db: Db, runId: Uuid, after: Option<Uuid>, limit: nat, rows: seq<Event>)
    requires 1 <= limit <= 100 && EventsPage(db, runId, after, limit + 1) == Ok(rows)
    ensures ListEvents(db, runId, after, limit) == Ok(Listed(rows, limit))
  {}

  /** Following cursors: the listing returns the next stretch of the acceptance log. */
  lemma ListingCoversLog(db: Db, runId: Uuid, log: seq<Event>, m: nat, limit: nat) returns (page: EventPage)
    requires AgentRuns.Inv(db) && IsRunLog(log, db, runId) && 1 <= limit <= 100 && m <= |log|
    ensures ListEvents(db, runId, AfterFirst(log, m), limit) == Ok(page)
    ensures Stretch(page, log, m, limit)
  {
    RunLogIsLog(db, runId, log);
    page := ListingOfLog(db, runId, log, m, limit);
  }

  lemma ListingOfLog(db: Db, runId: Uuid, log: seq<Event>, m: nat, limit: nat) returns (page: EventPage)
    requires IsLog(db, runId, log) && 1 <= limit <= 100 && m <= |log|
    ensures ListEvents(db, runId, AfterFirst(log, m), limit) == Ok(page)
    ensures Stretch(page, log, m, limit)
  {
    var rows := log[m..Min(m + limit + 1, |log|)];
    page := Listed(rows, limit);
    PageAfterFirst(db, runId, log, m, limit + 1);
    ListingOfPage(db, runId, AfterFirst(log, m), limit, rows);
    ListedStretch(log, m, limit);
  }

  // ---------------------------------------------------------------- following text cursors

  /** Identifiers as text, and the primitives of the cursor codec. */
  datatype Wire = Wire(text: Uuid -> string, parse: string -> Option<Uuid>, codec: CursorCodec.Primitives)

  ghost predicate Invertible(x: Wire) {
    CursorCodec.Lawful(x.codec) && forall u: Uuid :: x.parse(x.text(u)) == Some(u)
  }

  datatype TextPage = TextPage(items: seq<Event>, next: Option<string>)

  datatype ListError = BadLimit | RunMissing | BadCursor

  function CursorText(runId: Uuid, id: Uuid, x: Wire): string {
    CursorCodec.EncodeCursor(x.text(runId), x.text(id), x.codec)
  }

  function CursorEvent(runId: Uuid, cursor: string, x: Wire): Option<Uuid> {
    match CursorCodec.DecodeCursor(x.text(runId), cursor, x.codec)
    case None => None
    case Some(text) => x.parse(text)
  }

  /** `list_events` as a client sees it: cursors are text, and an unusable one is refused. */
  function ListPage(db: Db, runId: Uuid, cursor: Option<string>, limit: nat, x: Wire): Result<TextPage, ListError> {
    if !(1 <= limit <= 100) then Err(BadLimit)
    else if runId !in db.runs then Err(RunMissing)
    else if cursor.Some? && CursorEvent(runId, cursor.value, x).None? then Err(BadCursor)
    else match ListEvents(db, runId, if cursor.None? then None else CursorEvent(runId, cursor.value, x), limit)
      case Err(_) => Err(BadCursor)
      case Ok(page) => Ok(AsText(page, runId, x))
  }

  lemma CursorNamesEvent(runId: Uuid, id: Uuid, x: Wire)
    requires Invertible(x)
    ensures CursorEvent(runId, CursorText(runId, id, x), x) == Some(id)
  {
    CursorCodec.CursorsAreBoundToTheirRun(x.text(runId), x.text(id), x.text(runId), x.codec);
  }

  /** The cursor of a client that holds the first `m` events. */
  function TextAfterFirst(runId: Uuid, log: seq<Event>, m: nat, x: Wire): Option<string>
    requires m <= |log|
  {
    if m == 0 then None else Some(CursorText(runId, log[m - 1].id, x))
  }

  /** The next stretch of the log, with the cursor behind it exactly while events remain. */
  ghost predicate TextStretch(page: TextPage, runId: Uuid, log: seq<Event>, m: nat, limit: nat, x: Wire)
    requires m <= |log|
  {
    && page.items == log[m..Min(m + limit, |log|)]
    && page.next == if m + limit < |log| then TextAfterFirst(runId, log, m + limit, x) else None
  }

  lemma TextPageOfListing(db: Db, runId: Uuid, after: Option<Uuid>, cursor: Option<string>, limit: nat, x: Wire,
                          page: EventPage)
    requires 1 <= limit <= 100 && runId in db.runs && ListEvents(db, runId, after, limit) == Ok(page)
    requires if cursor.None? then after == None else after.Some? && CursorEvent(runId, cursor.value, x) == after
    ensures ListPage(db, runId, cursor, limit, x) == Ok(AsText(page, runId, x))
  {}

  function AsText(page: EventPage, runId: Uuid, x: Wire): TextPage {
    TextPage(page.items, if page.next.None? then None else Some(CursorText(runId, page.next.value, x)))
  }

  lemma AsTextStretch(page: EventPage, runId: Uuid, log: seq<Event>, m: nat, limit: nat, x: Wire)
    requires m <= |log| && limit >= 1 && Stretch(page, log, m, limit)
    ensures TextStretch(AsText(page, runId, x), runId, log, m, limit, x)
  {}

  /** The same with text cursors. */
  lemma TextListingCoversLog(db: Db, runId: Uuid, log: seq<Event>, m: nat, limit: nat, x: Wire) returns (page: TextPage)
    requires AgentRuns.Inv(db) && IsRunLog(log, db, runId) && 1 <= limit <= 100 && m <= |log|
    requires runId in db.runs && Invertible(x)
    ensures ListPage(db, runId, TextAfterFirst(runId, log, m, x), limit, x) == Ok(page)
    ensures TextStretch(page, runId, log, m, limit, x)
  {
    RunLogIsLog(db, runId, log);
    page := TextListingOfLog(db, runId, log, m, limit, x);
  }

  lemma TextListingOfLog(db: Db, runId: Uuid, log: seq<Event>, m: nat, limit: nat, x: Wire) returns (page: TextPage)
    requires IsLog(db, runId, log) && 1 <= limit <= 100 && m <= |log| && runId in db.runs && Invertible(x)
    ensures ListPage(db, runId, TextAfterFirst(runId, log, m, x), limit, x) == Ok(page)
    ensures TextStretch(page, runId, log, m, limit, x)
  {
    var listing := ListingOfLog(db, runId, log, m, limit);
    if m > 0 { CursorNamesEvent(runId, log[m - 1].id, x); }
    page := AsText(listing, runId, x);
    TextPageOfListing(db, runId, AfterFirst(log, m), TextAfterFirst(runId, log, m, x), limit, x, listing);
    AsTextStretch(listing, runId, log, m, limit, x);
  }

  /** A client that asks with the cursor of its last page until a page comes without one. */
  datatype Client = Refused | Reading(items: seq<Event>, cursor: Option<string>) | Finished(items: seq<Event>)

  function Next(c: Client, req: Request, runId: Uuid, x: Wire): Client {
    if !c.Reading? then c
    else match ListPage(req.db, runId, c.cursor, req.limit, x)
      case Err(_) => Refused
      case Ok(page) =>
        if page.next.None? then Finished(c.items + page.items) else Reading(c.items + page.items, page.next)
  }

  function ClientAfter(reqs: seq<Request>, runId: Uuid, x: Wire): Client {
    if reqs == [] then Reading([], None)
    else Next(ClientAfter(reqs[..|reqs| - 1], runId, x), reqs[|reqs| - 1], runId, x)
  }

  ghost predicate ListingFollows(reqs: seq<Request>, runId: Uuid) {
    Following(reqs, runId) && forall i :: 0 <= i < |reqs| ==> reqs[i].limit <= 100 && runId in reqs[i].db.runs
  }

  /** While reading, the client holds a prefix of the acceptance log and the cursor behind it; when finished it
      holds all there was at its last request. */
  ghost predicate OnTrack(c: Client, reqs: seq<Request>, runId: Uuid, x: Wire) {
    match c
    case Refused => false
    case Reading(items, cursor) =>
      && (reqs == [] ==> items == [])
      && (reqs != [] ==> IsPrefixOfLog(items, reqs[|reqs| - 1].db, runId))
      && cursor == TextAfterFirst(runId, items, |items|, x)
    case Finished(items) => exists i :: 0 <= i < |reqs| && IsRunLog(items, reqs[i].db, runId)
  }

  ghost predicate OnLog(c: Client, reqs: seq<Request>, runId: Uuid, x: Wire) {
    match c
    case Refused => false
    case Reading(items, cursor) =>
      && (reqs == [] ==> items == [])
      && (reqs != [] ==> items <= LogOf(reqs[|reqs| - 1].db, runId))
      && cursor == TextAfterFirst(runId, items, |items|, x)
    case Finished(items) => exists i :: 0 <= i < |reqs| && HoldsAll(items, reqs[i].db, runId)
  }

  ghost predicate HoldsAll(items: seq<Event>, db: Db, runId: Uuid) { items == LogOf(db, runId) }

  lemma TextCursorOfPrefix(runId: Uuid, log: seq<Event>, k: nat, x: Wire)
    requires k <= |log|
    ensures TextAfterFirst(runId, log[..k], k, x) == TextAfterFirst(runId, log, k, x)
  {}

  lemma NextOnTrack(items: seq<Event>, db: Db, log: seq<Event>, limit: nat, runId: Uuid, x: Wire) returns (c: Client)
    requires IsLog(db, runId, log) && 1 <= limit <= 100 && runId in db.runs && Invertible(x) && items <= log
    ensures Next(Reading(items, TextAfterFirst(runId, items, |items|, x)), Request(db, limit), runId, x) == c
    ensures match c
      case Refused => false
      case Reading(more, cursor) => more <= log && cursor == TextAfterFirst(runId, more, |more|, x)
      case Finished(more) => more == log
  {
    var m := |items|;
    var hi := Min(m + limit, |log|);
    assert items == log[..m];
    TextCursorOfPrefix(runId, log, m, x);
    TextCursorOfPrefix(runId, log, hi, x);
    var page := TextListingOfLog(db, runId, log, m, limit, x);
    NextFromPage(items, db, limit, runId, x, page);
    StretchExtends(log, items, hi);
    assert log[..|log|] == log;
    c := if page.next.None? then Finished(log[..hi]) else Reading(log[..hi], page.next);
  }

  lemma NextFromPage(items: seq<Event>, db: Db, limit: nat, runId: Uuid, x: Wire, page: TextPage)
    requires ListPage(db, runId, TextAfterFirst(runId, items, |items|, x), limit, x) == Ok(page)
    ensures Next(Reading(items, TextAfterFirst(runId, items, |items|, x)), Request(db, limit), runId, x) ==
            if page.next.None? then Finished(items + page.items) else Reading(items + page.items, page.next)
  {}

  /** A finished client stays as it is. */
  lemma FinishedStays(c: Client, most: seq<Request>, reqs: seq<Request>, runId: Uuid, x: Wire)
    requires c.Finished? && OnLog(c, most, runId, x) && most <= reqs
    ensures OnLog(c, reqs, runId, x)
  {
    var i :| 0 <= i < |most| && HoldsAll(c.items, most[i].db, runId);
    assert reqs[i] == most[i];
  }

  /** A reading client goes on behind what it holds. */
  lemma ReadingGoesOn(c: Client, reqs: seq<Request>, runId: Uuid, x: Wire) returns (next: Client)
    requires c.Reading? && reqs != [] && Invertible(x)
    requires IsLog(reqs[|reqs| - 1].db, runId, LogOf(reqs[|reqs| - 1].db, runId))
    requires 1 <= reqs[|reqs| - 1].limit <= 100 && runId in reqs[|reqs| - 1].db.runs
    requires c.items <= LogOf(reqs[|reqs| - 1].db, runId) && c.cursor == TextAfterFirst(runId, c.items, |c.items|, x)
    ensures next == Next(c, reqs[|reqs| - 1], runId, x) && OnLog(next, reqs, runId, x)
  {
    var last := reqs[|reqs| - 1];
    next := NextOnTrack(c.items, last.db, LogOf(last.db, runId), last.limit, runId, x);
    assert last == Request(last.db, last.limit) && c == Reading(c.items, c.cursor);
    if next.Finished? { assert HoldsAll(next.items, last.db, runId); }
  }

  lemma {:induction false} ClientStaysOnTrack(reqs: seq<Request>, runId: Uuid, x: Wire)
    requires ListingFollows(reqs, runId) && Invertible(x)
    ensures OnLog(ClientAfter(reqs, runId, x), reqs, runId, x)
  {
    if reqs != [] {
      var n := |reqs| - 1;
      var most := reqs[..n];
      assert ListingFollows(most, runId);
      ClientStaysOnTrack(most, runId, x);
      var c := ClientAfter(most, runId, x);
      if c.Reading? {
        if n > 0 { assert LogOf(most[n - 1].db, runId) <= LogOf(reqs[n].db, runId); }
        var next := ReadingGoesOn(c, reqs, runId, x);
      } else {
        FinishedStays(c, most, reqs, runId, x);
      }
    }
  }

  lemma OnLogIsOnTrack(c: Client, reqs: seq<Request>, runId: Uuid, x: Wire)
    requires OnLog(c, reqs, runId, x)
    ensures OnTrack(c, reqs, runId, x)
  {
    if c.Reading? && reqs != [] { LogOfIsRunLog(reqs[|reqs| - 1].db, runId); }
    if c.Finished? {
      var i :| 0 <= i < |reqs| && HoldsAll(c.items, reqs[i].db, runId);
      LogOfIsRunLog(reqs[i].db, runId);
    }
  }

  /** However requests interleave with accepts, resumes and cancels, a client following the text cursors is never
      refused, has read a prefix of the acceptance log, and has read all of it when a page comes without a cursor. */
  lemma FollowingCursorsCoversLog(dbs: seq<Db>, ls: seq<AgentRuns.Label>, digest: Event -> string,
                                  runId: Uuid, at: seq<nat>, reqs: seq<Request>, x: Wire)
    requires AgentHistory.IsRun(dbs, ls, digest) && |at| == |reqs| && Invertible(x)
    requires forall i :: 0 <= i < |at| ==>
      at[i] < |dbs| && reqs[i].db == dbs[at[i]] && 1 <= reqs[i].limit <= 100 && runId in reqs[i].db.runs
    requires forall i, j :: 0 <= i < j < |at| ==> at[i] <= at[j]
    ensures OnTrack(ClientAfter(reqs, runId, x), reqs, runId, x)
  {
    forall i | 0 <= i < |at| ensures SoundLog(reqs[i].db, runId) {
      LogIsSoundInRun(dbs, ls, digest, at[i], runId);
    }
    forall i, j | 0 <= i < j < |at| ensures LogOf(reqs[i].db, runId) <= LogOf(reqs[j].db, runId) {
      LogGrows(dbs, ls, digest, at[i], at[j], runId);
    }
    ClientStaysOnTrack(reqs, runId, x);
    OnLogIsOnTrack(ClientAfter(reqs, runId, x), reqs, runId, x);
  }

  // ---------------------------------------------------------------- refusals

  /** Some event of the run has this identifier. */
  ghost predicate Anchored(db: Db, runId: Uuid, id: Uuid) {
    exists e :: e in db.events && e.id == id && e.attemptId in db.attempts && db.attempts[e.attemptId].runId == runId
  }

  /** A page is refused exactly for a limit outside 1..101, or an anchor that is no event of the run. */
  lemma PagesAreRefusedExactly(db: Db, runId: Uuid, after: Option<Uuid>, limit: nat)
    requires AgentRuns.Inv(db)
    ensures EventsPage(db, runId, after, limit) == Err(InvalidLimit) <==> limit < 1 || limit > 101
    ensures EventsPage(db, runId, after, limit) == Err(AnchorMissing) <==>
      1 <= limit <= 101 && after != None && !Anchored(db, runId, after.value)
  {
    if after.Some? { AnchorExactly(db, runId, after.value); }
  }

  lemma AnchorExactly(db: Db, runId: Uuid, id: Uuid)
    requires AgentRuns.Inv(db)
    ensures Anchor(db, runId, id) != None <==> Anchored(db, runId, id)
  {
    if Anchored(db, runId, id) {
      var e :| e in db.events && e.id == id && e.attemptId in db.attempts && db.attempts[e.attemptId].runId == runId;
      AgentHistory.FindsThe(db.events, e);
    }
  }

  /** A listing is refused exactly for a limit outside 1..100, an unknown run, or a cursor that is not the text of a
      signed payload naming an event of this run. */
  lemma ListingsAreRefusedExactly(db: Db, runId: Uuid, cursor: Option<string>, limit: nat, x: Wire)
    requires AgentRuns.Inv(db)
    ensures ListPage(db, runId, cursor, limit, x) == Err(BadLimit) <==> limit < 1 || limit > 100
    ensures ListPage(db, runId, cursor, limit, x) == Err(RunMissing) <==> 1 <= limit <= 100 && runId !in db.runs
    ensures ListPage(db, runId, cursor, limit, x) == Err(BadCursor) <==>
      && 1 <= limit <= 100 && runId in db.runs && cursor != None
      && match CursorEvent(runId, cursor.value, x)
         case None => true
         case Some(id) => !Anchored(db, runId, id)
  {
    if 1 <= limit <= 100 && runId in db.runs {
      if cursor.None? {
        PagesAreRefusedExactly(db, runId, None, limit + 1);
      } else if CursorEvent(runId, cursor.value, x).Some? {
        PagesAreRefusedExactly(db, runId, CursorEvent(runId, cursor.value, x), limit + 1);
      }
    }
  }
}
