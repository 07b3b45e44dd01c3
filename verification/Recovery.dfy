/** The break-glass recovery command: what its exit code and its evidence say about a commit whose outcome may be
    unknown, when any call may raise. */
module Recovery {
  import opened Basics
  import opened Sql

  type Password = string
  type Ticket = nat

  /** The command's own transaction. `staged` is the credential it has written, or None when the idempotent command
      was replayed and there is nothing new to write. A commit that raised leaves it in doubt. */
  datatype Transaction =
    | NotBegun
    | Open(staged: Option<Password>)
    | InDoubt(staged: Option<Password>)
    | Committed(staged: Option<Password>)
    | Aborted

  /** `recorded` is the credential durably recorded for this command; `others` whether another session recorded it
      while this command ran. */
  datatype Database = Database(recorded: Option<Password>, own: Transaction, others: bool)

  datatype Outcome = ATTEMPT | SUCCESS | FAILED | DENIED | OUTCOME_UNKNOWN

  datatype Event =
    | Reported(outcome: Outcome)
    | Printed(password: Password)
    | CommitRequested(staged: Option<Password>)
    | DenialRecorded
    | TicketCompleted(ticket: Ticket)

  datatype Execution = Execution(password: Password, tickets: seq<Ticket>)

  /** Exceptions: the domain's denial, or anything else. */
  datatype Raised = Denial | Fault

  /** The transaction has committed or may still do so. */
  predicate MayCommit(t: Transaction) { t.Committed? || t.InDoubt? }

  predicate HoldsClaim(t: Transaction) { (t.Open? || t.InDoubt?) && t.staged.Some? }

  /** The record is unique: while this transaction holds the claim nobody else has recorded, and what it commits is
      what is recorded. */
  predicate DatabaseOk(d: Database) {
    && (HoldsClaim(d.own) ==> d.recorded.None?)
    && (d.own.Committed? && d.own.staged.Some? ==> d.recorded == d.own.staged)
  }

  predicate CommittedHere(t: Transaction) { t.Committed? && t.staged.Some? }

  /** Who has recorded: somebody before the command started, another session since, or this transaction. */
  predicate Accounted(d: Database, initial: Option<Password>) {
    && (d.recorded.Some? <==> initial.Some? || d.others || CommittedHere(d.own))
    && (initial.Some? ==> d.recorded == initial)
  }

  /** What the passing of time and other sessions can do: settle a commit in doubt either way, end an open
      transaction, and record a credential for the command while no one holds its claim. A record stays. */
  predicate Drifts(a: Database, b: Database) {
    && DatabaseOk(b)
    && (b.own == a.own
        || (b.own == Aborted && (a.own.Open? || a.own.InDoubt?))
        || (a.own.InDoubt? && b.own == Committed(a.own.staged)))
    && (a.recorded.Some? ==> b.recorded == a.recorded)
    && (a.others ==> b.others)
    && (b.recorded.Some? <==> a.recorded.Some? || b.others || CommittedHere(b.own))
  }

  /** What is lastingly false stays false: once the transaction can no longer commit, it never does. */
  lemma {:induction false} RuledOutForGood(ds: seq<Database>)
    requires ds != [] && !MayCommit(ds[0].own)
    requires forall i :: 0 < i < |ds| ==> Drifts(ds[i - 1], ds[i])
    ensures !MayCommit(ds[|ds| - 1].own)
  {
    if |ds| > 1 {
      RuledOutForGood(ds[..|ds| - 1]);
      assert Drifts(ds[|ds| - 2], ds[|ds| - 1]);
    }
  }

  /** A recorded credential is the one that stays. */
  lemma {:induction false} RecordedForGood(ds: seq<Database>)
    requires ds != [] && ds[0].recorded.Some?
    requires forall i :: 0 < i < |ds| ==> Drifts(ds[i - 1], ds[i])
    ensures ds[|ds| - 1].recorded == ds[0].recorded
  {
    if |ds| > 1 {
      RecordedForGood(ds[..|ds| - 1]);
      assert Drifts(ds[|ds| - 2], ds[|ds| - 1]);
    }
  }

  predicate Says(trace: seq<Event>, o: Outcome) { Reported(o) in trace }

  predicate Requested(trace: seq<Event>) { exists k :: 0 <= k < |trace| && trace[k].CommitRequested? }

  /** At every moment of the run: before a commit is requested, its password has been printed. */
  predicate PrintedFirst(trace: seq<Event>) {
    forall k :: 0 <= k < |trace| ==> BackedByPrint(trace, k)
  }

  predicate BackedByPrint(trace: seq<Event>, k: nat)
    requires k < |trace|
  {
    trace[k].CommitRequested? && trace[k].staged.Some? ==> Printed(trace[k].staged.value) in trace[..k]
  }

  lemma PrintedFirstExtends(trace: seq<Event>, e: Event)
    requires PrintedFirst(trace)
    requires e.CommitRequested? && e.staged.Some? ==> Printed(e.staged.value) in trace
    ensures PrintedFirst(trace + [e])
  {
    forall k | 0 <= k < |trace + [e]| ensures BackedByPrint(trace + [e], k) {
      if k < |trace| {
        assert BackedByPrint(trace, k);
        assert (trace + [e])[..k] == trace[..k];
      } else {
        assert (trace + [e])[..k] == trace;
      }
    }
  }

  /** Lines that leave the outcome open. */
  predicate Opening(e: Event) { e == Reported(ATTEMPT) || e.Printed? || e.CommitRequested? }

  /** Lines that say how a run ended, as opposed to those that lead up to its end. */
  predicate Closing(e: Event) { !Opening(e) }

  predicate Adds(before: seq<Event>, after: seq<Event>, lines: set<Event>) {
    before <= after && forall k :: |before| <= k < |after| ==> after[k] in lines
  }

  lemma AddedLines(before: seq<Event>, after: seq<Event>, lines: set<Event>)
    requires Adds(before, after, lines) && forall e :: e in lines ==> Closing(e)
    ensures forall e :: e in after ==> e in before || e in lines
    ensures forall e :: e in before ==> e in after
    ensures Requested(before) ==> Requested(after)
    ensures PrintedFirst(before) ==> PrintedFirst(after)
  {
    assert forall k :: 0 <= k < |before| ==> after[k] == before[k];
    if PrintedFirst(before) {
      forall k | 0 <= k < |after| ensures BackedByPrint(after, k) {
        if k < |before| {
          assert BackedByPrint(before, k);
          assert after[..k] == before[..k];
        } else {
          assert after[k] in lines;
        }
      }
    }
  }

  /** The transaction staged the password handed out, or replayed the one recorded. */
  predicate Recovers(d: Database, x: Execution) {
    match d.own
    case Open(None) => d.recorded == Some(x.password)
    case Open(Some(p)) => p == x.password
    case _ => d.own == Aborted
  }

  /** The database, everything emitted so far, how often a call has raised, and whether the recovery was refused. */
  datatype State = State(db: Database, trace: seq<Event>, faults: nat, refused: bool)

  // What each call may do to the state; a call that raises does so at will.

  predicate Calls(a: State, b: State, e: Option<Raised>) {
    && Drifts(a.db, b.db) && b.faults == a.faults + Bit(e.Some?)
    && b.trace == a.trace && b.refused == a.refused
  }

  /** Raising does not mean that the line was not delivered. */
  predicate Emits(a: State, b: State, line: Event, e: Option<Raised>) {
    && Calls(a.(trace := []), b.(trace := []), e)
    && (b.trace == a.trace + [line] || (e.Some? && b.trace == a.trace))
  }

  predicate Begins(a: State, b: State, e: Option<Raised>) {
    if e.Some? then Calls(a, b, e)
    else b.db.own == Open(None) && Calls(a, b.(db := b.db.(own := a.db.own)), e)
  }

  predicate RollsBack(a: State, b: State, e: Option<Raised>) {
    Calls(a, b, e) && (e.None? && a.db.own.Open? ==> b.db.own == Aborted)
  }

  /** A recorded command is replayed; otherwise it is claimed and a new password staged; or it is refused, or raises. */
  predicate Executes(a: State, b: State, r: Result<Execution, Raised>) {
    && b.trace == a.trace && DatabaseOk(b.db)
    && (Drifts(a.db, b.db) || (HoldsClaim(b.db.own) && b.db.own.Open? && Drifts(a.db, b.db.(own := Open(None)))))
    && (r.Ok? ==> b.faults == a.faults && b.refused == a.refused && Recovers(b.db, r.value))
    && (r.Err? ==> b.faults > a.faults || (b.faults == a.faults && b.refused && r.error == Denial))
  }

  /** The command's surroundings: the database, and everything it emits in order. Each method is one call of the
      source; a call that may raise does so at will. */
  class World {
    const initial: Option<Password>
    var db: Database
    var trace: seq<Event>
    var faults: nat
    var refused: bool
    ghost var issued: Option<Execution>
    ghost var doubt: Option<Database>

    /** `issued` is what executing the recovery returned, `doubt` the database as a raising commit left it. */
    constructor (recorded: Option<Password>)
      ensures initial == recorded && Sound()
      ensures db == Database(recorded, NotBegun, false) && trace == [] && faults == 0 && !refused
      ensures issued == None && doubt == None
    {
      initial := recorded;
      db, trace, faults, refused := Database(recorded, NotBegun, false), [], 0, false;
      issued, doubt := None, None;
    }

    function Now(): State
      reads this
    {
      State(db, trace, faults, refused)
    }

    ghost predicate Sound()
      reads this
    {
      DatabaseOk(db) && Accounted(db, initial)
    }

    method Drift()
      requires Sound()
      modifies this`db
      ensures Drifts(old(db), db)
    {
      assert Drifts(db, db);
      var d :| Drifts(db, d);
      db := d;
    }

    /** A call that can only fail, such as opening or closing a connection. */
    method Call() returns (e: Option<Raised>)
      requires Sound()
      modifies this`db, this`faults
      ensures Calls(old(Now()), Now(), e)
    {
      Drift();
      var raises: bool, denies: bool := *, *;
      e := if raises then Some(if denies then Denial else Fault) else None;
      if raises { faults := faults + 1; }
    }

    /** Writes and flushes one line; raising does not mean that the line was not delivered. */
    method Emit(line: Event) returns (e: Option<Raised>)
      requires Sound()
      modifies this`db, this`trace, this`faults
      ensures Emits(old(Now()), Now(), line, e)
    {
      e := Call();
      var delivered: bool := *;
      if e.None? || delivered { trace := trace + [line]; }
    }

    method Begin() returns (e: Option<Raised>)
      requires Sound() && db.own == NotBegun
      modifies this`db, this`faults
      ensures Sound() && Begins(old(Now()), Now(), e)
    {
      e := Call();
      if e.None? { db := db.(own := Open(None)); }
    }

    /** `recover_super_admin_cli`: replays a recorded command, and otherwise claims it and stages a new password. */
    method Recover() returns (r: Result<Execution, Raised>)
      requires Sound() && (db.own == Open(None) || db.own == Aborted) && !refused
      modifies this`db, this`faults, this`refused, this`issued
      ensures Sound() && Executes(old(Now()), Now(), r)
      ensures r.Ok? ==> issued == Some(r.value)
    {
      var e := Call();
      if e.Some? { return Err(e.value); }
      if db.own == Aborted {
        faults := faults + 1;
        return Err(Fault);
      }
      refused := *;
      if refused { return Err(Denial); }
      var password: Password, tickets: seq<Ticket> := *, *;
      if db.recorded.Some? {
        r := Ok(Execution(db.recorded.value, []));
        issued := Some(r.value);
      } else {
        db := db.(own := Open(Some(password)));
        var raises: bool := *;
        if raises { faults := faults + 1; }
        r := if raises then Err(Fault) else Ok(Execution(password, tickets));
        issued := Some(Execution(password, tickets));
      }
    }

    /** A commit that raises may have happened, may not have, or may still be under way. */
    method Commit() returns (e: Option<Raised>)
      requires Sound() && (db.own.Open? || db.own == Aborted)
      modifies this`db, this`trace, this`faults, this`doubt
      ensures faults == old(faults) + if e.Some? then 1 else 0
      ensures trace == old(trace) + [CommitRequested(if old(db).own.Open? then old(db).own.staged else None)]
      ensures Sound()
      ensures old(db).recorded.Some? ==> db.recorded == old(db).recorded
      ensures doubt == if e.Some? then Some(db) else None
      ensures e.None? ==> old(db).own.Open? && db.own == Committed(old(db).own.staged)
      ensures e.Some? ==>
        db.own == Aborted || (old(db).own.Open? && MayCommit(db.own) && db.own.staged == old(db).own.staged)
    {
      trace := trace + [CommitRequested(if db.own.Open? then db.own.staged else None)];
      var raises: bool := *;
      e := if raises || db.own == Aborted then Some(Fault) else None;
      if e.Some? { faults := faults + 1; }
      if db.own.Open? {
        var staged := db.own.staged;
        if e.None? {
          db := db.(recorded := if staged.Some? then staged else db.recorded, own := Committed(staged));
        } else {
          db := db.(own := InDoubt(staged));
          Drift();
        }
      }
      doubt := if e.Some? then Some(db) else None;
    }

    method Rollback() returns (e: Option<Raised>)
      requires Sound() && !MayCommit(db.own)
      modifies this`db, this`faults
      ensures Sound() && RollsBack(old(Now()), Now(), e)
    {
      e := Call();
      if e.None? && db.own.Open? { db := db.(own := Aborted); }
    }

    /** `_resolve_committed`: what is durably recorded for the command, or nothing; raising counts as nothing. */
    method ResolveCommitted() returns (r: Option<Password>)
      requires Sound()
      modifies this`db, this`faults
      ensures faults >= old(faults)
      ensures Drifts(old(db), db)
      ensures r.Some? ==> db.recorded == r
      ensures faults == old(faults) ==> r == db.recorded
    {
      var e := Call();
      r := if e.Some? then None else db.recorded;
    }

    /** `_transaction_status` answers "aborted" only of a transaction that is. */
    method ReportsAborted() returns (aborted: bool)
      requires Sound()
      modifies this`db, this`faults
      ensures faults >= old(faults)
      ensures Drifts(old(db), db)
      ensures aborted ==> db.own == Aborted
      ensures faults == old(faults) ==> (aborted <==> db.own == Aborted)
    {
      var e := Call();
      aborted := e.None? && db.own == Aborted;
    }
  }

  /** `_write_evidence_safely` */
  method ReportSafely(w: World, o: Outcome)
    requires w.Sound()
    modifies w`db, w`trace, w`faults
    ensures Drifts(old(w.db), w.db) && w.faults >= old(w.faults)
    ensures w.trace == old(w.trace) + [Reported(o)] || (w.trace == old(w.trace) && w.faults > old(w.faults))
  {
    var _ := w.Emit(Reported(o));
  }

  /** `_record_denial` */
  method RecordDenial(w: World) returns (code: int)
    requires w.Sound()
    modifies w`db, w`trace, w`faults
    ensures Drifts(old(w.db), w.db) && w.faults >= old(w.faults)
    ensures w.faults == old(w.faults) ==> code == 3 && w.trace == old(w.trace) + [DenialRecorded, Reported(DENIED)]
    ensures code == 3 || code == 4
    ensures code == 3 ==> DenialRecorded in w.trace
    ensures code == 4 && w.faults == old(w.faults) + 1 ==> Says(w.trace, FAILED)
    ensures Adds(old(w.trace), w.trace, {DenialRecorded, Reported(if code == 3 then DENIED else FAILED)})
  {
    var e := w.Emit(DenialRecorded);
    if e.Some? {
      ReportSafely(w, FAILED);
      return 4;
    }
    ReportSafely(w, DENIED);
    return 3;
  }

  predicate OnlyOpening(trace: seq<Event>) { forall e :: e in trace ==> Opening(e) }

  /** The transaction can only ever commit this password, or the password is recorded already. */
  predicate Stakes(d: Database, p: Password) {
    d.own == Open(Some(p)) || (d.own == Open(None) && d.recorded == Some(p)) || d.own == Aborted
  }

  /** The line of the attempt, then the password. */
  function Announcement(x: Execution): seq<Event> { [Reported(ATTEMPT), Printed(x.password)] }

  /** Inside the transaction: execute, report the attempt, print. */
  method Announce(w: World) returns (r: Result<Execution, Raised>)
    requires w.Sound() && w.db.own == Open(None) && w.trace == [] && !w.refused
    modifies w
    ensures w.Sound() && w.faults >= old(w.faults)
    ensures w.faults == old(w.faults) && r.Err? ==> w.refused && r.error == Denial && w.trace == []
    ensures w.faults == old(w.faults) && r.Ok? ==> !w.refused
    ensures !MayCommit(w.db.own) && (r.Err? ==> OnlyOpening(w.trace) && PrintedFirst(w.trace))
    ensures r.Err? ==> w.db.own.Open? || w.db.own == Aborted
    ensures r.Ok? ==> Stakes(w.db, r.value.password) && w.trace == Announcement(r.value)
    ensures r.Ok? ==> w.faults == old(w.faults) && w.issued == Some(r.value)
    ensures w.doubt == old(w.doubt)
  {
    var e := w.Call();
    if e.Some? { return Err(e.value); }
    r := w.Recover();
    if r.Err? { return; }
    assert Stakes(w.db, r.value.password);
    e := w.Emit(Reported(ATTEMPT));
    if e.Some? { return Err(e.value); }
    assert Stakes(w.db, r.value.password);
    e := w.Emit(Printed(r.value.password));
    if e.Some? { return Err(e.value); }
  }

  lemma AnnouncedFirst(x: Execution, staged: Option<Password>)
    requires staged.Some? ==> staged.value == x.password
    ensures var trace := Announcement(x) + [CommitRequested(staged)];
      PrintedFirst(trace) && OnlyOpening(trace) && Requested(trace) && Printed(x.password) in trace
  {
    var trace := Announcement(x) + [CommitRequested(staged)];
    PrintedFirstExtends(Announcement(x), CommitRequested(staged));
    assert trace[2] == CommitRequested(staged) && trace[1] == Printed(x.password);
  }

  predicate AnnouncedAndRequested(trace: seq<Event>, x: Execution) {
    |trace| == 3 && trace[..2] == Announcement(x) && trace[2].CommitRequested?
  }

  /** The transaction has ended, or may still end, in nothing but this password being recorded. */
  predicate StandsFor(d: Database, p: Password) {
    || d.own == Aborted
    || (MayCommit(d.own) && (d.own.staged == Some(p) || (d.own.staged == None && d.recorded == Some(p))))
  }

  /** The commit was requested after its announcement, and raised or not; the database has drifted since. */
  ghost predicate CommitTried(d: Database, trace: seq<Event>, issued: Option<Execution>, doubt: Option<Database>,
                              x: Execution, raised: bool)
  {
    && OnlyOpening(trace) && PrintedFirst(trace) && AnnouncedAndRequested(trace, x)
    && Requested(trace) && Printed(x.password) in trace
    && issued == Some(x) && StandsFor(d, x.password) && PrintedIfCommitted(d, trace)
    && if raised then doubt.Some? && Drifts(doubt.value, d) else doubt == None && d.recorded == Some(x.password)
  }

  lemma CommitStaysTried(a: Database, b: Database, trace: seq<Event>, issued: Option<Execution>,
                         doubt: Option<Database>, x: Execution, raised: bool)
    requires CommitTried(a, trace, issued, doubt, x, raised) && Drifts(a, b)
    ensures CommitTried(b, trace, issued, doubt, x, raised)
  {
    if raised { DriftsAgain(doubt.value, a, b); }
    StillStands(a, b, x.password);
  }

  lemma DriftsAgain(a: Database, b: Database, c: Database)
    requires Drifts(a, b) && Drifts(b, c)
    ensures Drifts(a, c)
  {}

  lemma StillStands(a: Database, b: Database, p: Password)
    requires StandsFor(a, p) && Drifts(a, b)
    ensures StandsFor(b, p)
  {}

  /** Announce, then commit. An exception leaves before the commit is requested. */
  method Attempt(w: World) returns (r: Result<(Execution, bool), Raised>)
    requires w.Sound() && w.db.own == Open(None) && w.trace == [] && !w.refused && w.doubt == None
    modifies w
    ensures w.Sound() && w.faults >= old(w.faults)
    ensures w.faults == old(w.faults) && r.Err? ==> w.refused && r.error == Denial && w.trace == []
    ensures w.faults == old(w.faults) && r.Ok? ==> !w.refused
    ensures r.Err? ==> !MayCommit(w.db.own) && OnlyOpening(w.trace) && PrintedFirst(w.trace) && w.doubt == None
    ensures r.Err? ==> w.db.own.Open? || w.db.own == Aborted
    ensures r.Ok? ==> w.faults == old(w.faults) + Bit(r.value.1)
    ensures r.Ok? ==> CommitTried(w.db, w.trace, w.issued, w.doubt, r.value.0, r.value.1)
  {
    var announced := Announce(w);
    if announced.Err? { return Err(announced.error); }
    var execution := announced.value;
    AnnouncedFirst(execution, if w.db.own.Open? then w.db.own.staged else None);
    var e := w.Commit();
    return Ok((execution, e.Some?));
  }

  /** Begin, attempt, and roll back what raised; a raising rollback hides the exception it follows. */
  method Transact(w: World) returns (r: Result<(Execution, bool), Raised>, attempted: bool)
    requires w.Sound() && w.db.own == NotBegun && w.trace == [] && !w.refused && w.doubt == None
    modifies w
    ensures w.Sound() && w.faults >= old(w.faults) && attempted == r.Ok?
    ensures w.faults == old(w.faults) && r.Err? ==> w.refused && r.error == Denial && w.trace == []
    ensures w.faults == old(w.faults) && r.Ok? ==> !w.refused
    ensures w.faults == old(w.faults) && r.Err? ==> w.db.own == Aborted
    ensures r.Err? ==> !MayCommit(w.db.own) && OnlyOpening(w.trace) && PrintedFirst(w.trace) && w.doubt == None
    ensures r.Ok? ==> w.faults == old(w.faults) + Bit(r.value.1)
    ensures r.Ok? ==> CommitTried(w.db, w.trace, w.issued, w.doubt, r.value.0, r.value.1)
  {
    attempted := false;
    var e := w.Begin();
    if e.Some? { return Err(e.value), attempted; }
    r := Attempt(w);
    attempted := r.Ok?;
    if r.Err? {
      e := w.Rollback();
      if e.Some? { r := Err(e.value); }
    }
  }

  /** From opening the connection to closing it; a raising close comes after everything. The second result says
      whether the commit had been requested. */
  method Connect(w: World) returns (r: Result<(Execution, bool), Raised>, attempted: bool)
    requires w.Sound() && w.db.own == NotBegun && w.trace == [] && !w.refused && w.doubt == None
    modifies w
    ensures w.Sound() && w.faults >= old(w.faults)
    ensures w.faults == old(w.faults) && r.Err? ==> w.refused && r.error == Denial && !attempted && w.trace == []
    ensures w.faults == old(w.faults) && r.Err? ==> w.db.own == Aborted
    ensures w.faults == old(w.faults) && r.Ok? ==> !w.refused
    ensures r.Ok? ==> attempted && w.faults == old(w.faults) + Bit(r.value.1)
    ensures r.Ok? ==> CommitTried(w.db, w.trace, w.issued, w.doubt, r.value.0, r.value.1)
    ensures OnlyOpening(w.trace) && PrintedFirst(w.trace) && PrintedIfCommitted(w.db, w.trace)
    ensures if attempted then Requested(w.trace) else !MayCommit(w.db.own)
    ensures w.doubt.Some? && r.Err? ==> w.faults > old(w.faults) + 1
  {
    attempted := false;
    var e := w.Call();
    if e.Some? { return Err(e.value), attempted; }
    r, attempted := Transact(w);
    ghost var before := w.db;
    e := w.Call();
    if attempted { CommitStaysTried(before, w.db, w.trace, w.issued, w.doubt, r.value.0, r.value.1); }
    if e.Some? { r := Err(e.value); }
  }

  predicate PrintedIfCommitted(d: Database, trace: seq<Event>) {
    MayCommit(d.own) && d.own.staged.Some? ==> Printed(d.own.staged.value) in trace
  }

  /** `_write_committed_evidence` */
  method ReportCommitted(w: World)
    requires w.Sound()
    modifies w`db, w`trace, w`faults
    ensures Drifts(old(w.db), w.db) && w.faults >= old(w.faults)
    ensures w.faults == old(w.faults) ==> w.trace == old(w.trace) + [Reported(SUCCESS)]
    ensures w.faults == old(w.faults) + 1 ==> Says(w.trace, OUTCOME_UNKNOWN)
    ensures Adds(old(w.trace), w.trace, {Reported(SUCCESS), Reported(OUTCOME_UNKNOWN)})
  {
    var e := w.Emit(Reported(SUCCESS));
    if e.Some? { ReportSafely(w, OUTCOME_UNKNOWN); }
  }

  function Completions(tickets: seq<Ticket>): seq<Event> {
    if tickets == [] then [] else Completions(tickets[..|tickets| - 1]) + [TicketCompleted(tickets[|tickets| - 1])]
  }

  lemma {:induction false} CompletionsAreTickets(tickets: seq<Ticket>)
    ensures forall e :: e in Completions(tickets) ==> e.TicketCompleted?
  {
    if tickets != [] { CompletionsAreTickets(tickets[..|tickets| - 1]); }
  }

  /** Tickets are completed in order until one raises. */
  method CompleteTickets(w: World, tickets: seq<Ticket>) returns (ghost n: nat)
    requires w.Sound()
    modifies w`db, w`trace, w`faults
    ensures n <= |tickets|
    ensures Drifts(old(w.db), w.db) && w.faults >= old(w.faults)
    ensures w.faults == old(w.faults) ==> n == |tickets|
    ensures w.trace == old(w.trace) + Completions(tickets[..n])
  {
    n := 0;
    for i := 0 to |tickets|
      invariant n == i
      invariant Drifts(old(w.db), w.db) && w.faults >= old(w.faults)
      invariant w.trace == old(w.trace) + Completions(tickets[..n])
    {
      assert tickets[..i + 1][..i] == tickets[..i];
      ghost var was := w.trace;
      var e := w.Emit(TicketCompleted(tickets[i]));
      if w.trace != was { n := i + 1; }
      if e.Some? { return n; }
    }
  }

  /** The printed password is the one recorded. */
  predicate Delivered(d: Database, trace: seq<Event>) {
    d.recorded.Some? && Printed(d.recorded.value) in trace
  }

  /** What an exit code and the lines before it tell an operator, whatever raised on the way. */
  ghost predicate Truthful(code: int, d: Database, trace: seq<Event>) {
    && (code == 0 || code == 3 || code == 4)
    && (code == 0 ==> Requested(trace))
    && (code != 0 ==> !MayCommit(d.own))
    && (Says(trace, SUCCESS) ==> code == 0 && Delivered(d, trace))
    && (Says(trace, OUTCOME_UNKNOWN) ==> code == 0)
    && (Says(trace, FAILED) ==> code == 4)
    && (Says(trace, DENIED) ==> code == 3)
    && (code == 3 ==> DenialRecorded in trace)
    && (forall t :: TicketCompleted(t) in trace ==> Delivered(d, trace))
    && PrintedFirst(trace)
    && PrintedIfCommitted(d, trace)
  }

  /** An exception that reached the outer handlers. */
  method Handle(w: World, raised: Raised, attempted: bool) returns (code: int)
    requires w.Sound() && OnlyOpening(w.trace) && PrintedFirst(w.trace) && PrintedIfCommitted(w.db, w.trace)
    requires if attempted then Requested(w.trace) else !MayCommit(w.db.own)
    modifies w`db, w`trace, w`faults
    ensures w.faults >= old(w.faults)
    ensures w.Sound() && Truthful(code, w.db, w.trace)
    ensures Drifts(old(w.db), w.db)
    ensures if attempted then code == 0 else if raised == Denial then code == 3 || code == 4 else code == 4
    ensures w.faults == old(w.faults) ==>
      w.trace == old(w.trace) + if attempted then [Reported(OUTCOME_UNKNOWN)]
                                else if raised == Denial then [DenialRecorded, Reported(DENIED)] else [Reported(FAILED)]
    ensures w.faults == old(w.faults) && raised == Denial && !attempted ==> code == 3
  {
    if attempted {
      ReportSafely(w, OUTCOME_UNKNOWN);
      AddedLines(old(w.trace), w.trace, {Reported(OUTCOME_UNKNOWN)});
      return 0;
    }
    if raised == Denial {
      code := RecordDenial(w);
      AddedLines(old(w.trace), w.trace, {DenialRecorded, Reported(if code == 3 then DENIED else FAILED)});
      return;
    }
    ReportSafely(w, FAILED);
    AddedLines(old(w.trace), w.trace, {Reported(FAILED)});
    return 4;
  }

  /** A run whose commit was requested, with its password printed. */
  ghost predicate Underway(w: World, password: Password)
    reads w
  {
    && w.Sound() && OnlyOpening(w.trace) && PrintedFirst(w.trace) && PrintedIfCommitted(w.db, w.trace)
    && Requested(w.trace) && Printed(password) in w.trace
  }

  lemma SuccessOnly(opening: seq<Event>, completions: seq<Event>)
    requires OnlyOpening(opening) && forall e :: e in completions ==> e.TicketCompleted?
    ensures var trace := opening + [Reported(SUCCESS)] + completions;
      Says(trace, SUCCESS) && !Says(trace, OUTCOME_UNKNOWN)
  {}

  /** The credential is known to be recorded: report success and complete the tickets. */
  method Deliver(w: World, execution: Execution, completesTickets: bool) returns (code: int)
    requires Underway(w, execution.password) && w.db.recorded == Some(execution.password)
    modifies w`db, w`trace, w`faults
    ensures code == 0 && w.faults >= old(w.faults) && Drifts(old(w.db), w.db)
    ensures w.Sound() && Truthful(code, w.db, w.trace)
    ensures w.faults == old(w.faults) ==>
      && w.trace == old(w.trace) + [Reported(SUCCESS)] +
          (if completesTickets then Completions(execution.tickets) else [])
      && Says(w.trace, SUCCESS) && !Says(w.trace, OUTCOME_UNKNOWN)
  {
    ReportCommitted(w);
    ghost var reported := w.trace;
    AddedLines(old(w.trace), reported, {Reported(SUCCESS), Reported(OUTCOME_UNKNOWN)});
    if completesTickets {
      var n := CompleteTickets(w, execution.tickets);
      CompletionsAreTickets(execution.tickets[..n]);
      AddedLines(reported, w.trace, (set e | e in Completions(execution.tickets[..n])));
      assert execution.tickets[..|execution.tickets|] == execution.tickets;
    }
    CompletionsAreTickets(execution.tickets);
    SuccessOnly(old(w.trace), if completesTickets then Completions(execution.tickets) else []);
    return 0;
  }

  /** What follows from the database as the raising commit left it, when no further call raises: a recorded password
      counts as delivered, an aborted transaction with nothing recorded as failed, and the outcome is unknown only
      while the transaction is in doubt or another password is recorded. */
  predicate Settled(before: Database, after: Database, trace: seq<Event>, p: Password, code: Option<int>) {
    && (before.recorded == Some(p) ==> code == None)
    && (before.own == Aborted && after.recorded == None ==> code == Some(4) && Says(trace, FAILED))
    && (code == Some(0) ==>
          Says(trace, OUTCOME_UNKNOWN) && (before.own.InDoubt? ||
           (after.recorded != None && after.recorded != Some(p))))
    && (code == Some(4) ==> after.own == Aborted && Says(trace, FAILED))
    && (code == None || code == Some(0) || code == Some(4))
  }

  /** The commit raised. Only a recorded credential equal to the printed one counts as delivered,
      and only a transaction known to have aborted counts as failed. */
  method Settle(w: World, execution: Execution) returns (code: Option<int>)
    requires Underway(w, execution.password) && StandsFor(w.db, execution.password)
    modifies w`db, w`trace, w`faults
    ensures w.faults >= old(w.faults)
    ensures w.Sound() && (code.Some? ==> Truthful(code.value, w.db, w.trace))
    ensures code.None? ==> Underway(w, execution.password) && w.db.recorded == Some(execution.password)
    ensures code.None? ==> w.trace == old(w.trace)
    ensures Drifts(old(w.db), w.db)
    ensures w.faults == old(w.faults) ==> Settled(old(w.db), w.db, w.trace, execution.password, code)
  {
    var resolved := w.ResolveCommitted();
    if resolved.None? {
      var aborted := w.ReportsAborted();
      if aborted {
        ReportSafely(w, FAILED);
        AddedLines(old(w.trace), w.trace, {Reported(FAILED)});
        return Some(4);
      }
      ReportSafely(w, OUTCOME_UNKNOWN);
      AddedLines(old(w.trace), w.trace, {Reported(OUTCOME_UNKNOWN)});
      return Some(0);
    }
    if resolved.value != execution.password {
      ReportSafely(w, OUTCOME_UNKNOWN);
      AddedLines(old(w.trace), w.trace, {Reported(OUTCOME_UNKNOWN)});
      return Some(0);
    }
    return None;
  }

  /** `main`. Exit codes and evidence are truthful under every schedule of faults. After a non-zero exit a credential
      is recorded exactly if one was when the command started or another session recorded one since. With no fault, a
      refusal is recorded and exits 3, and anything else succeeds. */
  method RecoverSuperAdmin(w: World, expiryParses: bool, completesTickets: bool) returns (code: int)
    requires w.Sound() && w.db.own == NotBegun && w.trace == [] && w.faults == 0 && !w.refused && w.doubt == None
    modifies w
    ensures Truthful(code, w.db, w.trace)
    ensures w.Sound() && (code != 0 ==> (w.db.recorded.Some? <==> w.initial.Some? || w.db.others))
    ensures w.faults == 0 ==> (code == 3 <==> !expiryParses || w.refused) && (code == 0 || code == 3)
    ensures w.faults == 0 && code == 3 ==> w.trace == [DenialRecorded, Reported(DENIED)]
    ensures w.faults == 0 && w.refused ==> w.db.own == Aborted
    ensures w.faults == 0 && code == 0 ==> w.issued.Some? && Undisturbed(w.trace, w.issued.value, completesTickets)
    ensures w.faults == 1 && w.doubt.Some? ==>
      w.issued.Some? && CommitAlone(w.doubt.value, w.db, w.trace, w.issued.value.password, code)
  {
    if !expiryParses {
      code := RecordDenial(w);
      AddedLines([], w.trace, {DenialRecorded, Reported(if code == 3 then DENIED else FAILED)});
      return;
    }
    var run, attempted := Connect(w);
    if run.Err? {
      code := Handle(w, run.error, attempted);
      return;
    }
    code := Conclude(w, run.value.0, run.value.1, completesTickets);
  }

  /** From the end of the connection to the exit. */
  method Conclude(w: World, execution: Execution, raised: bool, completesTickets: bool) returns (code: int)
    requires w.Sound() && CommitTried(w.db, w.trace, w.issued, w.doubt, execution, raised)
    modifies w`db, w`trace, w`faults
    ensures w.Sound() && w.faults >= old(w.faults)
    ensures Truthful(code, w.db, w.trace)
    ensures !raised && w.faults == old(w.faults) ==> code == 0 && Undisturbed(w.trace, execution, completesTickets)
    ensures raised && w.faults == old(w.faults) ==>
      CommitAlone(w.doubt.value, w.db, w.trace, execution.password, code)
  {
    if !raised {
      code := Deliver(w, execution, completesTickets);
      return;
    }
    var settled := Settle(w, execution);
    if w.faults == old(w.faults) {
      SettledSinceDoubt(w.doubt.value, old(w.db), w.db, w.trace, execution.password, settled);
    }
    if settled.Some? { return settled.value; }
    code := Deliver(w, execution, completesTickets);
  }

  /** A run in which nothing raised and nothing was refused, from the first line to the last. */
  predicate Undisturbed(trace: seq<Event>, x: Execution, completesTickets: bool) {
    && |trace| >= 3 && AnnouncedAndRequested(trace[..3], x)
    && trace[3..] == [Reported(SUCCESS)] + if completesTickets then Completions(x.tickets) else []
  }

  /** A run in which only the commit raised: what its exit says, given the database as the commit left it. */
  predicate CommitAlone(doubt: Database, end: Database, trace: seq<Event>, p: Password, code: int) {
    && (code == 0 || code == 4)
    && (doubt.recorded == Some(p) ==> code == 0 && Says(trace, SUCCESS))
    && (doubt.own == Aborted && end.recorded == None ==> code == 4 && Says(trace, FAILED))
    && (code == 4 ==> end.own == Aborted && Says(trace, FAILED))
    && (code == 0 ==> Says(trace, SUCCESS) || Says(trace, OUTCOME_UNKNOWN))
    && (Says(trace, OUTCOME_UNKNOWN) ==> doubt.own.InDoubt? || (end.recorded != None && end.recorded != Some(p)))
  }

  lemma SettledSinceDoubt(doubt: Database, before: Database, after: Database, trace: seq<Event>, p: Password,
                          code: Option<int>)
    requires Drifts(doubt, before) && Drifts(before, after) && Settled(before, after, trace, p, code)
    ensures doubt.recorded == Some(p) ==> code == None
    ensures doubt.own == Aborted && after.recorded == None ==> code == Some(4) && Says(trace, FAILED)
    ensures code == Some(0) ==> doubt.own.InDoubt? || (after.recorded != None && after.recorded != Some(p))
  {}

  /** What an exit says stays true: nothing that other sessions do later, and no late outcome of a commit, can make a
      reported failure a success, or take back a delivered credential. */
  lemma ExitsStayTruthful(code: int, ds: seq<Database>, trace: seq<Event>)
    requires ds != [] && Truthful(code, ds[0], trace)
    requires forall i :: 0 < i < |ds| ==> Drifts(ds[i - 1], ds[i])
    ensures Truthful(code, ds[|ds| - 1], trace)
  {
    var last := ds[|ds| - 1];
    if code != 0 { RuledOutForGood(ds); }
    if ds[0].recorded.Some? { RecordedForGood(ds); }
    StakesStay(ds);
  }

  /** A transaction that can still commit can only commit what it had staged. */
  lemma {:induction false} StakesStay(ds: seq<Database>)
    requires ds != [] && forall i :: 0 < i < |ds| ==> Drifts(ds[i - 1], ds[i])
    ensures MayCommit(ds[|ds| - 1].own) ==> MayCommit(ds[0].own) && ds[|ds| - 1].own.staged == ds[0].own.staged
  {
    if |ds| > 1 {
      StakesStay(ds[..|ds| - 1]);
      assert Drifts(ds[|ds| - 2], ds[|ds| - 1]);
    }
  }

  /** The calls of a run in which reporting the attempt raises, in order: connect, begin, read the transaction
      identifier, execute, report the attempt, roll back, close, report the failure. */
  ghost predicate FailsToReport(run: seq<State>, x: Execution) {
    && |run| == 9
    && Calls(run[0], run[1], None) && Begins(run[1], run[2], None) && Calls(run[2], run[3], None)
    && Executes(run[3], run[4], Ok(x))
    && Emits(run[4], run[5], Reported(ATTEMPT), Some(Fault)) && RollsBack(run[5], run[6], None)
    && Calls(run[6], run[7], None)
    && Emits(run[7], run[8], Reported(FAILED), None)
  }

  /** A non-zero exit alone does not mean that nothing is recorded. Run again after it had succeeded, the command
      replays the recorded password; when reporting the attempt raises it rolls back and exits 4, truthfully, and
      whenever that happens the password of the first run is still recorded. */
  lemma ReplayThatFails(p: Password) returns (run: seq<State>)
    ensures FailsToReport(run, Execution(p, [])) && run[0] == State(Database(Some(p), NotBegun, false), [], 0, false)
    ensures run[8].db == Database(Some(p), Aborted, false) && Truthful(4, run[8].db, run[8].trace)
  {
    var begun := State(Database(Some(p), NotBegun, false), [], 0, false);
    var inTransaction := begun.(db := begun.db.(own := Open(None)));
    var raised := inTransaction.(faults := 1);
    var rolledBack := raised.(db := begun.db.(own := Aborted));
    run := [begun, begun, inTransaction, inTransaction, inTransaction, raised, rolledBack, rolledBack,
            rolledBack.(trace := [Reported(FAILED)])];
    assert PrintedFirst(run[8].trace);
  }

  /** Every run of this kind keeps what was recorded, and stages nothing that could still commit. */
  lemma FailedReportsKeepRecords(run: seq<State>, x: Execution)
    requires FailsToReport(run, x) && DatabaseOk(run[0].db) && run[0].db.own == NotBegun
    ensures run[0].db.recorded.Some? ==> run[8].db.recorded == run[0].db.recorded
    ensures !MayCommit(run[8].db.own)
  {}
}
