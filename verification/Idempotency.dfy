/** Claim, execute, seal and complete one command per key; replay it afterwards. */
module Idempotency {
  import opened Sql

  datatype Scope = Scope(actor: string, operation: string, key: string)

  datatype Response = Response(status: nat, body: string)

  datatype Envelope = Envelope(scope: Scope, fingerprint: string, response: Response)

  datatype Metadata = HttpResponse | OtherMetadata

  datatype Record = Record(
    id: Uuid,
    scope: Scope,
    fingerprint: string,
    completed: bool,
    status: Option<nat>,
    metadata: Option<Metadata>,
    blob: Option<string>)

  /** Authenticated encryption, kept abstract: unsealing inverts sealing and may refuse anything else. */
  datatype Sealing = Sealing(seal: Envelope -> string, unseal: string -> Option<Envelope>)

  ghost predicate Authentic(s: Sealing) {
    forall e :: s.unseal(s.seal(e)) == Some(e)
  }

  datatype Error = KeyConflict | StillInProgress | ReplayUnavailable | CommandRaised

  datatype Execution = Execution(response: Response, replayed: bool)

  /** What a command does to the protected state, or that it raises. */
  datatype Effect<+S> = Raises | Commits(state: S, response: Response)

  /** The idempotency table and the state the commands protect, in one database. */
  datatype Store<+S> = Store(records: map<Scope, Record>, state: S)

  function Replay(row: Record, s: Sealing): Result<Response, Error> {
    if !row.completed || row.metadata != Some(HttpResponse) || row.blob.None? then Err(StillInProgress)
    else match s.unseal(row.blob.value)
      case None => Err(ReplayUnavailable)
      case Some(e) =>
        if e.scope != row.scope || e.fingerprint != row.fingerprint || Some(e.response.status) != row.status then
          Err(ReplayUnavailable)
        else Ok(e.response)
  }

  function Sealed(id: Uuid, scope: Scope, fingerprint: string, r: Response, s: Sealing): Record {
    Record(id, scope, fingerprint, true, Some(r.status), Some(HttpResponse),
           Some(s.seal(Envelope(scope, fingerprint, r))))
  }

  /** The whole transaction in one step: a known key replays or conflicts, a new one executes. */
  function Execute<S>(st: Store<S>, scope: Scope, fingerprint: string, id: Uuid, command: S -> Effect<S>, s: Sealing)
    : (Store<S>, Result<Execution, Error>)
  {
    if scope in st.records then
      if st.records[scope].fingerprint != fingerprint then (st, Err(KeyConflict))
      else match Replay(st.records[scope], s)
        case Err(error) => (st, Err(error))
        case Ok(response) => (st, Ok(Execution(response, true)))
    else match command(st.state)
      case Raises => (st, Err(CommandRaised))
      case Commits(state, response) =>
        (Store(st.records[scope := Sealed(id, scope, fingerprint, response, s)], state), Ok(Execution(response, false)))
  }

  // ---------------------------------------------------------------- as the code performs it

  /** The repository inside the caller's transaction. */
  class IdempotencyRepository<S> {
    var records: map<Scope, Record>
    var state: S

    constructor (st: Store<S>)
      ensures records == st.records && state == st.state
    {
      records, state := st.records, st.state;
    }

    /** INSERT ... ON CONFLICT DO NOTHING. */
    method ClaimIdempotency(id: Uuid, scope: Scope, fingerprint: string) returns (created: bool)
      modifies this
      ensures created == (scope !in old(records)) && state == old(state)
      ensures records == if created then old(records)[scope := Record(id, scope, fingerprint, false, None, None, None)]
                         else old(records)
    {
      created := scope !in records;
      if created {
        records := records[scope := Record(id, scope, fingerprint, false, None, None, None)];
      }
    }

    /** UPDATE ... WHERE id AND state='IN_PROGRESS'. */
    method CompleteIdempotency(id: Uuid, scope: Scope, status: nat, blob: string) returns (done: bool)
      modifies this
      ensures done == (scope in old(records) && old(records)[scope].id == id && !old(records)[scope].completed)
      ensures state == old(state)
      ensures records == if done then old(records)[scope := old(records)[scope].(completed := true,
                           status := Some(status), metadata := Some(HttpResponse), blob := Some(blob))]
                         else old(records)
    {
      done := scope in records && records[scope].id == id && !records[scope].completed;
      if done {
        records := records[scope := records[scope].(completed := true, status := Some(status),
                                                    metadata := Some(HttpResponse), blob := Some(blob))];
      }
    }
  }

  /** The engine, step by step; the caller commits the returned store only when nothing was raised. */
  method ExecuteIdempotent<S>(st: Store<S>, scope: Scope, fingerprint: string, id: Uuid,
                              command: S -> Effect<S>, s: Sealing)
    returns (after: Store<S>, r: Result<Execution, Error>)
    ensures (after, r) == Execute(st, scope, fingerprint, id, command, s)
  {
    var repository := new IdempotencyRepository<S>(st);
    var claimed := repository.ClaimIdempotency(id, scope, fingerprint);
    var row := repository.records[scope];
    if row.fingerprint != fingerprint {
      return st, Err(KeyConflict);
    }
    if !claimed {
      var replayed := Replay(row, s);
      return st, if replayed.Ok? then Ok(Execution(replayed.value, true)) else Err(replayed.error);
    }
    var effect := command(repository.state);
    if effect.Raises? {
      return st, Err(CommandRaised);
    }
    repository.state := effect.state;
    var blob := s.seal(Envelope(scope, fingerprint, effect.response));
    var done := repository.CompleteIdempotency(row.id, scope, effect.response.status, blob);
    if !done {
      return st, Err(ReplayUnavailable);
    }
    assert repository.records == st.records[scope := Sealed(id, scope, fingerprint, effect.response, s)];
    return Store(repository.records, repository.state), Ok(Execution(effect.response, false));
  }

  /** A record replays exactly the response sealed for its own scope, fingerprint and status; one that is not complete
      is in progress, and anything else is unavailable. */
  lemma ReplaysExactly(row: Record, s: Sealing, response: Response)
    ensures Replay(row, s) == Ok(response) <==>
      && row.completed && row.metadata == Some(HttpResponse) && row.blob != None
      && s.unseal(row.blob.value) == Some(Envelope(row.scope, row.fingerprint, response))
      && row.status == Some(response.status)
    ensures Replay(row, s) == Err(StillInProgress) <==>
      !row.completed || row.metadata != Some(HttpResponse) || row.blob == None
    ensures Replay(row, s).Err? ==> Replay(row, s).error == StillInProgress || Replay(row, s).error == ReplayUnavailable
  {}

  /** A completed record is the sealed response with its status. */
  lemma SealedByColumns(id: Uuid, scope: Scope, fingerprint: string, r: Response, s: Sealing)
    ensures var row := Sealed(id, scope, fingerprint, r, s);
      && (row.id, row.scope, row.fingerprint, row.completed) == (id, scope, fingerprint, true)
      && row.status == Some(r.status) && row.metadata == Some(HttpResponse)
      && row.blob == Some(s.seal(Envelope(scope, fingerprint, r)))
  {}

  // ---------------------------------------------------------------- histories

  /** Every stored record is complete and authentic. */
  ghost predicate Sound<S>(st: Store<S>, s: Sealing) {
    forall scope :: scope in st.records ==> IsSealed(st.records[scope], scope, s)
  }

  ghost predicate IsSealed(row: Record, scope: Scope, s: Sealing) {
    exists r :: row == Sealed(row.id, scope, row.fingerprint, r, s)
  }

  /** One call; `aborted` when its transaction is rolled back or its commit fails. */
  datatype Call<!S> = Call(scope: Scope, fingerprint: string, id: Uuid, command: S -> Effect<S>, aborted: bool)

  function Outcome<S>(st: Store<S>, c: Call<S>, s: Sealing): Result<Execution, Error> {
    Execute(st, c.scope, c.fingerprint, c.id, c.command, s).1
  }

  function After<S>(st: Store<S>, c: Call<S>, s: Sealing): Store<S> {
    if c.aborted then st else Execute(st, c.scope, c.fingerprint, c.id, c.command, s).0
  }

  ghost predicate History<S>(sts: seq<Store<S>>, cs: seq<Call<S>>, s: Sealing) {
    && |sts| == |cs| + 1 && Sound(sts[0], s) && Authentic(s)
    && forall i :: 0 <= i < |cs| ==> sts[i + 1] == After(sts[i], cs[i], s)
  }

  /** The call took effect: its command ran and its transaction committed. */
  ghost predicate TookEffect<S>(st: Store<S>, c: Call<S>, s: Sealing) {
    !c.aborted && Outcome(st, c, s).Ok? && !Outcome(st, c, s).value.replayed
  }

  lemma SealedReplays(id: Uuid, scope: Scope, fingerprint: string, r: Response, s: Sealing)
    requires Authentic(s)
    ensures Replay(Sealed(id, scope, fingerprint, r, s), s) == Ok(r)
  {}

  lemma StepKeepsSound<S>(st: Store<S>, c: Call<S>, s: Sealing)
    requires Sound(st, s)
    ensures Sound(After(st, c, s), s)
    ensures !TookEffect(st, c, s) ==> After(st, c, s) == st
    ensures TookEffect(st, c, s) ==>
              && c.scope !in st.records
              && c.command(st.state) == Commits(After(st, c, s).state, Outcome(st, c, s).value.response)
              && After(st, c, s).records == st.records[c.scope :=
                   Sealed(c.id, c.scope, c.fingerprint, Outcome(st, c, s).value.response, s)]
  {
    var v := After(st, c, s);
    forall scope | scope in v.records ensures IsSealed(v.records[scope], scope, s) {
      if scope in st.records && v.records[scope] == st.records[scope] {
        assert IsSealed(st.records[scope], scope, s);
      }
    }
  }

  lemma {:induction false} HistoryIsSound<S>(sts: seq<Store<S>>, cs: seq<Call<S>>, s: Sealing, i: nat)
    requires History(sts, cs, s) && i < |sts|
    ensures Sound(sts[i], s)
  {
    if i > 0 {
      HistoryIsSound(sts, cs, s, i - 1);
      StepKeepsSound(sts[i - 1], cs[i - 1], s);
    }
  }

  lemma {:induction false} RecordsStay<S>(sts: seq<Store<S>>, cs: seq<Call<S>>, s: Sealing, i: nat, j: nat,
                                          scope: Scope)
    requires History(sts, cs, s) && i <= j < |sts| && scope in sts[i].records
    ensures scope in sts[j].records && sts[j].records[scope] == sts[i].records[scope]
  {
    if i < j {
      RecordsStay(sts, cs, s, i, j - 1, scope);
      HistoryIsSound(sts, cs, s, j - 1);
      StepKeepsSound(sts[j - 1], cs[j - 1], s);
    }
  }

  /** After a call has taken effect, every later call with its key changes nothing: the same request gets the first
      response, another request is refused. */
  lemma LaterCallsReplayTheFirst<S>(sts: seq<Store<S>>, cs: seq<Call<S>>, s: Sealing, i: nat, j: nat)
    requires History(sts, cs, s) && i < j < |cs| && TookEffect(sts[i], cs[i], s) && cs[j].scope == cs[i].scope
    ensures sts[j + 1] == sts[j]
    ensures cs[j].fingerprint == cs[i].fingerprint ==>
              Outcome(sts[j], cs[j], s) == Ok(Execution(Outcome(sts[i], cs[i], s).value.response, true))
    ensures cs[j].fingerprint != cs[i].fingerprint ==> Outcome(sts[j], cs[j], s) == Err(KeyConflict)
  {
    HistoryIsSound(sts, cs, s, i);
    StepKeepsSound(sts[i], cs[i], s);
    RecordsStay(sts, cs, s, i + 1, j, cs[i].scope);
    SealedReplays(cs[i].id, cs[i].scope, cs[i].fingerprint, Outcome(sts[i], cs[i], s).value.response, s);
  }

  /** A command's effects commit at most once per actor, operation and key. */
  lemma EffectsCommitOnce<S>(sts: seq<Store<S>>, cs: seq<Call<S>>, s: Sealing, i: nat, j: nat)
    requires History(sts, cs, s) && i < j < |cs| && cs[i].scope == cs[j].scope
    requires TookEffect(sts[i], cs[i], s)
    ensures !TookEffect(sts[j], cs[j], s)
  {
    LaterCallsReplayTheFirst(sts, cs, s, i, j);
  }

  /** Until a call with the key takes effect the key is free: aborted and raising calls leave no trace. */
  lemma {:induction false} UntouchedKeysAreFree<S>(sts: seq<Store<S>>, cs: seq<Call<S>>, s: Sealing, scope: Scope,
      i: nat)
    requires History(sts, cs, s) && i < |sts| && scope !in sts[0].records
    requires forall k :: 0 <= k < i && cs[k].scope == scope ==> !TookEffect(sts[k], cs[k], s)
    ensures scope !in sts[i].records
    ensures i < |cs| && cs[i].scope == scope ==>
              match cs[i].command(sts[i].state)
              case Raises => Outcome(sts[i], cs[i], s) == Err(CommandRaised)
              case Commits(_, response) => Outcome(sts[i], cs[i], s) == Ok(Execution(response, false))
  {
    if i > 0 {
      UntouchedKeysAreFree(sts, cs, s, scope, i - 1);
      HistoryIsSound(sts, cs, s, i - 1);
      StepKeepsSound(sts[i - 1], cs[i - 1], s);
    }
  }

  /** In a history the engine never answers "in progress" and never fails to replay. */
  lemma ReplayIsAlwaysAvailable<S>(sts: seq<Store<S>>, cs: seq<Call<S>>, s: Sealing, i: nat)
    requires History(sts, cs, s) && i < |cs|
    ensures Outcome(sts[i], cs[i], s) != Err(StillInProgress) && Outcome(sts[i], cs[i], s) != Err(ReplayUnavailable)
  {
    HistoryIsSound(sts, cs, s, i);
    var scope := cs[i].scope;
    if scope in sts[i].records {
      var row := sts[i].records[scope];
      assert IsSealed(row, scope, s);
      var r :| row == Sealed(row.id, scope, row.fingerprint, r, s);
      SealedReplays(row.id, scope, row.fingerprint, r, s);
    }
  }
}
