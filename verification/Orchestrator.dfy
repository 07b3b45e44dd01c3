/** The development orchestrator: deterministic facts, remembered by command key. */
module Orchestrator {
  import opened Sql

  datatype Verdict = Accepted | Rejected

  /** `outcomes` answers replays; `admitted` lists the keys in admission order. */
  datatype Facts = Facts(outcomes: map<string, Verdict>, admitted: seq<string>)

  /** Where a dispatch call may fail; `reject` and `lostAck` are the adapter's switches. */
  datatype CallFault =
    | Refused
    | LostBefore
    | LostAfter(reject: bool)
    | Delivered(reject: bool, lostAck: bool)

  datatype CallAnswer =
    | RaisedPreCall
    | Raised
    | CallAccepted(receipt: string)
    | CallRejected
    | CallUnacknowledged

  datatype LookupView = LookupFails | LookupView(unknown: bool, neverObserved: bool)

  datatype LookupAnswer = Confirmed(receipt: string) | LookupRejected | NeverObserved | StillUnknown

  /** The critical section of a dispatch: the first call decides, later calls only read. */
  function Admit(f: Facts, key: string, reject: bool): Facts {
    if key in f.outcomes then f
    else Facts(f.outcomes[key := if reject then Rejected else Accepted], f.admitted + [key])
  }

  function DispatchAnswer(f: Facts, key: string, lostAck: bool): CallAnswer
    requires key in f.outcomes
  {
    if f.outcomes[key] == Rejected then CallRejected
    else if lostAck then CallUnacknowledged
    else CallAccepted(key)
  }

  /** A dispatch call as the worker sees it, transport failures included. */
  function DispatchCall(f: Facts, key: string, fault: CallFault): (Facts, CallAnswer) {
    match fault
    case Refused => (f, RaisedPreCall)
    case LostBefore => (f, Raised)
    case LostAfter(reject) => (Admit(f, key, reject), Raised)
    case Delivered(reject, lostAck) =>
      var g := Admit(f, key, reject);
      (g, DispatchAnswer(g, key, lostAck))
  }

  function LookupAnswerOf(f: Facts, key: string, unknown: bool, neverObserved: bool): LookupAnswer {
    if neverObserved && key !in f.outcomes then NeverObserved
    else if unknown || key !in f.outcomes then StillUnknown
    else if f.outcomes[key] == Rejected then LookupRejected
    else Confirmed(key)
  }

  function LookupCall(f: Facts, key: string, view: LookupView): LookupAnswer {
    match view
    case LookupFails => StillUnknown
    case LookupView(unknown, neverObserved) => LookupAnswerOf(f, key, unknown, neverObserved)
  }

  ghost predicate NoDuplicates(s: seq<string>) {
    forall i, j :: 0 <= i < j < |s| ==> s[i] != s[j]
  }

  /** Admission is recorded exactly once for every key that has an outcome. */
  ghost predicate FactsOk(f: Facts) {
    NoDuplicates(f.admitted) && forall k :: k in f.admitted <==> k in f.outcomes
  }

  /** Later facts never contradict earlier ones. */
  ghost predicate Extends(f: Facts, g: Facts) {
    && f.admitted <= g.admitted
    && forall k :: k in f.outcomes ==> k in g.outcomes && g.outcomes[k] == f.outcomes[k]
  }

  lemma AdmitOnce(f: Facts, key: string, reject: bool)
    requires FactsOk(f)
    ensures FactsOk(Admit(f, key, reject)) && Extends(f, Admit(f, key, reject))
    ensures key in Admit(f, key, reject).outcomes
  {
    var g := Admit(f, key, reject);
    if key !in f.outcomes {
      assert key in g.admitted by { assert g.admitted[|f.admitted|] == key; }
      forall k ensures k in g.admitted <==> k in g.outcomes {
        assert k in g.admitted <==> k in f.admitted || k == key;
      }
    }
  }

  class DevTemporalAdapter {
    var commandKeys: seq<string>
    var lookupKeys: seq<string>
    var rejectKeys: set<string>
    var failAfterAccept: bool
    var failBeforeCall: bool
    var lookupUnknown: bool
    var lookupNeverObserved: bool
    var outcomes: map<string, Verdict>

    ghost function AsFacts(): Facts
      reads this
    {
      Facts(outcomes, commandKeys)
    }

    constructor ()
      ensures AsFacts() == Facts(map[], []) && FactsOk(AsFacts())
      ensures lookupKeys == [] && rejectKeys == {}
      ensures !failAfterAccept && !failBeforeCall && !lookupUnknown && !lookupNeverObserved
    {
      commandKeys, lookupKeys, rejectKeys := [], [], {};
      failAfterAccept, failBeforeCall, lookupUnknown, lookupNeverObserved := false, false, false, false;
      outcomes := map[];
    }

    method Dispatch(key: string) returns (answer: CallAnswer)
      modifies this`commandKeys, this`outcomes
      ensures (AsFacts(), answer) ==
              DispatchCall(old(AsFacts()), key,
                if failBeforeCall then Refused else Delivered(key in rejectKeys, failAfterAccept))
      ensures failBeforeCall || key in old(outcomes) ==> outcomes == old(outcomes) && commandKeys == old(commandKeys)
      ensures !failBeforeCall && key !in old(outcomes) ==>
        && outcomes == old(outcomes)[key := if key in rejectKeys then Rejected else Accepted]
        && commandKeys == old(commandKeys) + [key]
      ensures answer == RaisedPreCall <==> failBeforeCall
      ensures !failBeforeCall ==>
        && (answer == CallRejected <==> outcomes[key] == Rejected)
        && (answer == CallAccepted(key) <==> outcomes[key] == Accepted && !failAfterAccept)
    {
      if failBeforeCall {
        return RaisedPreCall;
      }
      if key !in outcomes {
        commandKeys := commandKeys + [key];
        outcomes := outcomes[key := if key in rejectKeys then Rejected else Accepted];
      }
      if outcomes[key] == Rejected {
        return CallRejected;
      }
      if failAfterAccept {
        return CallUnacknowledged;
      }
      return CallAccepted(key);
    }

    method Lookup(key: string) returns (answer: LookupAnswer)
      modifies this`lookupKeys
      ensures answer == LookupAnswerOf(AsFacts(), key, lookupUnknown, lookupNeverObserved)
      ensures answer == Confirmed(key) <==> key in outcomes && outcomes[key] == Accepted && !lookupUnknown
      ensures answer == LookupRejected <==> key in outcomes && outcomes[key] == Rejected && !lookupUnknown
      ensures answer == NeverObserved <==> key !in outcomes && lookupNeverObserved
      ensures lookupKeys == old(lookupKeys) + [key]
    {
      lookupKeys := lookupKeys + [key];
      if lookupNeverObserved && key !in outcomes {
        return NeverObserved;
      }
      if lookupUnknown || key !in outcomes {
        return StillUnknown;
      }
      if outcomes[key] == Rejected {
        return LookupRejected;
      }
      return Confirmed(key);
    }
  }
}
