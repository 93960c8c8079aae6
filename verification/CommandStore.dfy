// The durable command store: commands accepted from the center, their terminal results
// and the 24 hour retention of acknowledged records (internal/command/store.go).
module CommandStore {
  import opened Prelude

  datatype Command =
    | AgentUpdate(version: Id, expiresAt: int)
    | Other(payload: Id, expiresAt: int)

  datatype Problem = ExpiredBeforeExecution | ExecutionTimedOut | Reported(problem: Id)

  // A result as it is sent to the center; two that differ anywhere are different results.
  datatype Outcome =
    | Succeeded(output: Option<Id>, completedAt: int)
    | Failed(problem: Problem, output: Option<Id>, completedAt: int)

  datatype State = Pending | Completed | Acknowledged

  // A record as written to <command id>.json. Two commands have the same request digest
  // exactly when they are equal.
  datatype Record = Record(
    command: Command,
    state: State,
    result: Option<Outcome>,
    receivedAt: int,
    acknowledgedAt: Option<int>)

  type Records = map<Id, Record>

  datatype Error = NotFound | Conflict | WriteFailed

  const ACKNOWLEDGED_RETENTION: int := 24 * 3600 * 1_000_000_000

  // What validateRecord demands of a record read back or about to be written.
  predicate ValidRecord(r: Record) {
    match r.state
    case Pending => r.result == None && r.acknowledgedAt == None
    case Completed => r.result.Some? && r.acknowledgedAt == None
    case Acknowledged => r.result.Some? && r.acknowledgedAt.Some?
  }

  predicate ValidRecords(rs: Records) {
    forall id :: id in rs ==> ValidRecord(rs[id])
  }

  function AfterAccept(rs: Records, id: Id, command: Command, at: int): Result<Records, Error> {
    if id in rs then
      if rs[id].command != command then Err(Conflict) else Ok(rs)
    else
      Ok(rs[id := Record(command, Pending, None, at, None)])
  }

  function AfterComplete(rs: Records, id: Id, command: Command, outcome: Outcome): Result<Records, Error> {
    if id !in rs then Err(NotFound)
    else if rs[id].command != command then Err(Conflict)
    else if rs[id].state != Pending then
      if rs[id].result == Some(outcome) then Ok(rs) else Err(Conflict)
    else Ok(rs[id := rs[id].(state := Completed, result := Some(outcome))])
  }

  function AfterAcknowledge(rs: Records, id: Id, command: Command, at: int): Result<Records, Error> {
    if id !in rs then Err(NotFound)
    else if rs[id].command != command then Err(Conflict)
    else if rs[id].state == Acknowledged then Ok(rs)
    else if rs[id].state != Completed then Err(Conflict)
    else Ok(rs[id := rs[id].(state := Acknowledged, acknowledgedAt := Some(at))])
  }

  predicate Expired(r: Record, now: int) {
    && r.state == Acknowledged
    && r.acknowledgedAt.Some?
    && r.acknowledgedAt.value <= now - ACKNOWLEDGED_RETENTION
  }

  // Clean-up walks the records in some order and ends early when a file cannot be removed;
  // `walked` are those it dealt with.
  function AfterCleanup(rs: Records, now: int, walked: set<Id>): Records {
    map id | id in rs && !(id in walked && Expired(rs[id], now)) :: rs[id]
  }

  // The order of sortedLocked: receive time, then command ID.
  predicate Before(rs: Records, a: Id, b: Id)
    requires a in rs && b in rs
  {
    || rs[a].receivedAt < rs[b].receivedAt
    || (rs[a].receivedAt == rs[b].receivedAt && a < b)
  }

  // `id` is what NextPending or NextResult picks for the given state.
  predicate IsFirst(rs: Records, state: State, id: Id) {
    && id in rs && rs[id].state == state
    && forall other :: other in rs && rs[other].state == state && other != id ==> Before(rs, id, other)
  }

  lemma FirstIsUnique(rs: Records, state: State, a: Id, b: Id)
    requires IsFirst(rs, state, a) && IsFirst(rs, state, b)
    ensures a == b
  {
  }

  // ---- What every operation keeps ----

  datatype Op =
    | AcceptOp(id: Id, command: Command, at: int)
    | CompleteOp(id: Id, command: Command, outcome: Outcome)
    | AcknowledgeOp(id: Id, command: Command, at: int)
    | CleanupOp(at: int, walked: set<Id>)

  // The records after an operation; a refused one changes nothing.
  function Apply(rs: Records, op: Op): Records {
    var r := match op
      case AcceptOp(id, command, at) => AfterAccept(rs, id, command, at)
      case CompleteOp(id, command, outcome) => AfterComplete(rs, id, command, outcome)
      case AcknowledgeOp(id, command, at) => AfterAcknowledge(rs, id, command, at)
      case CleanupOp(at, walked) => Ok(AfterCleanup(rs, at, walked));
    if r.Ok? then r.value else rs
  }

  function ApplyAll(rs: Records, ops: seq<Op>): Records
    decreases |ops|
  {
    if ops == [] then rs else Apply(ApplyAll(rs, ops[..|ops| - 1]), ops[|ops| - 1])
  }

  // `id` is kept throughout the run: no clean-up removes it.
  predicate KeptThroughout(rs: Records, ops: seq<Op>, id: Id) {
    && id in ApplyAll(rs, ops)
    && forall i :: 0 <= i < |ops| ==> id in ApplyAll(rs, ops[..i])
  }

  // A stored result is final and its command is never handed out again: whatever is
  // accepted, completed, acknowledged or cleaned up, a record that is kept keeps its
  // command and its result, and never returns to the pending state.
  lemma {:induction false} ResultsAreFinal(rs: Records, ops: seq<Op>, id: Id)
    requires ValidRecords(rs) && id in rs && KeptThroughout(rs, ops, id)
    ensures ValidRecords(ApplyAll(rs, ops))
    ensures ApplyAll(rs, ops)[id].command == rs[id].command
    ensures ApplyAll(rs, ops)[id].receivedAt == rs[id].receivedAt
    ensures rs[id].result.Some? ==> ApplyAll(rs, ops)[id].result == rs[id].result
    ensures rs[id].state != Pending ==>
              ApplyAll(rs, ops)[id].state != Pending && !IsFirst(ApplyAll(rs, ops), Pending, id)
    decreases |ops|
  {
    if ops != [] {
      var front := ops[..|ops| - 1];
      assert forall i :: 0 <= i < |front| ==> front[..i] == ops[..i];
      ResultsAreFinal(rs, front, id);
    }
  }

  // Clean-up removes exactly those of the records it walks that were acknowledged at least
  // 24 hours ago, so a result the center has not acknowledged survives it.
  lemma CleanupKeepsUnacknowledged(rs: Records, now: int, walked: set<Id>, id: Id)
    requires ValidRecords(rs) && id in rs
    ensures id !in AfterCleanup(rs, now, walked) <==>
              && id in walked && rs[id].state == Acknowledged
              && now - rs[id].acknowledgedAt.value >= ACKNOWLEDGED_RETENTION
    ensures id in AfterCleanup(rs, now, walked) ==> AfterCleanup(rs, now, walked)[id] == rs[id]
  {
  }

  // The store: the records map, kept equal to the record files. writeLocked replaces one
  // file atomically; `writable` says whether that succeeds.
  class Store {
    var records: Records

    ghost predicate Valid() reads this { ValidRecords(records) }

    constructor (files: Records)
      requires ValidRecords(files)
      ensures Valid() && records == files
    {
      records := files;
    }

    method Accept(id: Id, command: Command, receivedAt: int, writable: bool)
      returns (created: bool, error: Option<Error>)
      requires Valid()
      modifies this
      ensures Valid()
      ensures created <==> id !in old(records) && writable
      ensures error == None ==> Ok(records) == AfterAccept(old(records), id, command, receivedAt)
      ensures error.Some? ==> records == old(records)
      ensures error.Some? <==> (if id in old(records) then old(records)[id].command != command else !writable)
    {
      if id in records {
        return false, if records[id].command != command then Some(Conflict) else None;
      }
      if !writable {
        return false, Some(WriteFailed);
      }
      records := records[id := Record(command, Pending, None, receivedAt, None)];
      return true, None;
    }

    // sortedLocked and its first element.
    method First(state: State) returns (first: Option<Id>)
      requires Valid()
      ensures first.Some? ==> IsFirst(records, state, first.value)
      ensures first == None ==> forall id :: id in records ==> records[id].state != state
    {
      first := None;
      var rest := records.Keys;
      while rest != {}
        invariant rest <= records.Keys
        invariant first.Some? ==> first.value in records && first.value !in rest && records[first.value].state == state
        invariant forall id :: id in records.Keys - rest && records[id].state == state ==>
                    first.Some? && (id == first.value || Before(records, first.value, id))
        decreases |rest|
      {
        var id := Pick(rest);
        rest := rest - {id};
        if records[id].state == state {
          if first == None || Before(records, id, first.value) {
            first := Some(id);
          }
        }
      }
    }

    method Complete(id: Id, command: Command, outcome: Outcome, writable: bool) returns (error: Option<Error>)
      requires Valid()
      modifies this
      ensures Valid()
      ensures error == None ==> Ok(records) == AfterComplete(old(records), id, command, outcome)
      ensures error.Some? ==> records == old(records)
      ensures error.Some? && error.value != WriteFailed ==>
                AfterComplete(old(records), id, command, outcome) == Err(error.value)
      ensures error == Some(WriteFailed) <==>
                !writable && id in old(records) && old(records)[id].command == command && old(records)[id].state == Pending
    {
      if id !in records {
        return Some(NotFound);
      }
      var existing := records[id];
      if existing.command != command {
        return Some(Conflict);
      }
      if existing.state != Pending {
        return if existing.result == Some(outcome) then None else Some(Conflict);
      }
      if !writable {
        return Some(WriteFailed);
      }
      records := records[id := existing.(state := Completed, result := Some(outcome))];
      return None;
    }

    method NextResult() returns (result: Option<Outcome>)
      requires Valid()
      ensures result == None <==> forall id :: id in records ==> records[id].state != Completed
      ensures result.Some? ==> exists id :: IsFirst(records, Completed, id) && records[id].result == result
    {
      var first := First(Completed);
      result := if first.Some? then records[first.value].result else None;
    }

    method Acknowledge(id: Id, command: Command, at: int, writable: bool) returns (error: Option<Error>)
      requires Valid()
      modifies this
      ensures Valid()
      ensures error == None ==> Ok(records) == AfterAcknowledge(old(records), id, command, at)
      ensures error.Some? ==> records == old(records)
      ensures error.Some? && error.value != WriteFailed ==>
                AfterAcknowledge(old(records), id, command, at) == Err(error.value)
      ensures error == Some(WriteFailed) <==>
                !writable && id in old(records) && old(records)[id].command == command && old(records)[id].state == Completed
    {
      if id !in records {
        return Some(NotFound);
      }
      var existing := records[id];
      if existing.command != command {
        return Some(Conflict);
      }
      if existing.state == Acknowledged {
        return None;
      }
      if existing.state != Completed || existing.result == None {
        return Some(Conflict);
      }
      if !writable {
        return Some(WriteFailed);
      }
      records := records[id := existing.(state := Acknowledged, acknowledgedAt := Some(at))];
      return None;
    }

    // Removes expired records one file at a time, in any order, until one cannot be removed.
    // It fails just then, or when the directory cannot be synced at the end.
    method Cleanup(now: int, removable: Id -> bool, synced: bool) returns (ok: bool, ghost walked: set<Id>)
      requires Valid()
      modifies this
      ensures Valid() && records == AfterCleanup(old(records), now, walked)
      ensures walked <= old(records).Keys
      ensures if exists id :: id in old(records) && Expired(old(records)[id], now) && !removable(id)
              then !ok && forall id :: id in walked && Expired(old(records)[id], now) ==> removable(id)
              else ok == synced && walked == old(records).Keys
    {
      var rest := records.Keys;
      walked := {};
      while rest != {}
        invariant rest <= old(records).Keys && walked == old(records).Keys - rest
        invariant records == AfterCleanup(old(records), now, walked)
        invariant forall id :: id in walked && Expired(old(records)[id], now) ==> removable(id)
        decreases |rest|
      {
        var id := Pick(rest);
        rest := rest - {id};
        if Expired(records[id], now) {
          if !removable(id) { return false, walked; }
          records := records - {id};
        }
        walked := walked + {id};
      }
      return synced, walked;
    }
  }
}
