// The command processor: pending commands run one at a time in the order they were
// received, and an execution that asks for a restart leaves its command pending
// (internal/command/processor.go).
module CommandProcessor {
  import opened Prelude
  import opened CommandStore

  // What happens when the turn of a command comes: the time by then, what its executor
  // returns, whether the Agent is being stopped by then, and the time it ends.
  datatype Turn = Turn(now: int, output: Option<Id>, problem: Option<Id>, restart: bool, canceled: bool, endedAt: int)

  type Executor = (Id, Command) -> Turn

  // An execution may take a fixed time and no longer than until the command expires.
  function Deadline(c: Command, t: Turn, limit: int): int {
    if c.expiresAt < t.now + limit then c.expiresAt else t.now + limit
  }

  // The result stored for a command, or None when the Agent restarts first.
  function ResultOf(c: Command, t: Turn, limit: int): Option<Outcome> {
    if t.now >= c.expiresAt then Some(Failed(ExpiredBeforeExecution, None, t.now))
    else if t.restart then None
    else if t.problem.Some? then Some(Failed(Reported(t.problem.value), t.output, t.endedAt))
    else if t.canceled || t.endedAt >= Deadline(c, t, limit) then Some(Failed(ExecutionTimedOut, t.output, t.endedAt))
    else Some(Succeeded(t.output, t.endedAt))
  }

  // A success was given in time, by an executor that reported no problem and asked for no
  // restart.
  lemma SuccessIsInTime(c: Command, t: Turn, limit: int)
    ensures var r := ResultOf(c, t, limit);
            (r.Some? && r.value.Succeeded? <==>
               && !t.restart && t.problem == None && !t.canceled
               && t.now < c.expiresAt && t.endedAt < c.expiresAt && t.endedAt < t.now + limit)
            && (r == None <==> t.restart && t.now < c.expiresAt)
  {
  }

  datatype Ending = Stopped | RestartRequired | NotPersisted | NotCleaned

  // Commands the session accepts while the processor is busy or waits, and the hourly
  // clean-up if it falls due: the time it is done for, and whether the directory can be synced.
  datatype Arrival = Arrival(id: Id, command: Command, at: int, writable: bool)
  datatype Sweep = Sweep(at: int, synced: bool)
  datatype Round = Round(arrivals: seq<Arrival>, cleanup: Option<Sweep>)

  // Why the store refuses a command.
  predicate Refuses(rs: Records, a: Arrival) {
    if a.id in rs then rs[a.id].command != a.command else !a.writable
  }

  // A command that arrived was accepted in the course of a run, or refused.
  ghost predicate Offered(rs: Records, ops: seq<Op>, a: Arrival) {
    AcceptOp(a.id, a.command, a.at) in ops || exists i :: 0 <= i <= |ops| && Refuses(ApplyAll(rs, ops[..i]), a)
  }

  lemma OfferedStays(rs: Records, ops: seq<Op>, ops': seq<Op>, a: Arrival)
    requires Offered(rs, ops, a) && ops <= ops'
    ensures Offered(rs, ops', a)
  {
    if i :| 0 <= i <= |ops| && Refuses(ApplyAll(rs, ops[..i]), a) {
      assert ops'[..i] == ops[..i];
    }
  }

  ghost predicate AllOffered(rs: Records, ops: seq<Op>, arrivals: seq<Arrival>) {
    forall a :: a in arrivals ==> Offered(rs, ops, a)
  }

  lemma AllStayOffered(rs: Records, ops: seq<Op>, ops': seq<Op>, rounds: seq<Round>, n: nat)
    requires n <= |rounds| && ops <= ops' && forall j :: 0 <= j < n ==> AllOffered(rs, ops, rounds[j].arrivals)
    ensures forall j :: 0 <= j < n ==> AllOffered(rs, ops', rounds[j].arrivals)
  {
    forall j, a | 0 <= j < n && a in rounds[j].arrivals
      ensures Offered(rs, ops', a)
    {
      assert AllOffered(rs, ops, rounds[j].arrivals);
      OfferedStays(rs, ops, ops', a);
    }
  }

  // Why a clean-up fails.
  ghost predicate SweepFails(s: Sweep, rs: Records, removable: Id -> bool) {
    !s.synced || exists id :: id in rs && Expired(rs[id], s.at) && !removable(id)
  }

  // The clean-up that fell due last, and whether it has been done.
  function LastDue(rounds: seq<Round>, n: nat): Option<Sweep>
    requires n <= |rounds|
  {
    if n == 0 then None else if rounds[n - 1].cleanup.Some? then rounds[n - 1].cleanup else LastDue(rounds, n - 1)
  }

  ghost predicate IsSwept(ops: seq<Op>, due: Option<Sweep>) {
    due.Some? ==> exists op :: op in ops && op.CleanupOp? && op.at == due.value.at
  }

  // How far a run has come after some rounds.
  ghost predicate SoFar(rs: Records, ops: seq<Op>, rounds: seq<Round>, n: nat, due: Option<Sweep>)
    requires n <= |rounds|
  {
    && (forall j :: 0 <= j < n ==> AllOffered(rs, ops, rounds[j].arrivals))
    && (due == LastDue(rounds, n) || (due == None && IsSwept(ops, LastDue(rounds, n))))
  }

  lemma FurtherOn(rs: Records, ops: seq<Op>, ops': seq<Op>, rounds: seq<Round>, n: nat, due: Option<Sweep>)
    requires n <= |rounds| && SoFar(rs, ops, rounds, n, due) && ops <= ops'
    ensures SoFar(rs, ops', rounds, n, due)
    ensures due.Some? && IsSwept(ops', due) ==> SoFar(rs, ops', rounds, n, None)
  {
    AllStayOffered(rs, ops, ops', rounds, n);
    assert forall op :: op in ops ==> op in ops';
  }

  lemma NextRound(rs: Records, ops: seq<Op>, ops': seq<Op>, rounds: seq<Round>, n: nat, due: Option<Sweep>)
    requires n < |rounds| && SoFar(rs, ops, rounds, n, due) && ops <= ops' && AllOffered(rs, ops', rounds[n].arrivals)
    ensures SoFar(rs, ops', rounds, n + 1, if rounds[n].cleanup.Some? then rounds[n].cleanup else due)
  {
    FurtherOn(rs, ops, ops', rounds, n, due);
  }

  lemma {:induction false} LastDueIsDue(rounds: seq<Round>, n: nat)
    requires n <= |rounds| && LastDue(rounds, n).Some?
    ensures exists j :: 0 <= j < n && rounds[j].cleanup == LastDue(rounds, n)
  {
    if rounds[n - 1].cleanup == None {
      LastDueIsDue(rounds, n - 1);
    }
  }

  // Of the operations of a run, those that complete a command complete the first pending
  // one, with the result of its execution.
  ghost predicate CompletesFirst(rs: Records, op: Op, executor: Executor, limit: int) {
    op.CompleteOp? ==>
      && IsFirst(rs, Pending, op.id)
      && rs[op.id].command == op.command
      && ResultOf(op.command, executor(op.id, op.command), limit) == Some(op.outcome)
  }

  ghost predicate CompletesInOrder(rs: Records, ops: seq<Op>, executor: Executor, limit: int) {
    forall i :: 0 <= i < |ops| ==> CompletesFirst(ApplyAll(rs, ops[..i]), ops[i], executor, limit)
  }

  lemma OneMore(rs: Records, ops: seq<Op>, executor: Executor, limit: int, op: Op)
    requires CompletesInOrder(rs, ops, executor, limit) && CompletesFirst(ApplyAll(rs, ops), op, executor, limit)
    ensures CompletesInOrder(rs, ops + [op], executor, limit)
    ensures ApplyAll(rs, ops + [op]) == Apply(ApplyAll(rs, ops), op)
  {
    assert (ops + [op])[..|ops|] == ops;
    forall i | 0 <= i < |ops|
      ensures (ops + [op])[..i] == ops[..i] && (ops + [op])[i] == ops[i]
    {
    }
  }

  lemma CleanupIsOneMore(rs: Records, ops: seq<Op>, executor: Executor, limit: int, at: int, walked: set<Id>)
    requires CompletesInOrder(rs, ops, executor, limit)
    ensures CompletesInOrder(rs, ops + [CleanupOp(at, walked)], executor, limit)
    ensures ApplyAll(rs, ops + [CleanupOp(at, walked)]) == AfterCleanup(ApplyAll(rs, ops), at, walked)
  {
    OneMore(rs, ops, executor, limit, CleanupOp(at, walked));
  }

  lemma AcceptIsOneMore(rs: Records, ops: seq<Op>, executor: Executor, limit: int, a: Arrival, after: Records)
    requires CompletesInOrder(rs, ops, executor, limit)
    requires AfterAccept(ApplyAll(rs, ops), a.id, a.command, a.at) == Ok(after)
    ensures CompletesInOrder(rs, ops + [AcceptOp(a.id, a.command, a.at)], executor, limit)
    ensures ApplyAll(rs, ops + [AcceptOp(a.id, a.command, a.at)]) == after
    ensures forall id :: id in after && after[id].state == Completed ==>
              id in ApplyAll(rs, ops) && ApplyAll(rs, ops)[id].state == Completed
  {
    OneMore(rs, ops, executor, limit, AcceptOp(a.id, a.command, a.at));
  }

  function PendingIds(rs: Records): set<Id> {
    set id | id in rs && rs[id].state == Pending
  }

  lemma NonePending(rs: Records)
    requires forall id :: id in rs ==> rs[id].state != Pending
    ensures PendingIds(rs) == {}
  {
    assert forall id :: id !in PendingIds(rs);
  }

  lemma CompletionLeavesFewer(rs: Records, id: Id, outcome: Outcome)
    requires id in PendingIds(rs)
    ensures var op := CompleteOp(id, rs[id].command, outcome);
            PendingIds(Apply(rs, op)) == PendingIds(rs) - {id} && AfterComplete(rs, id, rs[id].command, outcome) == Ok(Apply(rs, op))
  {
  }

  class Processor {
    const store: Store
    const limit: int
    var resultReady: bool

    constructor (store: Store, limit: int)
      ensures this.store == store && this.limit == limit
    {
      this.store, this.limit, this.resultReady := store, limit, false;
    }

    // execute
    method Execute(id: Id, command: Command, executor: Executor) returns (result: Option<Outcome>)
      ensures result == ResultOf(command, executor(id, command), limit)
    {
      var turn := executor(id, command);
      if turn.now >= command.expiresAt { return Some(Failed(ExpiredBeforeExecution, None, turn.now)); }
      var deadline := turn.now + limit;
      if command.expiresAt < deadline { deadline := command.expiresAt; }
      if turn.restart { return None; }
      var problem := if turn.problem.Some? then Some(Reported(turn.problem.value)) else None;
      if (turn.canceled || turn.endedAt >= deadline) && problem == None { problem := Some(ExecutionTimedOut); }
      return Some(if problem == None then Succeeded(turn.output, turn.endedAt) else Failed(problem.value, turn.output, turn.endedAt));
    }

    // Whoever waits for results has been told when there is one.
    ghost predicate Signalled()
      reads this, store
    {
      forall id :: id in store.records && store.records[id].state == Completed ==> resultReady
    }

    method AcceptAll(arrivals: seq<Arrival>, ghost rs: Records, ghost ops: seq<Op>, ghost executor: Executor)
      returns (ghost ops': seq<Op>)
      requires store.Valid() && Signalled()
      requires store.records == ApplyAll(rs, ops) && CompletesInOrder(rs, ops, executor, limit)
      modifies store
      ensures store.Valid() && Signalled()
      ensures store.records == ApplyAll(rs, ops') && CompletesInOrder(rs, ops', executor, limit)
      ensures ops <= ops' && AllOffered(rs, ops', arrivals)
    {
      ops' := ops;
      for i := 0 to |arrivals|
        invariant store.Valid() && Signalled()
        invariant store.records == ApplyAll(rs, ops') && CompletesInOrder(rs, ops', executor, limit)
        invariant ops <= ops' && forall j :: 0 <= j < i ==> Offered(rs, ops', arrivals[j])
      {
        var a := arrivals[i];
        ghost var before := ops';
        var _, error := store.Accept(a.id, a.command, a.at, a.writable);
        if error == None {
          AcceptIsOneMore(rs, ops', executor, limit, a, store.records);
          ops' := ops' + [AcceptOp(a.id, a.command, a.at)];
          assert ops'[|before|] == AcceptOp(a.id, a.command, a.at);
        } else {
          assert ops'[..|ops'|] == ops';
        }
        forall j | 0 <= j < i
          ensures Offered(rs, ops', arrivals[j])
        {
          OfferedStays(rs, before, ops', arrivals[j]);
        }
      }
    }

    method Clean(s: Sweep, removable: Id -> bool, ghost rs: Records, ghost ops: seq<Op>, ghost executor: Executor)
      returns (ok: bool, ghost ops': seq<Op>)
      requires store.Valid() && Signalled()
      requires store.records == ApplyAll(rs, ops) && CompletesInOrder(rs, ops, executor, limit)
      modifies store
      ensures store.Valid() && Signalled()
      ensures store.records == ApplyAll(rs, ops') && CompletesInOrder(rs, ops', executor, limit)
      ensures !ok ==> SweepFails(s, store.records, removable)
      ensures ops <= ops' && IsSwept(ops', Some(s))
      ensures PendingIds(store.records) <= PendingIds(old(store.records))
    {
      ghost var walked;
      ok, walked := store.Cleanup(s.at, removable, s.synced);
      CleanupIsOneMore(rs, ops, executor, limit, s.at, walked);
      ops' := ops + [CleanupOp(s.at, walked)];
      assert ops'[|ops|] == CleanupOp(s.at, walked);
    }

    // Run: after a clean-up, until it is stopped while nothing is pending, a restart is due,
    // or a write fails. By the time it is stopped, every command that arrived was accepted or
    // refused, and the clean-up that fell due last is done. `ops` are the operations made on
    // the store in that time.
    method Run(start: Sweep, rounds: seq<Round>, executor: Executor, writable: Id -> bool, removable: Id -> bool)
      returns (ending: Ending, ghost ops: seq<Op>)
      requires store.Valid()
      modifies this, store
      ensures store.Valid()
      ensures store.records == ApplyAll(old(store.records), ops) && CompletesInOrder(old(store.records), ops, executor, limit)
      ensures ending != NotCleaned ==> Signalled()
      ensures ending == Stopped ==>
                && PendingIds(store.records) == {} && IsSwept(ops, LastDue(rounds, |rounds|))
                && forall i :: 0 <= i < |rounds| ==> AllOffered(old(store.records), ops, rounds[i].arrivals)
      ensures ending == RestartRequired ==>
                exists id :: IsFirst(store.records, Pending, id)
                  && ResultOf(store.records[id].command, executor(id, store.records[id].command), limit) == None
      ensures ending == NotPersisted ==>
                exists id :: IsFirst(store.records, Pending, id) && !writable(id)
                  && ResultOf(store.records[id].command, executor(id, store.records[id].command), limit).Some?
      ensures ending == NotCleaned ==>
                SweepFails(start, store.records, removable)
                || exists i :: 0 <= i < |rounds| && rounds[i].cleanup.Some?
                     && SweepFails(rounds[i].cleanup.value, store.records, removable)
    {
      ghost var rs := store.records;
      var ok: bool;
      ghost var walked;
      ok, walked := store.Cleanup(start.at, removable, start.synced);
      assert CompletesInOrder(rs, [], executor, limit);
      OneMore(rs, [], executor, limit, CleanupOp(start.at, walked));
      ops := [] + [CleanupOp(start.at, walked)];
      if !ok { return NotCleaned, ops; }
      var result := store.NextResult();
      if result.Some? { resultReady := true; }
      var i := 0;
      var due: Option<Sweep> := None;
      while true
        invariant i <= |rounds|
        invariant store.Valid() && Signalled()
        invariant store.records == ApplyAll(rs, ops) && CompletesInOrder(rs, ops, executor, limit)
        invariant SoFar(rs, ops, rounds, i, due)
        decreases |rounds| - i, PendingIds(store.records)
      {
        var last := i == |rounds|;
        if !last {
          ghost var before := ops;
          ops := AcceptAll(rounds[i].arrivals, rs, ops, executor);
          NextRound(rs, before, ops, rounds, i, due);
          if rounds[i].cleanup.Some? { due := rounds[i].cleanup; }
          i := i + 1;
        }
        var first := store.First(Pending);
        if first == None {
          NonePending(store.records);
          if due.Some? {
            LastDueIsDue(rounds, i);
            ghost var before := ops;
            ok, ops := Clean(due.value, removable, rs, ops, executor);
            if !ok { return NotCleaned, ops; }
            FurtherOn(rs, before, ops, rounds, i, due);
            due := None;
          }
          if last { return Stopped, ops; }
        } else {
          ghost var before := ops;
          var stopped;
          stopped, ops := ExecuteFirst(first.value, executor, writable, rs, ops);
          if stopped.Some? { return stopped.value, ops; }
          FurtherOn(rs, before, ops, rounds, i, due);
        }
      }
    }

    // The first pending command: it is completed, unless the Agent has to restart or its
    // result cannot be stored.
    method ExecuteFirst(id: Id, executor: Executor, writable: Id -> bool, ghost rs: Records, ghost ops: seq<Op>)
      returns (ending: Option<Ending>, ghost ops': seq<Op>)
      requires store.Valid() && Signalled() && IsFirst(store.records, Pending, id)
      requires store.records == ApplyAll(rs, ops) && CompletesInOrder(rs, ops, executor, limit)
      modifies this`resultReady, store
      ensures store.Valid() && Signalled() && ops <= ops'
      ensures store.records == ApplyAll(rs, ops') && CompletesInOrder(rs, ops', executor, limit)
      ensures var command := old(store.records)[id].command;
              var outcome := ResultOf(command, executor(id, command), limit);
              && ending == (if outcome == None then Some(RestartRequired) else if writable(id) then None else Some(NotPersisted))
              && (if ending == None then PendingIds(store.records) == PendingIds(old(store.records)) - {id}
                  else store.records == old(store.records))
    {
      ops' := ops;
      var command := store.records[id].command;
      var outcome := Execute(id, command, executor);
      if outcome == None { return Some(RestartRequired), ops; }
      ghost var op := CompleteOp(id, command, outcome.value);
      CompletionLeavesFewer(store.records, id, outcome.value);
      OneMore(rs, ops, executor, limit, op);
      var error := store.Complete(id, command, outcome.value, writable(id));
      if error.Some? { return Some(NotPersisted), ops; }
      resultReady := true;
      return None, ops + [op];
    }
  }
}
