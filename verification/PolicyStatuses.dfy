// Statuses on their way to the center (updateStatus and MarkStatusQueued in
// internal/policy, queueStatuses in engine.go).
module PolicyStatuses {
  import opened Prelude
  import opened PolicyModel
  import opened PolicyTransactions
  import opened PolicySystem
  import opened PolicyInvariant
  import opened PolicyDistribution

  // The last status of an authorization that was enqueued.
  function LastStatus(log: seq<StatusEvent>, id: Id): Option<StatusEvent>
    decreases |log|
  {
    if log == [] then None
    else if log[|log| - 1].authorization == id then Some(log[|log| - 1])
    else LastStatus(log[..|log| - 1], id)
  }

  // A status that counts as queued is the last one enqueued for its authorization.
  ghost predicate QueuedIsLast(statuses: map<Id, StatusState>, log: seq<StatusEvent>) {
    forall id :: id in statuses && statuses[id].queued ==> LastStatus(log, id) == Some(statuses[id].event)
  }

  lemma {:induction false} RefreshedStatusesWait(db: Db, at: Instant, instances: map<Id, Id>, n: nat, log: seq<StatusEvent>)
    requires HasLedgers(db) && n <= |db.policies| && StatusesUpTo(db, at, instances, n).Ok?
    requires QueuedIsLast(db.statuses, log)
    ensures QueuedIsLast(StatusesUpTo(db, at, instances, n).value, log)
  {
    if n > 0 {
      RefreshedStatusesWait(db, at, instances, n - 1, log);
    }
  }

  lemma EnqueuedIsLast(statuses: map<Id, StatusState>, log: seq<StatusEvent>, e: StatusEvent)
    requires QueuedIsLast(statuses, log) && e.authorization in statuses && statuses[e.authorization].event == e
    ensures QueuedIsLast(statuses, log + [e])
  {
    assert (log + [e])[..|log|] == log;
  }

  // Every step keeps it.
  lemma StepKeepsStatuses(w: World, a: Action)
    requires DistinctIds(w.db.policies) && Enabled(w, a) && QueuedIsLast(w.db.statuses, w.statusLog)
    ensures var w' := Step(w, a); QueuedIsLast(w'.db.statuses, w'.statusLog)
  {
    if a.RefreshStatuses? {
      if w.db.generation > 0 {
        RefreshedStatusesWait(w.db, a.at, a.instances, |w.db.policies|, w.statusLog);
      }
    } else if a.EnqueueStatus? {
      EnqueuedIsLast(w.db.statuses, w.statusLog, a.status);
    } else if a.Refresh? {
      RefreshUpToIsFresh(w.db, a.at, |w.db.policies|);
    }
  }

  lemma {:induction false} RunKeepsStatuses(w: World, acts: seq<Action>)
    requires Init(w) && Legal(w, acts)
    ensures QueuedIsLast(After(w, acts).db.statuses, After(w, acts).statusLog)
    decreases |acts|
  {
    if acts != [] {
      RunKeepsStatuses(w, acts[..|acts| - 1]);
      var v := After(w, acts[..|acts| - 1]);
      assert DistinctIds(v.db.policies) by {
        ReachableIsSafe(w, acts[..|acts| - 1]);
      }
      StepKeepsStatuses(v, acts[|acts| - 1]);
    }
  }

  // Whenever no status waits, the last status that the center was sent for an authorization
  // is the one that is stored, whatever crashes lie between Enqueue and MarkStatusQueued.
  lemma StatusesConverge(w: World, acts: seq<Action>, id: Id)
    requires Init(w) && Legal(w, acts)
    requires var db := After(w, acts).db; id in db.statuses && forall o :: o in db.statuses ==> db.statuses[o].queued
    ensures LastStatus(After(w, acts).statusLog, id) == Some(After(w, acts).db.statuses[id].event)
  {
    RunKeepsStatuses(w, acts);
  }
}
