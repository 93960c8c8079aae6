// One plugin under its supervisor: reconcile commands with rollback, crashes, and recovery
// (executeReconcile, rollback, detachAndStop, ensureCurrent, watch and retryRecovery in
// internal/plugin/supervisor.go).
module PluginSupervisor {
  import opened Prelude
  import opened PluginState
  import opened PluginStateStore

  // A process, and the revision it was started for.
  datatype Process = Process(instance: nat, revision: Revision, ready: bool)

  // How stopping a process ends; one that could not be stopped may have exited all the same.
  datatype Stopping = Stopping(ok: bool, exits: bool)

  // How starting a process ends; one that did not come up is killed, which may fail.
  datatype Starting = Starting(ok: bool, leaves: bool)

  // How the steps of one reconcile turn out. Starting a revision again only depends on its
  // artifact and its process: the source does not see a rejected configuration there.
  datatype Script = Script(
    supervising: bool,
    prepareWritten: bool,
    fetched: bool,
    detach: Stopping,         // of the attached process
    start: Starting,          // of the candidate
    validated: bool,
    applied: bool,            // and healthy
    discard: Stopping,        // of the candidate
    commitWritten: bool,
    removed: bool,
    emitted: bool,
    restore: Starting)        // of the current revision

  predicate Stops(s: Script) { s.detach.ok && s.discard.ok }

  predicate LeavesNothing(s: Script) { !s.start.leaves && !s.restore.leaves }

  // The current revision is in place already, or can be brought back: its release is there,
  // what runs instead stops, and what is to run does or starts again.
  predicate CanRestore(r: Revision, attached: bool, alive: bool, s: Script) {
    && (r.state != Absent ==> s.fetched)
    && match r.state
       case Absent => (attached ==> s.detach.ok) && s.removed
       case Stopped => attached ==> s.detach.ok
       case Running => alive || CanStart(r, s.restore)
  }

  predicate CanStart(r: Revision, start: Starting) { start.ok && r.artifact.Some? }

  // What has to have gone well before a revision becomes current.
  ghost predicate Passed(r: Revision, s: Script) {
    r.state != Absent ==> s.fetched && s.start.ok && s.validated && (r.state == Running ==> s.applied)
  }

  // The old process stops, and the new revision passes.
  ghost predicate CanReplace(r: Revision, attached: bool, s: Script) {
    (attached ==> s.detach.ok) && Passed(r, s) && (r.state == Stopped ==> s.discard.ok) && (r.state == Absent ==> s.removed)
  }

  // All that a reconcile needs to succeed.
  ghost predicate CanReconcile(c: PluginState.Store, valid: Validator, attached: bool, alive: bool, d: Desired, s: Script) {
    var prepared := Prepare(c, d, valid, s.prepareWritten);
    && s.supervising && s.emitted && prepared.1.Accepted?
    && if prepared.1.already then CanRestore(d.revision, attached, alive, s)
       else CanReplace(d.revision, attached, s) && Commit(prepared.0, d, valid, s.commitWritten).1
  }

  // What has been accepted is committed whenever it can be written.
  lemma AcceptedIsCommitted(c: PluginState.Store, d: Desired, valid: Validator, prepareWritten: bool, written: bool)
    requires EntryOk(c, d.plugin, valid) && valid(d.revision)
    requires var prepared := Prepare(c, d, valid, prepareWritten).1; prepared.Accepted? && !prepared.already
    ensures Commit(Prepare(c, d, valid, prepareWritten).0, d, valid, written).1 == written
  {
  }

  // So for a newer command it only takes the steps to go well, whatever the store holds.
  lemma NewerIsReconciled(c: PluginState.Store, valid: Validator, attached: bool, alive: bool, d: Desired, s: Script)
    requires EntryOk(c, d.plugin, valid) && valid(d.revision) && d.revision.generation > Of(c, d.plugin).lastGeneration
    ensures CanReconcile(c, valid, attached, alive, d, s) <==>
            && s.supervising && s.prepareWritten && CanReplace(d.revision, attached, s) && s.commitWritten && s.emitted
  {
    if Prepare(c, d, valid, s.prepareWritten).1.Accepted? {
      AcceptedIsCommitted(c, d, valid, s.prepareWritten, s.commitWritten);
    }
  }

  ghost predicate AllBelow(s: set<nat>, n: nat) {
    forall i :: i in s ==> i < n
  }

  datatype Outcome = Succeeded | Conflicting | Failed

  class Actor {
    const store: StateStore
    const plugin: Id
    var process: Option<Process>
    var crashStreak: nat
    var recoveries: nat            // recovery loops under way
    var watched: set<nat>          // processes with a watch that has not ended
    var instances: nat             // processes ever started
    var running: set<nat>          // what the operating system runs
    ghost var strays: set<nat>     // processes that did not come up and could not be killed

    ghost function Durable(): Option<Revision>
      reads this, store
    {
      Of(store.Contents(), plugin).current
    }

    ghost function Attached(): set<nat>
      reads this
    {
      if process.Some? then {process.value.instance} else {}
    }

    // What runs is the attached process, or was never known to have come up.
    ghost predicate Valid()
      reads this
    {
      && running <= Attached() + strays
      && Attached() !! strays
      && AllBelow(running, instances) && AllBelow(watched, instances) && AllBelow(strays, instances)
      && (process.Some? ==> process.value.instance < instances)
    }

    ghost predicate IsAlive()
      reads this
    {
      process.Some? && process.value.instance in running
    }

    // A plugin whose durable state is running has a process of that revision attached, or a
    // recovery loop under way; otherwise it has none. An attached process is watched: if it
    // has exited, that is still to be dealt with.
    ghost predicate Serving()
      reads this, store
    {
      && (Durable().Some? && Durable().value.state == Running ==> process.Some? || recoveries > 0)
      && (process.Some? ==> IsServed(process.value, Durable()) && process.value.instance in watched)
    }

    ghost predicate IsServed(p: Process, r: Option<Revision>)
    {
      r == Some(p.revision) && p.revision.state == Running && p.ready
    }

    constructor (store: StateStore, plugin: Id)
      ensures Valid() && this.store == store && this.plugin == plugin
      ensures process == None && running == {} && strays == {}
    {
      this.store, this.plugin := store, plugin;
      process, crashStreak, recoveries, instances := None, 0, 0, 0;
      watched, running, strays := {}, {}, {};
    }

    // processRuntime.start
    method Launch(r: Revision, ready: bool, start: Starting) returns (p: Option<Process>)
      requires Valid() && process == None
      modifies this`instances, this`running, this`strays
      ensures instances == old(instances) + 1
      ensures old(strays) <= strays <= old(strays) + {old(instances)} && (!start.leaves ==> strays == old(strays))
      ensures p.Some? == start.ok
      ensures p.Some? ==>
                p.value == Process(old(instances), r, ready) && p.value.instance < instances
                && strays == old(strays) && running == old(running) + {p.value.instance}
      ensures p == None ==> Valid()
      ensures p.Some? ==> AllBelow(running, instances) && AllBelow(watched, instances) && AllBelow(strays, old(instances))
    {
      var i := instances;
      instances := instances + 1;
      if start.ok {
        running := running + {i};
        return Some(Process(i, r, ready));
      }
      if start.leaves { running, strays := running + {i}, strays + {i}; }
      return None;
    }

    // process.stop
    method Stop(p: Process, stop: Stopping) returns (ok: bool)
      modifies this`running
      ensures ok == stop.ok
      ensures running == if stop.ok || stop.exits then old(running) - {p.instance} else old(running)
    {
      if stop.ok || stop.exits { running := running - {p.instance}; }
      return stop.ok;
    }

    method DetachAndStop(stop: Stopping) returns (ok: bool)
      requires Valid()
      modifies this`process, this`running
      ensures Valid()
      ensures ok == (old(process) == None || stop.ok)
      ensures ok ==> process == None
      ensures !ok ==> process == if old(process).value.instance in running then old(process) else None
    {
      var p := process;
      process := None;
      if p == None { return true; }
      ok := Stop(p.value, stop);
      if !ok && p.value.instance in running { process := p; }
    }

    // startRevision, by callers that attach and watch what it returns. A process that is still
    // attached has exited.
    method StartRevision(r: Revision, start: Starting) returns (ok: bool)
      requires Valid() && Attached() !! running
      modifies this`process, this`instances, this`running, this`strays, this`watched
      ensures Valid() && watched >= old(watched) && (!start.leaves ==> strays == old(strays))
      ensures ok == (start.ok && r.artifact.Some?)
      ensures if ok then process.Some? && process.value == Process(process.value.instance, r, true)
                         && process.value.instance in watched && process.value.instance in running
              else process == old(process)
    {
      if r.artifact == None { return false; }
      var before := process;
      process := None;
      var p := Launch(r, true, start);
      if p == None {
        process := before;
        return false;
      }
      process := p;
      watched := watched + {p.value.instance};
      return true;
    }

    // rollback to the last committed revision
    method Rollback(previous: Option<Revision>, restore: Starting)
      requires Valid() && process == None
      modifies this
      ensures Valid() && recoveries >= old(recoveries) && (!restore.leaves ==> strays == old(strays))
      ensures if previous.Some? && previous.value.state == Running
              then if CanStart(previous.value, restore) then IsAlive() && recoveries == old(recoveries)
                   else process == None && recoveries == old(recoveries) + 1
              else process == None && recoveries == old(recoveries)
      ensures process.Some? ==> IsServed(process.value, previous) && process.value.instance in watched
    {
      if previous == None { return; }
      if previous.value.state != Running { return; }
      var ok := StartRevision(previous.value, restore);
      if !ok { recoveries := recoveries + 1; }
    }

    // ensureCurrent
    method EnsureCurrent(current: Option<Revision>, s: Script) returns (ok: bool)
      requires Valid()
      modifies this
      ensures Valid() && recoveries == old(recoveries) && watched >= old(watched) && (LeavesNothing(s) ==> strays == old(strays))
      ensures ok <==> current.Some? && CanRestore(current.value, old(process.Some?), old(IsAlive()), s)
      ensures ok && current.Some? && current.value.state == Running ==> IsAlive()
      ensures ok && current.Some? && current.value.state != Running ==> process == None
      ensures current.Some? && current.value.state == Running ==>
                process == old(process)
                || (IsAlive() && IsServed(process.value, current) && process.value.instance in watched)
      ensures current.Some? && current.value.state != Running && s.detach.ok ==> process == None || process == old(process)
    {
      if current == None { return false; }
      if current.value.state != Absent && !s.fetched { return false; }
      match current.value.state
      case Absent =>
        ok := DetachAndStop(s.detach);
        if !ok { return false; }
        return s.removed;
      case Stopped =>
        ok := DetachAndStop(s.detach);
      case Running =>
        if process.Some? && process.value.instance in running { return true; }
        ok := StartRevision(current.value, s.restore);
    }

    // A candidate that failed is stopped before the old revision is restored; one that does
    // not stop is attached, not ready and not watched.
    method Abandon(candidate: Process, previous: Option<Revision>, s: Script)
      requires process == None && candidate.instance < instances && candidate.instance !in strays
      requires running <= {candidate.instance} + strays
      requires AllBelow(running, instances) && AllBelow(watched, instances) && AllBelow(strays, instances)
      modifies this
      ensures Valid() && recoveries >= old(recoveries) && (LeavesNothing(s) ==> strays == old(strays))
      ensures !s.discard.ok ==> process == Some(candidate)
      ensures s.discard.ok ==>
                && (if previous.Some? && previous.value.state == Running
                    then if CanStart(previous.value, s.restore) then IsAlive() else process == None && recoveries == old(recoveries) + 1
                    else process == None)
                && (process.Some? ==> IsServed(process.value, previous) && process.value.instance in watched)
    {
      var stopped := Stop(candidate, s.discard);
      if !stopped {
        process := Some(candidate);
        return;
      }
      Rollback(previous, s.restore);
    }

    // What is to run can be started again.
    ghost predicate Restorable(s: Script)
      reads this, store
    {
      Durable().Some? && Durable().value.state == Running && CanStart(Durable().value, s.restore)
    }

    // executeReconcile. When the steps that stop processes go well, it ends without a process
    // where there was one only if none is to run or it cannot be started again.
    method ExecuteReconcile(d: Desired, s: Script) returns (outcome: Outcome)
      requires Valid() && d.plugin == plugin
      modifies this, store`states, store`files, store`releases
      ensures Valid() && (LeavesNothing(s) ==> strays == old(strays))
      ensures Durable() != old(Durable()) ==> Durable() == Some(d.revision) && Passed(d.revision, s)
      ensures Stops(s) && old(Serving()) ==> Serving()
      ensures outcome == Succeeded <==>
                CanReconcile(old(store.Contents()), store.valid, old(process.Some?), old(IsAlive()), d, s)
      ensures outcome == Succeeded ==> Durable() == Some(d.revision)
      ensures outcome == Succeeded && d.revision.state == Running ==> IsAlive()
      ensures outcome == Succeeded && d.revision.state != Running ==> process == None
      ensures outcome == Conflicting <==>
                s.supervising && Prepare(old(store.Contents()), d, store.valid, s.prepareWritten).1 in {Stale, Conflict}
      ensures outcome == Conflicting ==> process == old(process) && Durable() == old(Durable())
      ensures Stops(s) && Restorable(s) ==> process == old(process) || IsAlive()
    {
      if !s.supervising { return Failed; }
      var prepared := Begin(d, s.prepareWritten);
      if prepared.Stale? || prepared.Conflict? { return Conflicting; }
      if prepared.WriteFailed? { return Failed; }
      var previous := prepared.current;
      if prepared.already {
        outcome := Restore(previous, s);
      } else if d.revision.state == Absent {
        outcome := Withdraw(d, previous, s);
      } else {
        outcome := Replace(d, previous, s);
      }
    }

    // Preparing a command never changes what is current.
    method Begin(d: Desired, written: bool) returns (prepared: Prepared)
      requires d.plugin == plugin
      modifies store`states, store`files, store`releases
      ensures (store.Contents(), prepared) == Prepare(old(store.Contents()), d, store.valid, written)
      ensures Durable() == old(Durable())
      ensures prepared.Accepted? ==>
                prepared.current == Durable() && (prepared.already ==> Durable() == Some(d.revision))
    {
      prepared := store.PrepareState(d, written);
      if prepared.Accepted? { store.PruneReleases(plugin); }
    }

    // The command names what is current already.
    method Restore(previous: Option<Revision>, s: Script) returns (outcome: Outcome)
      requires Valid() && previous == Durable() && previous.Some?
      modifies this
      ensures Valid() && Durable() == old(Durable()) && outcome != Conflicting && (LeavesNothing(s) ==> strays == old(strays))
      ensures s.detach.ok && old(Serving()) ==> Serving()
      ensures outcome == Succeeded <==> CanRestore(previous.value, old(process.Some?), old(IsAlive()), s) && s.emitted
      ensures outcome == Succeeded && previous.value.state == Running ==> IsAlive()
      ensures outcome == Succeeded && previous.value.state != Running ==> process == None
      ensures Stops(s) && Restorable(s) ==> process == old(process) || IsAlive()
    {
      var ok := EnsureCurrent(previous, s);
      if !ok || !s.emitted { return Failed; }
      return Succeeded;
    }

    // The plugin is to be absent.
    method Withdraw(d: Desired, previous: Option<Revision>, s: Script) returns (outcome: Outcome)
      requires Valid() && d.plugin == plugin && previous == Durable() && d.revision.state == Absent
      modifies this, store`states, store`files
      ensures Valid() && outcome != Conflicting && (LeavesNothing(s) ==> strays == old(strays))
      ensures Durable() == old(Durable()) || Durable() == Some(d.revision)
      ensures s.detach.ok && old(Serving()) ==> Serving()
      ensures outcome == Succeeded <==>
                && CanReplace(d.revision, old(process.Some?), s)
                && Commit(old(store.Contents()), d, store.valid, s.commitWritten).1 && s.emitted
      ensures outcome == Succeeded ==> Durable() == Some(d.revision) && process == None
      ensures Stops(s) && Restorable(s) ==> process == old(process) || IsAlive()
    {
      var stopped := DetachAndStop(s.detach);
      if !stopped { return Failed; }
      var committed := store.CommitState(d, s.commitWritten);
      if !committed {
        Rollback(previous, s.restore);
        return Failed;
      }
      if !s.removed || !s.emitted { return Failed; }
      return Succeeded;
    }

    // A new revision is fetched before the old process is stopped.
    method Replace(d: Desired, previous: Option<Revision>, s: Script) returns (outcome: Outcome)
      requires Valid() && d.plugin == plugin && previous == Durable() && d.revision.state != Absent
      modifies this, store`states, store`files, store`releases
      ensures Valid() && outcome != Conflicting && (LeavesNothing(s) ==> strays == old(strays))
      ensures Durable() != old(Durable()) ==> Durable() == Some(d.revision) && Passed(d.revision, s)
      ensures Stops(s) && old(Serving()) ==> Serving()
      ensures outcome == Succeeded <==>
                && CanReplace(d.revision, old(process.Some?), s)
                && Commit(old(store.Contents()), d, store.valid, s.commitWritten).1 && s.emitted
      ensures outcome == Succeeded ==> Durable() == Some(d.revision)
      ensures outcome == Succeeded && d.revision.state == Running ==> IsAlive()
      ensures outcome == Succeeded && d.revision.state != Running ==> process == None
      ensures !s.fetched ==> process == old(process)
      ensures Stops(s) && Restorable(s) ==> process == old(process) || IsAlive()
    {
      if !s.fetched { return Failed; }
      var stopped := DetachAndStop(s.detach);
      if !stopped { return Failed; }
      outcome := StartCandidate(d, previous, s);
    }

    // With the old process out of the way.
    method StartCandidate(d: Desired, previous: Option<Revision>, s: Script) returns (outcome: Outcome)
      requires Valid() && process == None && d.plugin == plugin && previous == Durable() && d.revision.state != Absent && s.fetched
      modifies this, store`states, store`files, store`releases
      ensures Valid() && outcome != Conflicting && (LeavesNothing(s) ==> strays == old(strays))
      ensures Durable() != old(Durable()) ==> Durable() == Some(d.revision) && Passed(d.revision, s)
      ensures s.discard.ok ==> Serving()
      ensures outcome == Succeeded <==>
                CanReplace(d.revision, false, s) && Commit(old(store.Contents()), d, store.valid, s.commitWritten).1 && s.emitted
      ensures outcome == Succeeded ==> Durable() == Some(d.revision)
      ensures outcome == Succeeded && d.revision.state == Running ==> IsAlive()
      ensures outcome == Succeeded && d.revision.state != Running ==> process == None
      ensures s.discard.ok && Restorable(s) ==> IsAlive()
    {
      var launched := Launch(d.revision, false, s.start);
      if launched == None {
        Rollback(previous, s.restore);
        return Failed;
      }
      outcome := TryCandidate(d, launched.value, previous, s);
    }

    // The rest of executeReconcile, once the old process is stopped and the new one started.
    method TryCandidate(d: Desired, launched: Process, previous: Option<Revision>, s: Script) returns (outcome: Outcome)
      requires d.plugin == plugin && d.revision.state != Absent && s.fetched && s.start.ok && previous == Durable()
      requires process == None && launched.revision == d.revision
      requires launched.instance in running && launched.instance < instances && launched.instance !in strays
      requires running <= {launched.instance} + strays
      requires AllBelow(running, instances) && AllBelow(watched, instances) && AllBelow(strays, instances)
      modifies this, store`states, store`files, store`releases
      ensures Valid() && outcome != Conflicting && (LeavesNothing(s) ==> strays == old(strays))
      ensures Durable() != old(Durable()) ==> Durable() == Some(d.revision) && Passed(d.revision, s)
      ensures s.discard.ok ==> Serving()
      ensures outcome == Succeeded <==>
                && Passed(d.revision, s) && (d.revision.state == Stopped ==> s.discard.ok)
                && Commit(old(store.Contents()), d, store.valid, s.commitWritten).1 && s.emitted
      ensures outcome == Succeeded ==> Durable() == Some(d.revision)
      ensures outcome == Succeeded && d.revision.state == Running ==> IsAlive()
      ensures s.discard.ok && Restorable(s) ==> IsAlive()
      ensures outcome == Succeeded && d.revision.state != Running ==> process == None
    {
      if !s.validated || (d.revision.state == Running && !s.applied) {
        Abandon(launched, previous, s);
        return Failed;
      }
      var candidate := Some(launched);
      if d.revision.state == Stopped {
        var stopped := Stop(launched, s.discard);
        if !stopped {
          process := Some(launched);
          return Failed;
        }
        candidate := None;
      }
      outcome := Adopt(d, candidate, previous, s);
    }

    // What passed becomes current; a candidate that is to run is attached and watched.
    method Adopt(d: Desired, candidate: Option<Process>, previous: Option<Revision>, s: Script) returns (outcome: Outcome)
      requires d.plugin == plugin && d.revision.state != Absent && Passed(d.revision, s) && previous == Durable()
      requires process == None && (candidate.Some? <==> d.revision.state == Running)
      requires AllBelow(running, instances) && AllBelow(watched, instances) && AllBelow(strays, instances)
      requires candidate == None ==> running <= strays
      requires candidate.Some? ==>
                 var c := candidate.value;
                 && c.revision == d.revision && c.instance in running && c.instance < instances && c.instance !in strays
                 && running <= {c.instance} + strays
      modifies this, store`states, store`files, store`releases
      ensures Valid() && outcome != Conflicting && (LeavesNothing(s) ==> strays == old(strays))
      ensures Durable() != old(Durable()) ==> Durable() == Some(d.revision)
      ensures s.discard.ok ==> Serving()
      ensures outcome == Succeeded <==>
                Commit(old(store.Contents()), d, store.valid, s.commitWritten).1 && s.emitted
      ensures outcome == Succeeded ==> Durable() == Some(d.revision)
      ensures outcome == Succeeded && d.revision.state == Running ==> IsAlive()
      ensures s.discard.ok && Restorable(s) ==> IsAlive()
      ensures outcome == Succeeded && d.revision.state != Running ==> process == None
    {
      var committed := store.CommitState(d, s.commitWritten);
      if !committed {
        if candidate.Some? {
          Abandon(candidate.value, previous, s);
        } else {
          Rollback(previous, s.restore);
        }
        return Failed;
      }
      if candidate.Some? {
        process := Some(candidate.value.(ready := true));
        crashStreak := 0;
        watched := watched + {candidate.value.instance};
      }
      if !s.emitted { return Failed; }
      store.PruneReleases(plugin);
      return Succeeded;
    }

    // ---- Crashes and recovery ----

    // A process ends by itself; only the operating system knows so far.
    method Dies(instance: nat)
      modifies this`running
      ensures running == old(running) - {instance}
    {
      running := running - {instance};
    }

    // watch, when the process has exited: one that is no longer attached needs nothing.
    method HandleExit(instance: nat, written: bool)
      requires Valid() && instance in watched && instance !in running
      modifies this, store`states, store`files
      ensures Valid() && watched == old(watched) - {instance} && strays == old(strays) && Durable() == old(Durable())
      ensures if instance in old(Attached()) then process == None && recoveries == old(recoveries) + 1
              else process == old(process) && recoveries == old(recoveries)
      ensures old(Serving()) ==> Serving()
    {
      watched := watched - {instance};
      if process == None || process.value.instance != instance { return; }
      process := None;
      crashStreak := crashStreak + 1;
      var counted := store.IncrementRestart(plugin, written);
      recoveries := recoveries + 1;
    }

    // watch, when health checks have failed too often.
    method HandleUnhealthy(instance: nat, stop: Stopping, written: bool)
      requires Valid() && instance in watched
      modifies this, store`states, store`files
      ensures Valid() && strays == old(strays) && Durable() == old(Durable())
      ensures if instance !in old(Attached()) then process == old(process) && recoveries == old(recoveries)
              else if !stop.ok && instance in running then process == old(process) && recoveries == old(recoveries)
              else process == None && recoveries == old(recoveries) + 1
      ensures old(Serving()) ==> Serving()
    {
      watched := watched - {instance};
      if process == None || process.value.instance != instance { return; }
      var p := process.value;
      process := None;
      var stopped := Stop(p, stop);
      if !stopped && p.instance in running {
        process := Some(p);
        watched := watched + {p.instance};
        return;
      }
      crashStreak := crashStreak + 1;
      var counted := store.IncrementRestart(plugin, written);
      recoveries := recoveries + 1;
    }

    // One round of retryRecovery; the loop ends when a process is attached or none is needed.
    method RetryRecovery(start: Starting) returns (ended: bool)
      requires Valid() && recoveries > 0
      modifies this
      ensures Valid() && Durable() == old(Durable()) && (!start.leaves ==> strays == old(strays))
      ensures recoveries == old(recoveries) - if ended then 1 else 0
      ensures ended <==>
                old(process).Some? || Durable() == None || Durable().value.state != Running || CanStart(Durable().value, start)
      ensures ended <==> process.Some? || Durable() == None || Durable().value.state != Running
      ensures process == old(process) || (process.Some? && IsServed(process.value, Durable()) && process.value.instance in watched)
      ensures old(Serving()) ==> Serving()
    {
      var current := store.Current(plugin);
      if current == None || current.value.state != Running || process.Some? {
        recoveries := recoveries - 1;
        return true;
      }
      ended := StartRevision(current.value, start);
      if ended {
        recoveries := recoveries - 1;
      } else {
        crashStreak := crashStreak + 1;
      }
    }

    // ---- Any course of events ----

    method Take(e: Event)
      requires Valid() && (e.Command? ==> e.desired.plugin == plugin)
      modifies this, store`states, store`files, store`releases
      ensures Valid()
      ensures EventLeavesNothing(e) ==> strays == old(strays)
      ensures EventStops(e) && old(Serving()) ==> Serving()
    {
      match e
      case Command(d, s) => var outcome := ExecuteReconcile(d, s);
      case Dies(instance) => Dies(instance);
      case Exit(instance, written) =>
        if instance in watched && instance !in running { HandleExit(instance, written); }
      case Unhealthy(instance, stop, written) =>
        if instance in watched { HandleUnhealthy(instance, stop, written); }
      case Retry(start) =>
        if recoveries > 0 { var ended := RetryRecovery(start); }
    }

    // Whatever commands, crashes and recoveries follow each other and however they turn out,
    // at most the attached process runs, unless one that did not come up could not be killed
    // or there was such a stray before. As long as commands can stop processes, a running
    // plugin is served or recovering.
    method Supervise(events: seq<Event>)
      requires Valid()
      requires forall i :: 0 <= i < |events| && events[i].Command? ==> events[i].desired.plugin == plugin
      modifies this, store`states, store`files, store`releases
      ensures Valid()
      ensures (forall i :: 0 <= i < |events| ==> EventLeavesNothing(events[i])) ==> running <= Attached() + old(strays)
      ensures (forall i :: 0 <= i < |events| ==> EventStops(events[i])) && old(Serving()) ==> Serving()
    {
      for i := 0 to |events|
        invariant Valid()
        invariant (forall j :: 0 <= j < i ==> EventLeavesNothing(events[j])) ==> strays == old(strays)
        invariant (forall j :: 0 <= j < i ==> EventStops(events[j])) && old(Serving()) ==> Serving()
      {
        Take(events[i]);
      }
    }
  }

  datatype Event =
    | Command(desired: Desired, script: Script)
    | Dies(instance: nat)
    | Exit(instance: nat, written: bool)
    | Unhealthy(instance: nat, stop: Stopping, written: bool)
    | Retry(start: Starting)

  predicate EventStops(e: Event) { e.Command? ==> Stops(e.script) }

  predicate EventLeavesNothing(e: Event) {
    match e
    case Command(_, s) => LeavesNothing(s)
    case Retry(start) => !start.leaves
    case _ => true
  }
}
