// The update manager, the executor that drives it, and the launcher, as they write
// (internal/update/manager.go, internal/update/executor.go, deploy/relayward-agent-launcher).
module UpdateManager {
  import opened Prelude
  import opened UpdateModel
  import System = UpdateSystem
  import Commands = CommandStore

  // The state directory. `writes` is the state after every write so far, `faults` the number
  // of those that failed.
  class StateDirectory {
    var current: Target
    var previous: Option<Target>
    var pending: Option<Record>
    var confirmed: Option<Record>
    var failed: Option<Record>
    var installed: set<Target>
    ghost var writes: seq<Disk>
    ghost var faults: nat

    ghost function View(): Disk reads this {
      Disk(current, previous, pending, confirmed, failed, installed)
    }

    constructor (d: Disk)
      ensures View() == d && writes == []
    {
      current, previous, pending := d.current, d.previous, d.pending;
      confirmed, failed, installed := d.confirmed, d.failed, d.installed;
      writes, faults := [], 0;
    }

    // Each of the following makes one atomic write, or fails and changes nothing.
    method LinkCurrent(target: Target) returns (ok: bool)
      modifies this
      ensures View() == if ok then old(View()).(current := target) else old(View())
      ensures writes == if ok then old(writes) + [View()] else old(writes)
      ensures faults == if ok then old(faults) else old(faults) + 1
    {
      ok := *;
      if ok { current := target; writes := writes + [View()]; } else { faults := faults + 1; }
    }

    method LinkPrevious(target: Target) returns (ok: bool)
      modifies this
      ensures View() == if ok then old(View()).(previous := Some(target)) else old(View())
      ensures writes == if ok then old(writes) + [View()] else old(writes)
      ensures faults == if ok then old(faults) else old(faults) + 1
    {
      ok := *;
      if ok { previous := Some(target); writes := writes + [View()]; } else { faults := faults + 1; }
    }

    method PutPending(r: Option<Record>) returns (ok: bool)
      modifies this
      ensures View() == if ok then old(View()).(pending := r) else old(View())
      ensures writes == if ok then old(writes) + [View()] else old(writes)
      ensures faults == if ok then old(faults) else old(faults) + 1
    {
      ok := *;
      if ok { pending := r; writes := writes + [View()]; } else { faults := faults + 1; }
    }

    method PutConfirmed(r: Option<Record>) returns (ok: bool)
      modifies this
      ensures View() == if ok then old(View()).(confirmed := r) else old(View())
      ensures writes == if ok then old(writes) + [View()] else old(writes)
      ensures faults == if ok then old(faults) else old(faults) + 1
    {
      ok := *;
      if ok { confirmed := r; writes := writes + [View()]; } else { faults := faults + 1; }
    }

    method RemoveFailed() returns (ok: bool)
      modifies this
      ensures View() == if ok then old(View()).(failed := None) else old(View())
      ensures writes == if ok then old(writes) + [View()] else old(writes)
      ensures faults == if ok then old(faults) else old(faults) + 1
    {
      ok := *;
      if ok { failed := None; writes := writes + [View()]; } else { faults := faults + 1; }
    }

    method RenamePendingToConfirmed() returns (ok: bool)
      modifies this
      ensures View() == if ok then old(View()).(pending := None, confirmed := old(pending)) else old(View())
      ensures writes == if ok then old(writes) + [View()] else old(writes)
      ensures faults == if ok then old(faults) else old(faults) + 1
    {
      ok := *;
      if ok { confirmed := pending; pending := None; writes := writes + [View()]; } else { faults := faults + 1; }
    }

    method RenamePendingToFailed() returns (ok: bool)
      modifies this
      ensures View() == if ok then old(View()).(failed := old(pending), pending := None) else old(View())
      ensures writes == if ok then old(writes) + [View()] else old(writes)
      ensures faults == if ok then old(faults) else old(faults) + 1
    {
      ok := *;
      if ok { failed := pending; pending := None; writes := writes + [View()]; } else { faults := faults + 1; }
    }

    method Install(target: Target) returns (ok: bool)
      modifies this
      ensures View() == if ok then old(View()).(installed := old(installed) + {target}) else old(View())
      ensures writes == if ok then old(writes) + [View()] else old(writes)
      ensures faults == if ok then old(faults) else old(faults) + 1
    {
      ok := *;
      if ok { installed := installed + {target}; writes := writes + [View()]; } else { faults := faults + 1; }
    }

    method Uninstall(target: Target) returns (ok: bool)
      modifies this
      ensures View() == if ok then old(View()).(installed := old(installed) - {target}) else old(View())
      ensures writes == if ok then old(writes) + [View()] else old(writes)
      ensures faults == if ok then old(faults) else old(faults) + 1
    {
      ok := *;
      if ok { installed := installed - {target}; writes := writes + [View()]; } else { faults := faults + 1; }
    }
  }

  // The state of the system in which an executor runs: the command is the next one, and
  // nothing is under way.
  ghost predicate IsExecuting(w: System.World, d: Disk, command: Id, version: Id, runningVersion: Id) {
    && w.disk == d
    && w.agent.Running? && w.agent.binary.version == runningVersion && w.agent.job == None && w.agent.done == None
    && Commands.IsFirst(w.commands, Commands.Pending, command)
    && w.commands[command].command.AgentUpdate? && w.commands[command].command.version == version
  }

  // Published releases: a version names one binary.
  ghost predicate NamesOneBinary(w: System.World, release: Target) {
    forall t :: t in w.seen && t.version == release.version ==> t == release
  }

  // There is no verified release of the version, or the binary that runs is not installed.
  predicate IsNoRelease(release: Option<Target>, version: Id) { release == None || release.value.version != version }

  predicate CannotDeploy(d: Disk, release: Target) { d.current !in d.installed + {release} }

  datatype Preparation = Restart | AlreadyActivated | StillPending | Failure(reason: Observation)

  // `waits` counts how often somebody has waited for a change of state.
  class Manager {
    const dir: StateDirectory
    ghost var waits: nat

    constructor (dir: StateDirectory)
      ensures this.dir == dir && waits == 0
    {
      this.dir, waits := dir, 0;
    }

    // The three record files are tried in turn.
    method Observe(command: Id, version: Id) returns (observed: Observation)
      ensures observed == UpdateModel.Observe(dir.View(), command, version)
    {
      observed := NotFound;
      for i := 0 to 3
        invariant observed == NotFound
        invariant i > 0 ==> dir.pending == None
        invariant i > 1 ==> !Names(dir.confirmed, command, version)
        invariant i > 2 ==> !Names(dir.failed, command, version)
      {
        var state := if i == 0 then dir.pending else if i == 1 then dir.confirmed else dir.failed;
        if state == None {
          continue;
        }
        if !Names(state, command, version) {
          if i == 0 {
            return StateConflict;
          }
          continue;
        }
        return if i == 0 then ActivationPending else if i == 1 then Activated else ActivationFailed;
      }
    }

    // Reports an error when a record is pending and this is not its candidate, or when the
    // rename fails.
    method Confirm(runningVersion: Id) returns (confirmed: bool, error: bool)
      modifies dir
      ensures confirmed <==> ConfirmWrites(old(dir.View()), runningVersion) != [] && dir.faults == old(dir.faults)
      ensures dir.writes == if confirmed then old(dir.writes) + ConfirmWrites(old(dir.View()), runningVersion) else old(dir.writes)
      ensures dir.View() == if confirmed then ConfirmWrites(old(dir.View()), runningVersion)[0] else old(dir.View())
      ensures !confirmed && !error ==> old(dir.pending) == None
      ensures ConfirmWrites(old(dir.View()), runningVersion) == [] && old(dir.pending).Some? ==> error
    {
      if dir.pending == None {
        return false, false;
      }
      if dir.pending.value.version != runningVersion {
        return false, true;
      }
      if dir.current != dir.pending.value.target {
        return false, true;
      }
      var ok := dir.RenamePendingToConfirmed();
      return ok, !ok;
    }

    // `versions` lists the installed versions from the newest to the oldest. Returns how
    // many removals were made: all of them unless one failed.
    method PruneVersions(target: Target, versions: seq<Target>) returns (ok: bool, ghost k: nat)
      modifies dir
      ensures k <= |PruneWrites(old(dir.View()), target, versions)|
      ensures dir.writes == old(dir.writes) + PruneWrites(old(dir.View()), target, versions)[..k]
      ensures dir.View() == AfterWrites(old(dir.View()), PruneWrites(old(dir.View()), target, versions), k)
      ensures ok ==> k == |PruneWrites(old(dir.View()), target, versions)|
      ensures ok <==> dir.faults == old(dir.faults)
      ensures dir.current in dir.installed <==> old(dir.current in dir.installed)
      ensures dir.View() == old(dir.View()).(installed := dir.installed)
    {
      ghost var start := dir.View();
      var protected := {target, dir.current} + if dir.previous.Some? then {dir.previous.value} else {};
      var index := 0;
      k := 0;
      assert versions[..0] == [];
      while index < |versions|
        invariant 0 <= index <= |versions|
        invariant forall t :: t in protected <==> Protected(start, target, t)
        invariant k == |PruneWrites(start, target, versions[..index])|
        invariant dir.writes == old(dir.writes) + PruneWrites(start, target, versions[..index])
        invariant dir.View() == AfterWrites(start, PruneWrites(start, target, versions[..index]), k)
        invariant dir.View() == start.(installed := dir.installed) && dir.faults == old(dir.faults)
        invariant dir.current in dir.installed <==> start.current in start.installed
      {
        assert versions[..index + 1][..index] == versions[..index];
        if index >= RETAINED_VERSIONS && versions[index] !in protected {
          var removed := dir.Uninstall(versions[index]);
          if !removed {
            PruneWritesPrefix(start, target, versions, index);
            return false, k;
          }
          k := k + 1;
        }
        index := index + 1;
      }
      assert versions[..index] == versions;
      return true, k;
    }

    static lemma {:induction false} PruneWritesPrefix(d: Disk, target: Target, order: seq<Target>, i: nat)
      requires i <= |order|
      ensures PruneWrites(d, target, order[..i]) <= PruneWrites(d, target, order)
      decreases |order|
    {
      if i < |order| {
        PruneWritesPrefix(d, target, order[..|order| - 1], i);
        assert order[..|order| - 1][..i] == order[..i];
      } else {
        assert order[..i] == order;
      }
    }

    method RemoveTerminalStates() returns (ok: bool, ghost k: nat)
      modifies dir
      ensures k <= 2 && (ok ==> k == 2) && (ok <==> dir.faults == old(dir.faults))
      ensures var d := old(dir.View());
              var w := [d.(confirmed := None), d.(confirmed := None, failed := None)];
              dir.writes == old(dir.writes) + w[..k] && dir.View() == AfterWrites(d, w, k)
    {
      ok := dir.PutConfirmed(None);
      if !ok {
        return false, 0;
      }
      ok := dir.RemoveFailed();
      k := if ok then 2 else 1;
    }

    // The half of Prepare under the lock. Whichever write fails, what has been written is a
    // prefix of ActivateWrites; a failed switch is answered by deleting the pending record,
    // and whether that deletion succeeds is not looked at.
    method Activate(command: Id, target: Target, version: Id, now: int)
      returns (p: Preparation, ghost switch: Switch, ghost k: nat)
      modifies dir
      ensures !switch.SwitchedUnsynced? && p in {Restart, AlreadyActivated, Failure(NotFound)}
      ensures var w := ActivateWrites(old(dir.View()), command, target, version, now, switch);
              && k <= |w|
              && dir.writes == old(dir.writes) + w[..k]
              && dir.View() == AfterWrites(old(dir.View()), w, k)
              && (p == Restart <==> switch == Switched && k == |w| == 5)
              && (p == AlreadyActivated <==> k == |w| == 3)
      ensures dir.current != old(dir.current) ==> p == Restart
      ensures p.Failure? <==> old(dir.pending).Some? || old(dir.current !in dir.installed) || dir.faults != old(dir.faults)
      ensures p == AlreadyActivated ==> old(dir.current) == target
      ensures p == Restart ==> old(dir.current) != target
    {
      switch, k := Switched, 0;
      if dir.pending.Some? || dir.current !in dir.installed {
        return Failure(NotFound), switch, k;
      }
      var state := Record(command, dir.current, target, version, now);
      if dir.current == target {
        p, k := Adopt(state);
      } else {
        p, switch, k := SwitchTo(state);
      }
    }

    // The target is current already: it counts as confirmed.
    method Adopt(state: Record) returns (p: Preparation, ghost k: nat)
      modifies dir
      ensures k <= 3 && p == if k == 3 then AlreadyActivated else Failure(NotFound)
      ensures k == 3 <==> dir.faults == old(dir.faults)
      ensures var d := old(dir.View());
              var d2 := d.(confirmed := None, failed := None);
              var w := [d.(confirmed := None), d2, d2.(confirmed := Some(state))];
              dir.writes == old(dir.writes) + w[..k] && dir.View() == AfterWrites(d, w, k)
    {
      var ok;
      ok, k := RemoveTerminalStates();
      if !ok {
        return Failure(NotFound), k;
      }
      ok := dir.PutConfirmed(Some(state));
      return if ok then AlreadyActivated else Failure(NotFound), if ok then 3 else 2;
    }

    method SwitchTo(state: Record) returns (p: Preparation, ghost switch: Switch, ghost k: nat)
      requires dir.pending == None && dir.current in dir.installed && state.previous == dir.current != state.target
      modifies dir
      ensures !switch.SwitchedUnsynced?
      ensures var w := ActivateWrites(old(dir.View()), state.command, state.target, state.version, state.startedAt, switch);
              && k <= |w| == 5
              && dir.writes == old(dir.writes) + w[..k]
              && dir.View() == AfterWrites(old(dir.View()), w, k)
              && p == if switch == Switched && k == 5 then Restart else Failure(NotFound)
      ensures p == Restart <==> dir.faults == old(dir.faults)
    {
      switch, k := Switched, 0;
      var ok := dir.LinkPrevious(state.previous);
      if !ok {
        return Failure(NotFound), switch, k;
      }
      ok, k := RemoveTerminalStates();
      k := k + 1;
      if !ok {
        return Failure(NotFound), switch, k;
      }
      ok := dir.PutPending(Some(state));
      if !ok {
        return Failure(NotFound), switch, k;
      }
      k := 4;
      ok := dir.LinkCurrent(state.target);
      if !ok {
        switch := NotSwitched;
        ok := dir.PutPending(None);
        return Failure(NotFound), switch, if ok then 5 else 4;
      }
      return Restart, switch, 5;
    }

    // `release` is the target named by the downloaded and verified manifest, if any, and
    // `versions` the installed versions once it is among them, from the newest to the oldest.
    // Whichever write fails, what has been written is what a legal run of the system writes.
    method Prepare(command: Id, version: Id, runningVersion: Id, release: Option<Target>, versions: seq<Target>, now: int,
                   ghost w: System.World)
      returns (p: Preparation, ghost acts: seq<System.Action>)
      requires IsExecuting(w, dir.View(), command, version, runningVersion)
      requires release.Some? && release.value.version == version ==>
                 NamesOneBinary(w, release.value) && Enumerates(versions, dir.installed + {release.value})
      modifies dir
      ensures System.Legal(w, acts) && IsExecuting(System.After(w, acts), dir.View(), command, version, runningVersion)
      ensures dir.writes == old(dir.writes) + System.Written(w, acts)
      ensures var observed := UpdateModel.Observe(old(dir.View()), command, version);
              && (observed == Activated ==> p == AlreadyActivated)
              && (observed == ActivationPending ==> p == if runningVersion != version then Restart else StillPending)
              && (p == StillPending ==> observed == ActivationPending)
              && (observed == ActivationFailed || observed == StateConflict ==> p == Failure(observed))
              && (observed != NotFound ==> acts == [] && dir.View() == old(dir.View()))
              && (observed == NotFound && p == AlreadyActivated ==> Names(dir.confirmed, command, version) && dir.pending == None)
              && (observed == NotFound && p == Restart ==>
                    Names(dir.pending, command, version) && release == Some(dir.current)
                    && dir.previous == Some(old(dir.current)) && dir.pending.value.previous == old(dir.current))
              && (observed == NotFound && dir.current != old(dir.current) ==> p == Restart)
              && (observed == NotFound ==>
                    (p.Failure? <==>
                       IsNoRelease(release, version) || CannotDeploy(old(dir.View()), release.value) || dir.faults != old(dir.faults)))
              && (observed == NotFound && p.Failure? ==>
                    p == Failure(NotFound) && UpdateModel.Observe(dir.View(), command, version) in {NotFound, ActivationPending})
              && (observed == NotFound && !p.Failure? ==> p == if release == Some(old(dir.current)) then AlreadyActivated else Restart)
              && (IsNoRelease(release, version) ==> acts == [])
    {
      acts := [];
      var observed := Observe(command, version);
      match observed {
        case Activated => return AlreadyActivated, acts;
        case ActivationPending => return if runningVersion != version then Restart else StillPending, acts;
        case ActivationFailed => return Failure(ActivationFailed), acts;
        case StateConflict => return Failure(StateConflict), acts;
        case NotFound =>
      }
      if IsNoRelease(release, version) {
        return Failure(NotFound), acts;
      }
      p, acts := Deploy(command, version, runningVersion, release.value, versions, now, w);
    }

    // The rest of Prepare, for a verified release.
    method Deploy(command: Id, version: Id, runningVersion: Id, release: Target, versions: seq<Target>, now: int, ghost w: System.World)
      returns (p: Preparation, ghost acts: seq<System.Action>)
      requires IsExecuting(w, dir.View(), command, version, runningVersion)
      requires UpdateModel.Observe(dir.View(), command, version) == NotFound && release.version == version
      requires NamesOneBinary(w, release) && Enumerates(versions, dir.installed + {release})
      modifies dir
      ensures System.Legal(w, acts) && IsExecuting(System.After(w, acts), dir.View(), command, version, runningVersion)
      ensures dir.writes == old(dir.writes) + System.Written(w, acts)
      ensures p == AlreadyActivated ==> Names(dir.confirmed, command, version) && dir.pending == None
      ensures p == Restart ==>
                Names(dir.pending, command, version) && release == dir.current
                && dir.previous == Some(old(dir.current)) && dir.pending.value.previous == old(dir.current)
      ensures p == AlreadyActivated || p == Restart || p == Failure(NotFound)
      ensures p.Failure? <==> CannotDeploy(old(dir.View()), release) || dir.faults != old(dir.faults)
      ensures p.Failure? ==> UpdateModel.Observe(dir.View(), command, version) in {NotFound, ActivationPending}
      ensures !p.Failure? ==> p == if release == old(dir.current) then AlreadyActivated else Restart
      ensures dir.current != old(dir.current) ==> p == Restart
    {
      acts := [];
      var ok := dir.Install(release);
      if !ok {
        return Failure(NotFound), acts;
      }
      ghost var k: nat, switch: Switch;
      acts := InstallRun(w, command, release);
      ghost var installed := System.After(w, acts);
      ok, k := PruneVersions(release, versions);
      acts := PruneRun(w, acts, installed, versions, k, old(dir.writes));
      ghost var pruned := System.After(w, acts);
      if !ok {
        acts := GiveUpRun(w, acts, pruned);
        return Failure(NotFound), acts;
      }
      p, switch, k := Activate(command, release, version, now);
      ActivationIsOpen(pruned.disk, command, release, version, now, switch, k);
      acts := ActivateRun(w, acts, pruned, now, switch, k, old(dir.writes));
    }

    // Deploying that stops before its last write leaves nothing confirmed, and no failed
    // record of this command.
    static lemma ActivationIsOpen(d: Disk, command: Id, target: Target, version: Id, now: int, switch: Switch, k: nat)
      requires UpdateModel.Observe(d, command, version) == NotFound && k <= |ActivateWrites(d, command, target, version, now, switch)|
      ensures var d' := AfterWrites(d, ActivateWrites(d, command, target, version, now, switch), k);
              UpdateModel.Observe(d', command, version) in {NotFound, ActivationPending, Activated}
              && (UpdateModel.Observe(d', command, version) == Activated ==>
                    k == |ActivateWrites(d, command, target, version, now, switch)| == 3)
    {
    }

    // While Execute waits, the session thread may confirm.
    method WaitForStateChange(runningVersion: Id) returns (confirmed: bool)
      modifies dir, this`waits
      ensures waits == old(waits) + 1
      ensures confirmed ==> ConfirmWrites(old(dir.View()), runningVersion) != []
      ensures dir.writes == if confirmed then old(dir.writes) + ConfirmWrites(old(dir.View()), runningVersion) else old(dir.writes)
      ensures dir.View() == if confirmed then ConfirmWrites(old(dir.View()), runningVersion)[0] else old(dir.View())
    {
      confirmed, waits := false, waits + 1;
      var heartbeat: bool := *;
      if heartbeat {
        var done, _ := Confirm(runningVersion);
        confirmed := done;
      }
    }

    // A new version waits, at most until its deadline, for a heartbeat to confirm it; the
    // deadline bounds the number of times it is woken. Whenever it gives up, the record is
    // still pending, so that the launcher will roll back.
    method AwaitActivation(runningVersion: Id, wakes: nat, stopped: bool) returns (a: Awaited)
      modifies dir, this`waits
      ensures a == TimedOut ==> waits == old(waits) + wakes && !stopped
      ensures a == Healthy ==>
                old(dir.pending) == None || stopped
                || (dir.pending == None && dir.confirmed == old(dir.pending) && old(dir.pending).value.target == dir.current)
      ensures a == Mismatched <==>
                old(dir.pending).Some?
                && (old(dir.pending).value.version != runningVersion || old(dir.pending).value.target != old(dir.current))
      ensures a != Healthy ==> dir.View() == old(dir.View()) && dir.pending.Some?
    {
      if dir.pending == None { return Healthy; }
      var pending := dir.pending.value;
      if pending.version != runningVersion || dir.current != pending.target { return Mismatched; }
      var left := wakes;
      while true
        invariant dir.View() == old(dir.View())
                  || (dir.View() == old(dir.View()).(pending := None, confirmed := old(dir.pending)))
        invariant waits + left == old(waits) + wakes
        decreases left
      {
        var observed := Observe(pending.command, pending.version);
        if observed == Activated { return Healthy; }
        // No launcher runs beside the Agent, so nothing else can have been observed.
        assert observed == ActivationPending;
        if left == 0 { return if stopped then Healthy else TimedOut; }
        left := left - 1;
        var _ := WaitForStateChange(runningVersion);
      }
    }
  }

  datatype Awaited = Healthy | Mismatched | TimedOut

  datatype Execution = Output | Problem(retryable: bool) | RestartExecution

  // Executor.Execute. The command's deadline bounds the number of times it is woken while
  // waiting for the confirmation. All it writes, and the session beside it, is what a legal
  // run of the system writes, and its result is one the system may conclude with.
  method Execute(manager: Manager, command: Id, version: Id, runningVersion: Id,
                 release: Option<Target>, versions: seq<Target>, now: int, wakes: nat, ghost w: System.World)
    returns (e: Execution, ghost acts: seq<System.Action>)
    requires IsExecuting(w, manager.dir.View(), command, version, runningVersion)
    requires release.Some? && release.value.version == version ==>
               NamesOneBinary(w, release.value) && Enumerates(versions, manager.dir.installed + {release.value})
    modifies manager.dir, manager`waits
    ensures System.Legal(w, acts)
    ensures IsExecuting(System.After(w, acts), manager.dir.View(), command, version, runningVersion)
    ensures manager.dir.writes == old(manager.dir.writes) + System.Written(w, acts)
    ensures e == Output ==> forall outcome :: System.Enabled(System.After(w, acts), System.Conclude(command, outcome))
    ensures e == Output <==> UpdateModel.Observe(manager.dir.View(), command, version) == Activated
    ensures e == Problem(false) <==>
              UpdateModel.Observe(manager.dir.View(), command, version) in {ActivationFailed, StateConflict}
    ensures e == RestartExecution ==> UpdateModel.Observe(manager.dir.View(), command, version) == ActivationPending
    ensures var observed := UpdateModel.Observe(old(manager.dir.View()), command, version);
            && (observed in {Activated, ActivationFailed, StateConflict} ==> acts == [] && e != RestartExecution)
            && (observed == ActivationPending && runningVersion != version ==> acts == [] && e == RestartExecution)
            && (observed == ActivationPending && runningVersion == version && e == RestartExecution ==>
                  manager.waits == old(manager.waits) + wakes)
            && (observed != NotFound ==>
                  manager.dir.current == old(manager.dir.current) && manager.dir.installed == old(manager.dir.installed))
            && (e == Problem(true) <==>
                  observed == NotFound
                  && (IsNoRelease(release, version) || CannotDeploy(old(manager.dir.View()), release.value)
                      || manager.dir.faults != old(manager.dir.faults)))
            && (observed == NotFound && e != Problem(true) ==>
                  e == if release == Some(old(manager.dir.current)) then Output else RestartExecution)
    ensures manager.dir.current != old(manager.dir.current) ==> e == RestartExecution
  {
    var left := wakes;
    var prepared := false;
    ghost var dir := manager.dir;
    acts := [];
    while true
      invariant System.Legal(w, acts) && IsExecuting(System.After(w, acts), dir.View(), command, version, runningVersion)
      invariant dir.writes == old(dir.writes) + System.Written(w, acts)
      invariant dir.current == old(dir.current)
      invariant !prepared ==> System.After(w, acts).seen == w.seen && dir.installed == old(dir.installed)
      invariant !prepared && acts == [] ==> dir.View() == old(dir.View())
      invariant !prepared && acts != [] ==>
                  UpdateModel.Observe(old(dir.View()), command, version) == ActivationPending && runningVersion == version
                  && UpdateModel.Observe(dir.View(), command, version) == Activated
      invariant !prepared && UpdateModel.Observe(old(dir.View()), command, version) != ActivationPending ==>
                  left == wakes && dir.faults == old(dir.faults)
      invariant manager.waits + left == old(manager.waits) + wakes
      invariant prepared ==>
                  UpdateModel.Observe(old(dir.View()), command, version) == NotFound
                  && UpdateModel.Observe(dir.View(), command, version) == Activated
                  && !IsNoRelease(release, version) && !CannotDeploy(old(dir.View()), release.value) && dir.faults == old(dir.faults)
                  && release == Some(old(dir.current))
      decreases !prepared, left
    {
      var observed := manager.Observe(command, version);
      match observed {
        case Activated =>
          return Output, acts;
        case ActivationFailed =>
          return Problem(false), acts;
        case StateConflict =>
          return Problem(false), acts;
        case ActivationPending =>
          if runningVersion != version || left == 0 {
            return RestartExecution, acts;
          }
          left := left - 1;
          var confirmed := manager.WaitForStateChange(runningVersion);
          if confirmed { acts := HeartbeatRun(w, acts, dir.View(), old(dir.writes)); }
        case NotFound =>
          var p;
          ghost var more;
          ghost var v := System.After(w, acts);
          p, more := manager.Prepare(command, version, runningVersion, release, versions, now, v);
          System.Join(w, acts, more);
          System.Associates(old(dir.writes), System.Written(w, acts), System.Written(v, more));
          acts := acts + more;
          match p {
            case Failure(_) => return Problem(true), acts;
            case Restart => return RestartExecution, acts;
            case AlreadyActivated => prepared := true;
            case StillPending => assert false;
          }
      }
    }
  }

  // ---- The runs behind the writes ----

  lemma InstallRun(w: System.World, command: Id, release: Target) returns (acts: seq<System.Action>)
    requires System.Enabled(w, System.Begin(command)) && w.commands[command].command.version == release.version
    requires NamesOneBinary(w, release)
    ensures System.Legal(w, acts) && System.Written(w, acts) == [w.disk.(installed := w.disk.installed + {release})]
    ensures System.After(w, acts) == w.(
              agent := w.agent.(job := Some(System.Job(command, release.version, Some(release)))),
              disk := w.disk.(installed := w.disk.installed + {release}), seen := w.seen + {release})
  {
    System.ExtendWritten(w, [], System.Begin(command));
    var begun := [System.Begin(command)];
    assert [] + [System.Begin(command)] == begun;
    System.ExtendWritten(w, begun, System.Install(release));
    acts := begun + [System.Install(release)];
  }

  lemma PruneRun(w: System.World, acts: seq<System.Action>, v: System.World, versions: seq<Target>, k: nat, base: seq<Disk>)
    returns (acts': seq<System.Action>)
    requires System.Legal(w, acts) && v == System.After(w, acts) && System.Enabled(v, System.Prune(versions, k))
    ensures System.Legal(w, acts')
    ensures var writes := PruneWrites(v.disk, v.agent.job.value.target.value, versions);
            && base + System.Written(w, acts') == base + System.Written(w, acts) + writes[..k]
            && System.After(w, acts') == v.(disk := AfterWrites(v.disk, writes, k))
  {
    System.ExtendWritten(w, acts, System.Prune(versions, k));
    System.Associates(base, System.Written(w, acts), System.WritesOf(v, System.Prune(versions, k)));
    acts' := acts + [System.Prune(versions, k)];
  }

  lemma GiveUpRun(w: System.World, acts: seq<System.Action>, v: System.World) returns (acts': seq<System.Action>)
    requires System.Legal(w, acts) && v == System.After(w, acts) && System.Enabled(v, System.GiveUp)
    ensures System.Legal(w, acts') && System.Written(w, acts') == System.Written(w, acts)
    ensures System.After(w, acts') == v.(agent := v.agent.(job := None))
  {
    System.ExtendWritten(w, acts, System.GiveUp);
    acts' := acts + [System.GiveUp];
  }

  lemma ActivateRun(w: System.World, acts: seq<System.Action>, v: System.World, now: int, switch: Switch, k: nat, base: seq<Disk>)
    returns (acts': seq<System.Action>)
    requires System.Legal(w, acts) && v == System.After(w, acts) && System.Enabled(v, System.Activate(now, switch, k))
    ensures System.Legal(w, acts')
    ensures var writes := System.JobWrites(v, now, switch);
            && base + System.Written(w, acts') == base + System.Written(w, acts) + writes[..k]
            && System.After(w, acts') == v.(disk := AfterWrites(v.disk, writes, k), agent := v.agent.(job := None),
                                           switches := System.After(w, acts').switches)
  {
    System.ExtendWritten(w, acts, System.Activate(now, switch, k));
    System.Associates(base, System.Written(w, acts), System.WritesOf(v, System.Activate(now, switch, k)));
    acts' := acts + [System.Activate(now, switch, k)];
  }

  lemma HeartbeatRun(w: System.World, acts: seq<System.Action>, d: Disk, base: seq<Disk>) returns (acts': seq<System.Action>)
    requires System.Legal(w, acts) && System.Enabled(System.After(w, acts), System.Heartbeat)
    requires var v := System.After(w, acts);
             var writes := ConfirmWrites(v.disk, v.agent.binary.version);
             writes != [] && d == writes[0]
    ensures System.Legal(w, acts')
    ensures var v := System.After(w, acts);
            && base + System.Written(w, acts') == base + System.Written(w, acts) + ConfirmWrites(v.disk, v.agent.binary.version)
            && System.After(w, acts') == v.(disk := d, good := v.good + {v.agent.binary})
  {
    System.ExtendWritten(w, acts, System.Heartbeat);
    System.Associates(base, System.Written(w, acts), System.WritesOf(System.After(w, acts), System.Heartbeat));
    acts' := acts + [System.Heartbeat];
  }

  datatype LauncherStep = RunNext | ExitWith(status: int)

  // One turn of the launcher's loop after its child ended. The result of the last rename is
  // not looked at.
  method AfterChild(dir: StateDirectory, launched: Target, status: int, ghost w: System.World)
    returns (step: LauncherStep, ghost k: nat)
    requires w.disk == dir.View() && w.agent.Running? && w.agent.binary == launched
    modifies dir
    ensures System.Enabled(w, System.Exit(status, k)) && System.Step(w, System.Exit(status, k)).disk == dir.View()
    ensures dir.writes == old(dir.writes) + System.WritesOf(w, System.Exit(status, k))
    ensures var w := LauncherWrites(old(dir.View()), launched, status);
            && k <= |w|
            && dir.writes == old(dir.writes) + w[..k]
            && dir.View() == AfterWrites(old(dir.View()), w, k)
            && (step == RunNext ==> old(dir.pending).Some? && (w != [] ==> k >= 1))
            && (step != RunNext ==> step == ExitWith(status) && k == 0)
    ensures old(dir.pending).Some? && status == RESTART_STATUS && old(dir.current) != launched ==>
              step == RunNext && dir.View() == old(dir.View())
    ensures dir.faults == old(dir.faults) ==>
              k == |LauncherWrites(old(dir.View()), launched, status)|
              && (step == RunNext <==>
                    old(dir.pending).Some?
                    && (old(dir.previous).Some? || (status == RESTART_STATUS && old(dir.current) != launched)))
  {
    k := 0;
    if dir.pending == None {
      return ExitWith(status), k;
    }
    if status == RESTART_STATUS && dir.current != launched {
      return RunNext, k;
    }
    if dir.previous == None {
      return ExitWith(status), k;
    }
    var ok := dir.LinkCurrent(dir.previous.value);
    if !ok {
      return ExitWith(status), k;
    }
    ok := dir.RenamePendingToFailed();
    return RunNext, if ok then 2 else 1;
  }
}
