// The durable state of self-update (two symbolic links, three record files and the
// installed versions) and the sequences of writes that the Agent and its launcher make to
// it (internal/update/manager.go, deploy/relayward-agent-launcher).
//
// An operation is given by the states of the disk after each of its writes; a crash, a
// power loss or a failing system call leaves the disk in one of them, or as it was.
module UpdateModel {
  import opened Prelude

  // The managed path versions/<version>-<sha256>/relayward-agent.
  datatype Target = Target(version: Id, digest: Id)

  // An update record; startedAt is its start time.
  datatype Record = Record(command: Id, previous: Target, target: Target, version: Id, startedAt: int)

  datatype Disk = Disk(
    current: Target,
    previous: Option<Target>,
    pending: Option<Record>,
    confirmed: Option<Record>,
    failed: Option<Record>,
    installed: set<Target>)

  datatype Observation = Activated | ActivationPending | ActivationFailed | StateConflict | NotFound

  const RETAINED_VERSIONS: nat := 3
  const RESTART_STATUS: int := 75

  predicate Names(r: Option<Record>, command: Id, version: Id) {
    r.Some? && r.value.command == command && r.value.version == version
  }

  // Manager.Observe: the pending record is looked at first, and one that belongs to another
  // command is a conflict; the two terminal records only count for their own command.
  function Observe(d: Disk, command: Id, version: Id): Observation {
    if d.pending.Some? then
      if Names(d.pending, command, version) then ActivationPending else StateConflict
    else if Names(d.confirmed, command, version) then Activated
    else if Names(d.failed, command, version) then ActivationFailed
    else NotFound
  }

  // The state after the first k of a sequence of writes.
  function AfterWrites(d: Disk, writes: seq<Disk>, k: nat): Disk
    requires k <= |writes|
  {
    if k == 0 then d else writes[k - 1]
  }

  // ---- pruneVersions ----

  predicate Protected(d: Disk, target: Target, t: Target) {
    t == target || t == d.current || d.previous == Some(t)
  }

  predicate Prunable(d: Disk, target: Target, order: seq<Target>, i: nat)
    requires i < |order|
  {
    i >= RETAINED_VERSIONS && !Protected(d, target, order[i])
  }

  // The removals, given the installed versions from the newest to the oldest.
  function PruneWrites(d: Disk, target: Target, order: seq<Target>): (writes: seq<Disk>)
    decreases |order|
  {
    if order == [] then []
    else
      var writes := PruneWrites(d, target, order[..|order| - 1]);
      if Prunable(d, target, order, |order| - 1) then
        writes + [AfterWrites(d, writes, |writes|).(installed := AfterWrites(d, writes, |writes|).installed - {order[|order| - 1]})]
      else writes
  }

  lemma {:induction false} PruneOfFewIsNothing(d: Disk, target: Target, order: seq<Target>)
    requires |order| <= RETAINED_VERSIONS
    ensures PruneWrites(d, target, order) == []
    decreases |order|
  {
    if order != [] {
      PruneOfFewIsNothing(d, target, order[..|order| - 1]);
    }
  }

  // Pruning touches nothing but the installed versions, and removes neither what a link
  // names, nor the version being installed, nor one of the three newest.
  lemma {:induction false} PruneKeepsProtected(d: Disk, target: Target, order: seq<Target>, k: nat)
    requires forall i, j :: 0 <= i < j < |order| ==> order[i] != order[j]
    requires k <= |PruneWrites(d, target, order)|
    ensures var d' := AfterWrites(d, PruneWrites(d, target, order), k);
            && d'.installed <= d.installed
            && d' == d.(installed := d'.installed)
            && forall t :: t in d.installed && t !in d'.installed ==>
                 !Protected(d, target, t) && forall i :: 0 <= i < |order| && i < RETAINED_VERSIONS ==> order[i] != t
    decreases |order|
  {
    if order != [] {
      var front := order[..|order| - 1];
      var writes := PruneWrites(d, target, front);
      PruneKeepsProtected(d, target, front, if k <= |writes| then k else |writes|);
      assert forall i :: 0 <= i < |front| ==> front[i] == order[i];
      if k <= |writes| {
        assert AfterWrites(d, PruneWrites(d, target, order), k) == AfterWrites(d, writes, k);
        if |order| <= RETAINED_VERSIONS {
          assert PruneWrites(d, target, order) == writes;
          PruneOfFewIsNothing(d, target, order);
        }
      }
    }
  }

  // ---- The second half of Prepare, under the manager's lock ----

  // How switching `current` ends. The symbolic link is replaced by a rename followed by a
  // directory sync, and Prepare cannot tell which of the two failed.
  datatype Switch = Switched | NotSwitched | SwitchedUnsynced

  function NewRecord(d: Disk, command: Id, target: Target, version: Id, now: int): Record {
    Record(command, d.current, target, version, now)
  }

  function ActivateWrites(d: Disk, command: Id, target: Target, version: Id, now: int, switch: Switch): seq<Disk> {
    if d.pending.Some? || d.current !in d.installed then []
    else
      var r := NewRecord(d, command, target, version, now);
      if d.current == target then
        var d1 := d.(confirmed := None);
        var d2 := d1.(failed := None);
        [d1, d2, d2.(confirmed := Some(r))]
      else
        var d1 := d.(previous := Some(d.current));
        var d2 := d1.(confirmed := None);
        var d3 := d2.(failed := None);
        var d4 := d3.(pending := Some(r));
        var d5 := d4.(current := target);
        match switch
        case Switched => [d1, d2, d3, d4, d5]
        case NotSwitched => [d1, d2, d3, d4, d4.(pending := None)]
        case SwitchedUnsynced => [d1, d2, d3, d4, d5, d5.(pending := None)]
  }

  // ---- Confirm ----

  // One rename turns the pending record into the confirmed one.
  function ConfirmWrites(d: Disk, runningVersion: Id): seq<Disk> {
    if d.pending.Some? && d.pending.value.version == runningVersion && d.current == d.pending.value.target then
      [d.(pending := None, confirmed := d.pending)]
    else []
  }

  // ---- The launcher ----

  // After the child it launched from `launched` ends with `status`: a hand-over to a newly
  // switched target writes nothing, and every other end with a pending record rolls back.
  function LauncherWrites(d: Disk, launched: Target, status: int): seq<Disk> {
    if d.pending == None then []
    else if status == RESTART_STATUS && d.current != launched then []
    else if d.previous == None then []
    else
      var d1 := d.(current := d.previous.value);
      [d1, d1.(failed := d.pending, pending := None)]
  }

  // ---- Exact conditions ----

  // After a complete switch made by the binary that `current` named, that outgoing binary
  // can still confirm the update itself exactly when it reports the target's version: that
  // a version names one binary is what makes a confirmation speak for the candidate.
  lemma OutgoingBinaryConfirms(d: Disk, command: Id, target: Target, now: int)
    requires d.pending == None && d.current in d.installed && d.current != target
    ensures var writes := ActivateWrites(d, command, target, target.version, now, Switched);
            && |writes| == 5
            && (ConfirmWrites(writes[4], d.current.version) != [] <==> d.current.version == target.version)
  {
  }

  // A crash at any point of a roll-back is repaired by the next one: whatever prefix of its
  // writes was made, running the launcher's writes again ends in the same state.
  lemma RollbackIsRestartable(d: Disk, launched: Target, again: Target, status: int, k: nat)
    requires LauncherWrites(d, launched, status) != []
    requires k < |LauncherWrites(d, launched, status)|
    ensures var writes := LauncherWrites(d, launched, status);
            var crashed := AfterWrites(d, writes, k);
            var redo := LauncherWrites(crashed, again, 1);
            && |redo| == 2
            && redo[1] == writes[1]
            && redo[1].pending == None && redo[1].failed == d.pending && Some(redo[1].current) == d.previous
  {
  }
}
