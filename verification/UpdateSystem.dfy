// All runs of self-update: the Agent's command processor and heartbeat, the launcher, and
// power losses, with a crash possible after every write.
module UpdateSystem {
  import opened Prelude
  import opened UpdateModel
  import Commands = CommandStore

  // The update being prepared: its target is known once it has been installed.
  datatype Job = Job(command: Id, version: Id, target: Option<Target>)

  // An execution that has ended, whose result is not stored yet.
  datatype Done = Done(id: Id, command: Commands.Command, outcome: Commands.Outcome)

  datatype Agent = Down | Running(binary: Target, job: Option<Job>, done: Option<Done>)

  // The last four fields record what has happened and are not state of the program: the
  // latest receive time, every target ever named, the targets that started as current or
  // were confirmed by a heartbeat, and how often each accepted command moved `current`.
  datatype World = World(
    disk: Disk,
    agent: Agent,
    commands: Commands.Records,
    clock: int,
    seen: set<Target>,
    good: set<Target>,
    switches: map<Id, nat>)

  datatype Action =
    | Start                                                        // the launcher runs `current`
    | Accept(id: Id, command: Commands.Command, at: int)
    | Begin(id: Id)                                                // Execute finds no record and prepares
    | Install(target: Target)
    | Prune(order: seq<Target>, writes: nat)
    | Activate(startedAt: int, switch: Switch, writes: nat)
    | GiveUp                                                       // Prepare returns an error
    | Heartbeat                                                    // an acknowledged heartbeat confirms
    | Conclude(id: Id, outcome: Commands.Outcome)                  // Execute returns a result
    | Finish                                                       // the processor stores it
    | AcknowledgeResult(id: Id, at: int)
    | Cleanup(at: int, walked: set<Id>)
    | Exit(status: int, writes: nat)                               // the Agent ends, the launcher reacts
    | PowerLoss                                                    // also a signal to the launcher

  function Count(w: World, id: Id): nat {
    if id in w.switches then w.switches[id] else 0
  }

  ghost predicate Enabled(w: World, a: Action) {
    match a
    case Start => w.agent.Down?
    case Accept(id, command, at) =>
      // Receive times strictly increase.
      w.agent.Running? && at > w.clock
    case Begin(id) =>
      && w.agent.Running? && w.agent.job == None && w.agent.done == None
      && Commands.IsFirst(w.commands, Commands.Pending, id)
      && w.commands[id].command.AgentUpdate?
      && Observe(w.disk, id, w.commands[id].command.version) == NotFound
    case Install(target) =>
      && w.agent.Running? && w.agent.job.Some? && w.agent.job.value.target == None
      && target.version == w.agent.job.value.version
      // A version names one binary.
      && forall t :: t in w.seen && t.version == target.version ==> t == target
    case Prune(order, writes) =>
      && w.agent.Running? && w.agent.job.Some? && w.agent.job.value.target.Some?
      && Enumerates(order, w.disk.installed)
      && writes <= |PruneWrites(w.disk, w.agent.job.value.target.value, order)|
    case Activate(startedAt, switch, writes) =>
      && w.agent.Running? && w.agent.job.Some? && w.agent.job.value.target.Some?
      // A rename and the sync that follows it are one step.
      && !switch.SwitchedUnsynced?
      && writes <= |JobWrites(w, startedAt, switch)|
    case GiveUp => w.agent.Running? && w.agent.job.Some?
    case Heartbeat => w.agent.Running?
    case Conclude(id, outcome) =>
      && w.agent.Running? && w.agent.job == None && w.agent.done == None
      && Commands.IsFirst(w.commands, Commands.Pending, id)
      // The executor of updates returns an output when it observes the activation.
      && (outcome.Succeeded? && w.commands[id].command.AgentUpdate? ==>
            Observe(w.disk, id, w.commands[id].command.version) == Activated)
    case Finish => w.agent.Running? && w.agent.done.Some?
    case AcknowledgeResult(id, at) => w.agent.Running?
    case Cleanup(at, walked) => w.agent.Running?
    case Exit(status, writes) =>
      w.agent.Running? && writes <= |LauncherWrites(w.disk, w.agent.binary, status)|
    case PowerLoss => true
  }

  function JobWrites(w: World, startedAt: int, switch: Switch): seq<Disk>
    requires w.agent.Running? && w.agent.job.Some? && w.agent.job.value.target.Some?
  {
    var job := w.agent.job.value;
    ActivateWrites(w.disk, job.command, job.target.value, job.version, startedAt, switch)
  }

  ghost function Step(w: World, a: Action): World
    requires Enabled(w, a)
  {
    match a
    case Start => w.(agent := Running(w.disk.current, None, None))
    case Accept(id, command, at) =>
      w.(commands := Commands.Apply(w.commands, Commands.AcceptOp(id, command, at)),
         clock := at,
         switches := if id in w.commands then w.switches else w.switches[id := 0])
    case Begin(id) =>
      w.(agent := w.agent.(job := Some(Job(id, w.commands[id].command.version, None))))
    case Install(target) =>
      w.(agent := w.agent.(job := Some(w.agent.job.value.(target := Some(target)))),
         disk := w.disk.(installed := w.disk.installed + {target}),
         seen := w.seen + {target})
    case Prune(order, writes) =>
      w.(disk := AfterWrites(w.disk, PruneWrites(w.disk, w.agent.job.value.target.value, order), writes))
    case Activate(startedAt, switch, writes) =>
      var d := AfterWrites(w.disk, JobWrites(w, startedAt, switch), writes);
      var id := w.agent.job.value.command;
      w.(disk := d,
         agent := w.agent.(job := None),
         switches := if d.current != w.disk.current then w.switches[id := Count(w, id) + 1] else w.switches)
    case GiveUp => w.(agent := w.agent.(job := None))
    case Heartbeat =>
      var writes := ConfirmWrites(w.disk, w.agent.binary.version);
      w.(disk := AfterWrites(w.disk, writes, |writes|),
         good := if writes == [] then w.good else w.good + {w.agent.binary})
    case Conclude(id, outcome) =>
      w.(agent := w.agent.(done := Some(Done(id, w.commands[id].command, outcome))))
    case Finish =>
      var d := w.agent.done.value;
      w.(commands := Commands.Apply(w.commands, Commands.CompleteOp(d.id, d.command, d.outcome)),
         agent := w.agent.(done := None))
    case AcknowledgeResult(id, at) =>
      w.(commands := if id in w.commands
                     then Commands.Apply(w.commands, Commands.AcknowledgeOp(id, w.commands[id].command, at))
                     else w.commands)
    case Cleanup(at, walked) => w.(commands := Commands.Apply(w.commands, Commands.CleanupOp(at, walked)))
    case Exit(status, writes) =>
      w.(disk := AfterWrites(w.disk, LauncherWrites(w.disk, w.agent.binary, status), writes), agent := Down)
    case PowerLoss => w.(agent := Down)
  }

  ghost predicate Legal(w: World, acts: seq<Action>)
    decreases |acts|, 0
  {
    acts == [] || (Legal(w, acts[..|acts| - 1]) && Enabled(After(w, acts[..|acts| - 1]), acts[|acts| - 1]))
  }

  ghost function After(w: World, acts: seq<Action>): World
    requires Legal(w, acts)
    decreases |acts|, 1
  {
    if acts == [] then w else Step(After(w, acts[..|acts| - 1]), acts[|acts| - 1])
  }

  // A freshly installed node: one version, current, and no update ever asked for.
  ghost predicate Init(w: World) {
    && w.disk.pending == None && w.disk.confirmed == None && w.disk.failed == None
    && w.disk.previous == None
    && w.disk.installed == {w.disk.current}
    && w.agent == Down
    && w.commands == map[] && w.switches == map[]
    && w.seen == {w.disk.current} && w.good == {w.disk.current}
  }

  // ---- The invariant ----

  // Update safety. `good` is the set of targets known to work.
  ghost predicate DiskSafe(d: Disk, good: set<Target>) {
    && d.current in d.installed
    && (d.previous.Some? ==> d.previous.value in d.installed)
    && (d.pending == None ==> d.current in good)
    && (d.pending.Some? ==>
          var r := d.pending.value;
          && d.previous == Some(r.previous)
          && r.previous != r.target
          && (d.current == r.previous || d.current == r.target)
          && r.target in d.installed
          && r.previous in good
          && r.version == r.target.version
          && d.confirmed == None && d.failed == None)
    && (d.confirmed.Some? ==> d.confirmed.value.target in good && d.confirmed.value.version == d.confirmed.value.target.version)
  }

  ghost predicate TargetsKnown(w: World) {
    && w.disk.installed <= w.seen && w.good <= w.seen
    && (w.disk.pending.Some? ==> w.disk.pending.value.target in w.seen && w.disk.pending.value.previous in w.seen)
    && (w.agent.Running? ==> w.agent.binary in w.seen)
    && forall t, t' :: t in w.seen && t' in w.seen && t.version == t'.version ==> t == t'
  }

  ghost predicate Marked(d: Disk, id: Id, version: Id) {
    Names(d.pending, id, version) || Names(d.confirmed, id, version) || Names(d.failed, id, version)
  }

  // A command that has moved `current` and has no result yet is the next one to run, and
  // one of the record files says so.
  ghost predicate SwitchRecorded(w: World, id: Id) {
    && Commands.IsFirst(w.commands, Commands.Pending, id)
    && w.commands[id].command.AgentUpdate?
    && Marked(w.disk, id, w.commands[id].command.version)
  }

  ghost predicate HasSucceeded(r: Commands.Record) {
    r.command.AgentUpdate? && r.result.Some? && r.result.value.Succeeded?
  }

  // Some target of the version is known to work.
  ghost predicate Works(good: set<Target>, version: Id) {
    exists t :: t in good && t.version == version
  }

  ghost predicate CommandsSafe(w: World) {
    && Commands.ValidRecords(w.commands)
    && (forall id :: id in w.commands ==> w.commands[id].receivedAt <= w.clock)
    && (forall id :: id in w.switches ==> w.switches[id] <= 1)
    && (forall id :: id in w.commands && w.commands[id].state.Pending? && Count(w, id) == 1 ==> SwitchRecorded(w, id))
    && (forall id :: id in w.commands && HasSucceeded(w.commands[id]) ==> Works(w.good, w.commands[id].command.version))
  }

  ghost predicate JobSafe(w: World) {
    w.agent.Running? && w.agent.job.Some? ==>
      var job := w.agent.job.value;
      && w.disk.pending == None
      && Commands.IsFirst(w.commands, Commands.Pending, job.command)
      && w.commands[job.command].command.AgentUpdate? && w.commands[job.command].command.version == job.version
      && Count(w, job.command) == 0
      && (job.target.Some? ==> job.target.value in w.disk.installed && job.target.value.version == job.version)
  }

  // The record of this command and version is the confirmed one, and nothing is pending.
  ghost predicate IsConfirmed(d: Disk, id: Id, version: Id) {
    Names(d.confirmed, id, version) && d.pending == None
  }

  // Until its result is stored, a concluded command stays the first, and the activation
  // that a success reports stays confirmed.
  ghost predicate DoneSafe(w: World) {
    w.agent.Running? && w.agent.done.Some? ==>
      var d := w.agent.done.value;
      && w.agent.job == None
      && Commands.IsFirst(w.commands, Commands.Pending, d.id) && w.commands[d.id].command == d.command
      && (d.outcome.Succeeded? && d.command.AgentUpdate? ==> IsConfirmed(w.disk, d.id, d.command.version))
  }

  ghost predicate Inv(w: World) {
    DiskSafe(w.disk, w.good) && TargetsKnown(w) && CommandsSafe(w) && JobSafe(w) && DoneSafe(w)
  }

  // ---- Every step keeps it ----

  // Only one command can be first, so while a job runs no other pending command has moved
  // `current`.
  lemma NoOtherSwitchPending(w: World, id: Id)
    requires CommandsSafe(w) && JobSafe(w) && w.agent.Running? && w.agent.job.Some?
    requires id in w.commands && w.commands[id].state.Pending?
    ensures Count(w, id) == 0
  {
    if Count(w, id) == 1 {
      Commands.FirstIsUnique(w.commands, Commands.Pending, id, w.agent.job.value.command);
    }
  }

  lemma AcceptKeeps(w: World, a: Action)
    requires Inv(w) && a.Accept? && Enabled(w, a)
    ensures Inv(Step(w, a))
  {
  }

  lemma PruneKeeps(w: World, a: Action)
    requires Inv(w) && a.Prune? && Enabled(w, a)
    ensures Inv(Step(w, a))
  {
    PruneKeepsProtected(w.disk, w.agent.job.value.target.value, a.order, a.writes);
  }

  lemma ActivationIsSafe(d: Disk, good: set<Target>, command: Id, target: Target, startedAt: int, switch: Switch, k: nat)
    requires DiskSafe(d, good) && d.pending == None && target in d.installed && !switch.SwitchedUnsynced?
    requires k <= |ActivateWrites(d, command, target, target.version, startedAt, switch)|
    ensures var d' := AfterWrites(d, ActivateWrites(d, command, target, target.version, startedAt, switch), k);
            && DiskSafe(d', good)
            && d'.installed == d.installed
            && (d'.pending.Some? ==> d'.pending.value.target == target && d'.pending.value.previous == d.current)
            && (d'.current != d.current ==> Marked(d', command, target.version))
  {
  }

  lemma ActivateKeeps(w: World, a: Action)
    requires Inv(w) && a.Activate? && Enabled(w, a)
    ensures Inv(Step(w, a))
  {
    var job := w.agent.job.value;
    ActivationIsSafe(w.disk, w.good, job.command, job.target.value, a.startedAt, a.switch, a.writes);
    forall id | id in w.commands && w.commands[id].state.Pending?
      ensures Count(w, id) == 0
    {
      NoOtherSwitchPending(w, id);
    }
    assert CommandsSafe(Step(w, a));
  }

  // The confirming binary is the candidate: the version it reports is the pending one's,
  // and a version names one binary.
  lemma ConfirmedByTheCandidate(w: World)
    requires Inv(w) && w.agent.Running? && ConfirmWrites(w.disk, w.agent.binary.version) != []
    ensures w.disk.pending.Some? && w.agent.binary == w.disk.pending.value.target == w.disk.current
  {
  }

  lemma HeartbeatKeeps(w: World, a: Action)
    requires Inv(w) && a.Heartbeat? && Enabled(w, a)
    ensures Inv(Step(w, a))
  {
    if ConfirmWrites(w.disk, w.agent.binary.version) != [] {
      ConfirmedByTheCandidate(w);
    }
  }

  lemma FinishKeeps(w: World, a: Action)
    requires Inv(w) && a.Finish? && Enabled(w, a)
    ensures Inv(Step(w, a))
  {
    var w' := Step(w, a);
    var done := w.agent.done.value;
    forall id | id in w.commands && w.commands[id].state.Pending? && Count(w, id) == 1
      ensures id == done.id
    {
      Commands.FirstIsUnique(w.commands, Commands.Pending, id, done.id);
    }
  }

  lemma ConcludeKeeps(w: World, a: Action)
    requires Inv(w) && a.Conclude? && Enabled(w, a)
    ensures Inv(Step(w, a))
  {
  }

  lemma AcknowledgeKeeps(w: World, a: Action)
    requires Inv(w) && a.AcknowledgeResult? && Enabled(w, a)
    ensures Inv(Step(w, a))
  {
  }

  lemma CleanupKeeps(w: World, a: Action)
    requires Inv(w) && a.Cleanup? && Enabled(w, a)
    ensures Inv(Step(w, a))
  {
  }

  lemma PrepareKeeps(w: World, a: Action)
    requires Inv(w) && (a.Begin? || a.Install? || a.GiveUp?) && Enabled(w, a)
    ensures Inv(Step(w, a))
  {
  }

  lemma LauncherKeeps(w: World, a: Action)
    requires Inv(w) && (a.Start? || a.Exit? || a.PowerLoss?) && Enabled(w, a)
    ensures Inv(Step(w, a))
  {
  }

  lemma StepKeeps(w: World, a: Action)
    requires Inv(w) && Enabled(w, a)
    ensures Inv(Step(w, a))
  {
    if a.Accept? { AcceptKeeps(w, a); }
    if a.Begin? || a.Install? || a.GiveUp? { PrepareKeeps(w, a); }
    if a.Prune? { PruneKeeps(w, a); }
    if a.Activate? { ActivateKeeps(w, a); }
    if a.Heartbeat? { HeartbeatKeeps(w, a); }
    if a.Conclude? { ConcludeKeeps(w, a); }
    if a.Finish? { FinishKeeps(w, a); }
    if a.AcknowledgeResult? { AcknowledgeKeeps(w, a); }
    if a.Cleanup? { CleanupKeeps(w, a); }
    if a.Start? || a.Exit? || a.PowerLoss? { LauncherKeeps(w, a); }
  }

  lemma {:induction false} ReachableIsSafe(w: World, acts: seq<Action>)
    requires Init(w) && Legal(w, acts)
    ensures Inv(After(w, acts))
    decreases |acts|
  {
    if acts != [] {
      ReachableIsSafe(w, acts[..|acts| - 1]);
      StepKeeps(After(w, acts[..|acts| - 1]), acts[|acts| - 1]);
    }
  }

  // ---- What holds over every run ----

  // At every point of every run: while a record is pending, `previous` is its previous
  // target, `current` is its previous or its target, and both are installed; otherwise
  // `current` is the initial target or one whose own binary confirmed it.
  lemma UpdateSafety(w: World, acts: seq<Action>)
    requires Init(w) && Legal(w, acts)
    ensures var w' := After(w, acts);
            && (w'.disk.pending.Some? ==>
                  var r := w'.disk.pending.value;
                  && w'.disk.previous == Some(r.previous)
                  && (w'.disk.current == r.previous || w'.disk.current == r.target)
                  && r.previous in w'.disk.installed && r.target in w'.disk.installed
                  && r.previous in w'.good)
            && (w'.disk.pending == None ==> w'.disk.current in w'.good && w'.disk.current in w'.disk.installed)
  {
    ReachableIsSafe(w, acts);
  }

  // However often the Agent crashes and its command is run again, one accepted command
  // moves `current` at most once.
  lemma SwitchedAtMostOnce(w: World, acts: seq<Action>, id: Id)
    requires Init(w) && Legal(w, acts)
    ensures Count(After(w, acts), id) <= 1
  {
    ReachableIsSafe(w, acts);
  }

  // Whatever happens between the executor's observation and the storing of the result, a
  // success is stored only beside the confirmed record of that very command and version,
  // and the version it reports then runs from a target known to work.
  lemma SuccessIsConfirmed(w: World, acts: seq<Action>)
    requires Init(w) && Legal(w, acts) && Enabled(After(w, acts), Finish)
    ensures var w' := After(w, acts);
            var d := w'.agent.done.value;
            var r := Step(w', Finish).commands;
            && d.id in r && r[d.id].result == Some(d.outcome) && w'.commands[d.id].result == None
            && (d.outcome.Succeeded? && d.command.AgentUpdate? ==>
                  && Names(w'.disk.confirmed, d.id, d.command.version) && w'.disk.pending == None
                  && w'.disk.confirmed.value.target in w'.good && w'.disk.confirmed.value.target.version == d.command.version)
  {
    ReachableIsSafe(w, acts);
  }

  lemma StoredSuccessWorks(w: World, acts: seq<Action>, id: Id)
    requires Init(w) && Legal(w, acts)
    requires id in After(w, acts).commands && HasSucceeded(After(w, acts).commands[id])
    ensures Works(After(w, acts).good, After(w, acts).commands[id].command.version)
  {
    ReachableIsSafe(w, acts);
  }

  // If the running Agent ends while a record is pending and is not handing over, the
  // launcher's writes return to a target known to work and mark the update failed.
  lemma RollbackRestores(w: World, acts: seq<Action>, status: int)
    requires Init(w) && Legal(w, acts)
    requires After(w, acts).agent.Running? && After(w, acts).disk.pending.Some?
    requires status != RESTART_STATUS || After(w, acts).disk.current == After(w, acts).agent.binary
    ensures var w' := After(w, acts);
            var a := Exit(status, 2);
            && Enabled(w', a)
            && var d := Step(w', a).disk;
               && d.pending == None && d.failed == w'.disk.pending
               && d.current == w'.disk.pending.value.previous
               && d.current in w'.good && d.current in d.installed
  {
    ReachableIsSafe(w, acts);
  }

  // What an unsynced switch does to safety, exactly. Prepare answers a failed directory
  // sync after a successful rename by deleting the pending record; update safety survives
  // that unless the deletion is reached and the target was never known to work.
  lemma UnsyncedSwitch(w: World, startedAt: int, writes: nat)
    requires Inv(w) && w.agent.Running? && w.agent.job.Some? && w.agent.job.value.target.Some?
    requires w.disk.current != w.agent.job.value.target.value
    requires writes <= |JobWrites(w, startedAt, SwitchedUnsynced)|
    ensures DiskSafe(AfterWrites(w.disk, JobWrites(w, startedAt, SwitchedUnsynced), writes), w.good)
            <==> (writes < 6 || w.agent.job.value.target.value in w.good)
  {
  }

  // ---- What a run writes ----

  // The states of the disk that a step goes through.
  ghost function WritesOf(w: World, a: Action): seq<Disk>
    requires Enabled(w, a)
  {
    match a
    case Install(target) => [w.disk.(installed := w.disk.installed + {target})]
    case Prune(order, writes) => PruneWrites(w.disk, w.agent.job.value.target.value, order)[..writes]
    case Activate(startedAt, switch, writes) => JobWrites(w, startedAt, switch)[..writes]
    case Heartbeat => ConfirmWrites(w.disk, w.agent.binary.version)
    case Exit(status, writes) => LauncherWrites(w.disk, w.agent.binary, status)[..writes]
    case _ => []
  }

  ghost function Written(w: World, acts: seq<Action>): seq<Disk>
    requires Legal(w, acts)
    decreases |acts|
  {
    if acts == [] then []
    else Written(w, acts[..|acts| - 1]) + WritesOf(After(w, acts[..|acts| - 1]), acts[|acts| - 1])
  }

  // A step leaves the disk in the last of them.
  lemma StepLeavesLastWrite(w: World, a: Action)
    requires Enabled(w, a)
    ensures Step(w, a).disk == AfterWrites(w.disk, WritesOf(w, a), |WritesOf(w, a)|)
  {
  }

  lemma Extend(w: World, acts: seq<Action>, a: Action)
    requires Legal(w, acts) && Enabled(After(w, acts), a)
    ensures Legal(w, acts + [a]) && After(w, acts + [a]) == Step(After(w, acts), a)
  {
    assert (acts + [a])[..|acts + [a]| - 1] == acts;
  }

  lemma ExtendWritten(w: World, acts: seq<Action>, a: Action)
    requires Legal(w, acts) && Enabled(After(w, acts), a)
    ensures Legal(w, acts + [a]) && After(w, acts + [a]) == Step(After(w, acts), a)
    ensures Written(w, acts + [a]) == Written(w, acts) + WritesOf(After(w, acts), a)
  {
    assert (acts + [a])[..|acts + [a]| - 1] == acts;
  }

  lemma Associates<T>(a: seq<T>, b: seq<T>, c: seq<T>)
    ensures a + b + c == a + (b + c)
  {
  }

  lemma LastOf<T>(s: seq<T>)
    requires s != []
    ensures s[..|s| - 1] + [s[|s| - 1]] == s
  {
  }

  // One run after another is a run.
  lemma {:induction false} Join(w: World, acts: seq<Action>, more: seq<Action>)
    requires Legal(w, acts) && Legal(After(w, acts), more)
    ensures Legal(w, acts + more) && After(w, acts + more) == After(After(w, acts), more)
    ensures Written(w, acts + more) == Written(w, acts) + Written(After(w, acts), more)
    decreases |more|
  {
    if more == [] {
      assert acts + more == acts;
    } else {
      var front, a := more[..|more| - 1], more[|more| - 1];
      Join(w, acts, front);
      ExtendWritten(w, acts + front, a);
      Associates(acts, front, [a]);
      LastOf(more);
      Associates(Written(w, acts), Written(After(w, acts), front), WritesOf(After(After(w, acts), front), a));
    }
  }

  // ---- Runs exist ----

  // The world once the new version is installed, for a fresh node asked for it.
  ghost function Installed(w: World, id: Id, target: Target, at: int, expiresAt: int): World {
    w.(agent := Running(w.disk.current, Some(Job(id, target.version, Some(target))), None),
       disk := w.disk.(installed := w.disk.installed + {target}),
       commands := map[id := Commands.Record(Commands.AgentUpdate(target.version, expiresAt), Commands.Pending, None, at, None)],
       clock := at, seen := w.seen + {target}, switches := map[id := 0])
  }

  lemma Ask(w: World, id: Id, target: Target, at: int, expiresAt: int) returns (acts: seq<Action>)
    requires Init(w) && at > w.clock
    ensures Legal(w, acts)
    ensures After(w, acts) == w.(
              agent := Running(w.disk.current, None, None),
              commands := map[id := Commands.Record(Commands.AgentUpdate(target.version, expiresAt), Commands.Pending, None, at, None)],
              clock := at, switches := map[id := 0])
  {
    var accept := Accept(id, Commands.AgentUpdate(target.version, expiresAt), at);
    Extend(w, [], Start);
    acts := [Start];
    assert [] + [Start] == acts;
    Extend(w, acts, accept);
    acts := acts + [accept];
  }

  lemma AskAndInstall(w: World, id: Id, target: Target, at: int, expiresAt: int) returns (acts: seq<Action>)
    requires Init(w) && target.version != w.disk.current.version && at > w.clock
    ensures Legal(w, acts) && After(w, acts) == Installed(w, id, target, at, expiresAt)
  {
    acts := Ask(w, id, target, at, expiresAt);
    Extend(w, acts, Begin(id));
    acts := acts + [Begin(id)];
    assert After(w, acts).agent == Running(w.disk.current, Some(Job(id, target.version, None)), None);
    Extend(w, acts, Install(target));
    acts := acts + [Install(target)];
  }

  ghost function HandedOver(w: World, id: Id, target: Target, at: int, expiresAt: int): World {
    var i := Installed(w, id, target, at, expiresAt);
    i.(agent := Running(target, None, None),
       disk := i.disk.(current := target, previous := Some(w.disk.current),
                       pending := Some(Record(id, w.disk.current, target, target.version, at))),
       switches := map[id := 1])
  }

  lemma SwitchRun(w: World, id: Id, target: Target, at: int, expiresAt: int) returns (acts: seq<Action>)
    requires Init(w) && target.version != w.disk.current.version && at > w.clock
    ensures Legal(w, acts)
    ensures After(w, acts) == HandedOver(w, id, target, at, expiresAt).(agent := Running(w.disk.current, None, None))
  {
    acts := AskAndInstall(w, id, target, at, expiresAt);
    Extend(w, acts, Activate(at, Switched, 5));
    acts := acts + [Activate(at, Switched, 5)];
  }

  lemma SwitchAndHandOver(w: World, id: Id, target: Target, at: int, expiresAt: int) returns (acts: seq<Action>)
    requires Init(w) && target.version != w.disk.current.version && at > w.clock
    ensures Legal(w, acts) && After(w, acts) == HandedOver(w, id, target, at, expiresAt)
  {
    acts := SwitchRun(w, id, target, at, expiresAt);
    Extend(w, acts, Exit(RESTART_STATUS, 0));
    acts := acts + [Exit(RESTART_STATUS, 0)];
    Extend(w, acts, Start);
    acts := acts + [Start];
  }

  // The update is confirmed by a heartbeat of the new version.
  ghost function Settled(w: World, id: Id, target: Target, at: int, expiresAt: int): World {
    var h := HandedOver(w, id, target, at, expiresAt);
    h.(disk := h.disk.(pending := None, confirmed := h.disk.pending), good := h.good + {target})
  }

  lemma SettleRun(w: World, id: Id, target: Target, at: int, expiresAt: int) returns (acts: seq<Action>)
    requires Init(w) && target.version != w.disk.current.version && at > w.clock
    ensures Legal(w, acts) && After(w, acts) == Settled(w, id, target, at, expiresAt)
  {
    acts := SwitchAndHandOver(w, id, target, at, expiresAt);
    Extend(w, acts, Heartbeat);
    acts := acts + [Heartbeat];
  }

  // From a fresh node, asking for a new version has a run that ends with that version's
  // binary current and confirmed, after exactly one switch, and the command succeeded.
  lemma AnUpdateCompletes(w: World, id: Id, target: Target, at: int, expiresAt: int) returns (acts: seq<Action>)
    requires Init(w) && target.version != w.disk.current.version && at > w.clock
    ensures Legal(w, acts)
    ensures var w' := After(w, acts);
            && w'.disk.current == target && target in w'.good && w'.disk.pending == None
            && id in w'.commands && HasSucceeded(w'.commands[id])
            && Count(w', id) == 1
  {
    acts := SettleRun(w, id, target, at, expiresAt);
    var conclude := Conclude(id, Commands.Succeeded(Some(target.version), at));
    Extend(w, acts, conclude);
    acts := acts + [conclude];
    Extend(w, acts, Finish);
    acts := acts + [Finish];
  }
}
