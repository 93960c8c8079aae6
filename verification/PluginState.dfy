// The durable plugin states: prepare, commit, restart counts, and reopening after a crash
// (internal/plugin/state.go). Writing a state is one atomic step that may fail.
module PluginState {
  import opened Prelude

  datatype Lifecycle = Running | Stopped | Absent

  datatype Artifact = Artifact(size: int, digest: Id)

  // A configuration is identified by its digest.
  datatype Revision = Revision(generation: u64, state: Lifecycle, version: Id, artifact: Option<Artifact>, configuration: Id)

  datatype Desired = Desired(plugin: Id, revision: Revision, url: Id)

  datatype State = State(lastGeneration: u64, current: Option<Revision>, previous: Option<Revision>, pending: Option<Desired>, restarts: u64)

  // The states in memory and on disk.
  datatype Store = Store(memory: map<Id, State>, disk: map<Id, State>)

  // Whether the protocol accepts a revision as a command; its rules are not modelled.
  type Validator = Revision -> bool

  datatype Prepared = Stale | Conflict | WriteFailed | Accepted(current: Option<Revision>, already: bool)

  // ---- Operations ----

  function Of(s: Store, id: Id): State {
    if id in s.memory then s.memory[id] else State(0, None, None, None, 0)
  }

  // validatePluginState
  predicate Validated(id: Id, st: State, valid: Validator) {
    && st.lastGeneration != 0
    && (st.current.Some? ==> valid(st.current.value) && st.current.value.generation <= st.lastGeneration)
    && (st.previous.Some? ==> valid(st.previous.value) && st.current.Some? && st.previous.value.generation < st.current.value.generation)
    && (st.current.Some? && st.current.value.state == Absent ==> st.previous == None)
    && (st.pending.Some? ==>
          valid(st.pending.value.revision) && st.pending.value.plugin == id && st.pending.value.revision.generation == st.lastGeneration)
    && (st.current.Some? || st.pending.Some?)
  }

  predicate SameDesired(a: Desired, b: Desired) { a.plugin == b.plugin && a.revision == b.revision }

  // writeLocked and the update of the memory after it.
  function Write(s: Store, id: Id, st: State, valid: Validator, written: bool): Option<Store> {
    if Validated(id, st, valid) && written then Some(Store(s.memory[id := st], s.disk[id := st])) else None
  }

  // A repeated command with another URL changes the pending state in memory even when
  // writing it fails: the pending state is shared by reference.
  function Prepare(s: Store, d: Desired, valid: Validator, written: bool): (Store, Prepared) {
    var st := Of(s, d.plugin);
    if d.revision.generation < st.lastGeneration then (s, Stale)
    else if d.revision.generation == st.lastGeneration then
      if st.current == Some(d.revision) then (s, Accepted(st.current, true))
      else if st.pending == None || !SameDesired(st.pending.value, d) then (s, Conflict)
      else if st.pending.value.url == d.url then (s, Accepted(st.current, false))
      else
        var st' := st.(pending := Some(st.pending.value.(url := d.url)));
        var w := Write(s, d.plugin, st', valid, written);
        if w == None then (s.(memory := s.memory[d.plugin := st']), WriteFailed) else (w.value, Accepted(st.current, false))
    else
      var w := Write(s, d.plugin, st.(lastGeneration := d.revision.generation, pending := Some(d)), valid, written);
      if w == None then (s, WriteFailed) else (w.value, Accepted(st.current, false))
  }

  function CommittedState(st: State, next: Revision): State {
    st.(current := Some(next),
        previous := if next.state == Absent then None
                    else if st.current.Some? && st.current.value.state != Absent && st.current.value != next then st.current
                    else st.previous,
        pending := None,
        restarts := 0)
  }

  function Commit(s: Store, d: Desired, valid: Validator, written: bool): (Store, bool) {
    if d.plugin !in s.memory then (s, false)
    else
      var st := s.memory[d.plugin];
      if st.pending == None || st.lastGeneration != d.revision.generation || !SameDesired(st.pending.value, d) then (s, false)
      else
        var w := Write(s, d.plugin, CommittedState(st, d.revision), valid, written);
        if w == None then (s, false) else (w.value, true)
  }

  // The restart count is a 64-bit counter.
  function Restart(s: Store, id: Id, valid: Validator, written: bool): (Store, bool) {
    if id !in s.memory || s.memory[id].current == None || s.memory[id].current.value.state != Running then (s, false)
    else
      var st := s.memory[id];
      var w := Write(s, id, st.(restarts := (st.restarts + 1) % (MAX_UINT64 + 1)), valid, written);
      if w == None then (s, false) else (w.value, true)
  }

  // ---- All runs ----

  datatype Op = PrepareOp(desired: Desired, written: bool) | CommitOp(desired: Desired, written: bool) | RestartOp(plugin: Id, written: bool) | Reopen

  datatype Accept = Accept(plugin: Id, revision: Revision)

  // `accepted` records the commands that Prepare has accepted.
  datatype World = World(store: Store, accepted: set<Accept>)

  function Step(w: World, op: Op, valid: Validator): World {
    match op
    case PrepareOp(d, written) =>
      var r := Prepare(w.store, d, valid, written);
      World(r.0, if r.1.Accepted? then w.accepted + {Accept(d.plugin, d.revision)} else w.accepted)
    case CommitOp(d, written) => w.(store := Commit(w.store, d, valid, written).0)
    case RestartOp(id, written) => w.(store := Restart(w.store, id, valid, written).0)
    case Reopen => w.(store := Store(w.store.disk, w.store.disk))
  }

  // Only commands that the protocol accepts reach the store.
  predicate Enabled(op: Op, valid: Validator) { op.PrepareOp? ==> valid(op.desired.revision) }

  function Run(ops: seq<Op>, valid: Validator): World
    decreases |ops|
  {
    if ops == [] then World(Store(map[], map[]), {}) else Step(Run(ops[..|ops| - 1], valid), ops[|ops| - 1], valid)
  }

  ghost predicate Legal(ops: seq<Op>, valid: Validator) {
    forall i :: 0 <= i < |ops| ==> Enabled(ops[i], valid)
  }

  // ---- The invariant ----

  // More than the validator demands: while something is pending the current revision is
  // older, and otherwise it is of the last generation.
  ghost predicate StateOk(id: Id, st: State, valid: Validator) {
    && Validated(id, st, valid)
    && (st.pending.Some? && st.current.Some? ==> st.current.value.generation < st.lastGeneration)
    && (st.pending == None ==> st.current.Some? && st.current.value.generation == st.lastGeneration)
  }

  ghost predicate SameButUrl(a: State, b: State) {
    && a == b.(pending := a.pending)
    && (a.pending.Some? <==> b.pending.Some?)
    && (a.pending.Some? ==> SameDesired(a.pending.value, b.pending.value))
  }

  // The last accepted command of a plugin is current or pending.
  ghost predicate AcceptOk(s: Store, a: Accept) {
    && a.plugin in s.memory
    && var st := s.memory[a.plugin];
       && a.revision.generation <= st.lastGeneration
       && (a.revision.generation == st.lastGeneration ==>
             st.current == Some(a.revision) || (st.pending.Some? && st.pending.value.revision == a.revision))
  }

  ghost predicate EntryOk(s: Store, id: Id, valid: Validator) {
    && (id in s.memory <==> id in s.disk)
    && (id in s.memory ==>
          StateOk(id, s.memory[id], valid) && StateOk(id, s.disk[id], valid) && SameButUrl(s.memory[id], s.disk[id]))
  }

  ghost predicate StoreOk(s: Store, valid: Validator) {
    forall id :: EntryOk(s, id, valid)
  }

  // What a plugin's state holds has been accepted.
  ghost predicate HoldsAccepted(w: World, id: Id) {
    id in w.store.memory ==>
      var st := w.store.memory[id];
      && (st.current.Some? ==> Accept(id, st.current.value) in w.accepted)
      && (st.pending.Some? ==> Accept(id, st.pending.value.revision) in w.accepted)
  }

  ghost predicate AcceptsOk(w: World) {
    && (forall id :: HoldsAccepted(w, id))
    && (forall a :: a in w.accepted ==> AcceptOk(w.store, a))
    && (forall a, b :: a in w.accepted && b in w.accepted && a.plugin == b.plugin && a.revision.generation == b.revision.generation ==> a == b)
  }

  ghost predicate Inv(w: World, valid: Validator) { StoreOk(w.store, valid) && AcceptsOk(w) }

  lemma PrepareKeepsEntry(s: Store, d: Desired, valid: Validator, written: bool)
    requires EntryOk(s, d.plugin, valid) && valid(d.revision)
    ensures EntryOk(Prepare(s, d, valid, written).0, d.plugin, valid)
  {
  }

  lemma PrepareKeepsOthers(s: Store, d: Desired, valid: Validator, written: bool, id: Id)
    requires EntryOk(s, id, valid) && id != d.plugin
    ensures EntryOk(Prepare(s, d, valid, written).0, id, valid)
  {
  }

  lemma PrepareKeepsStore(s: Store, d: Desired, valid: Validator, written: bool)
    requires StoreOk(s, valid) && valid(d.revision)
    ensures StoreOk(Prepare(s, d, valid, written).0, valid)
  {
    forall id
      ensures EntryOk(Prepare(s, d, valid, written).0, id, valid)
    {
      assert EntryOk(s, id, valid);
      if id == d.plugin {
        PrepareKeepsEntry(s, d, valid, written);
      } else {
        PrepareKeepsOthers(s, d, valid, written, id);
      }
    }
  }

  lemma PrepareKeepsAccepts(w: World, d: Desired, valid: Validator, written: bool)
    requires Inv(w, valid) && valid(d.revision)
    ensures AcceptsOk(Step(w, PrepareOp(d, written), valid))
  {
    assert EntryOk(w.store, d.plugin, valid);
    forall id
      ensures HoldsAccepted(Step(w, PrepareOp(d, written), valid), id)
    {
      assert HoldsAccepted(w, id);
    }
  }

  lemma PrepareKeeps(w: World, op: Op, valid: Validator)
    requires Inv(w, valid) && op.PrepareOp? && Enabled(op, valid)
    ensures Inv(Step(w, op, valid), valid)
  {
    PrepareKeepsStore(w.store, op.desired, valid, op.written);
    PrepareKeepsAccepts(w, op.desired, valid, op.written);
  }

  lemma CommitKeepsEntry(s: Store, d: Desired, valid: Validator, written: bool, id: Id)
    requires EntryOk(s, id, valid)
    ensures EntryOk(Commit(s, d, valid, written).0, id, valid)
  {
  }

  lemma RestartKeepsEntry(s: Store, plugin: Id, valid: Validator, written: bool, id: Id)
    requires EntryOk(s, id, valid)
    ensures EntryOk(Restart(s, plugin, valid, written).0, id, valid)
  {
  }

  lemma AcceptsSurvive(w: World, op: Op, valid: Validator, a: Accept)
    requires EntryOk(w.store, a.plugin, valid) && AcceptOk(w.store, a) && !op.PrepareOp?
    ensures AcceptOk(Step(w, op, valid).store, a)
  {
  }

  lemma OthersKeep(w: World, op: Op, valid: Validator)
    requires Inv(w, valid) && !op.PrepareOp?
    ensures Inv(Step(w, op, valid), valid)
  {
    var w' := Step(w, op, valid);
    forall id
      ensures EntryOk(w'.store, id, valid)
    {
      assert EntryOk(w.store, id, valid);
      match op
      case CommitOp(d, written) => CommitKeepsEntry(w.store, d, valid, written, id);
      case RestartOp(plugin, written) => RestartKeepsEntry(w.store, plugin, valid, written, id);
      case Reopen =>
    }
    forall id
      ensures HoldsAccepted(w', id)
    {
      assert HoldsAccepted(w, id) && EntryOk(w.store, id, valid);
    }
    forall a | a in w'.accepted
      ensures AcceptOk(w'.store, a)
    {
      assert EntryOk(w.store, a.plugin, valid);
      AcceptsSurvive(w, op, valid, a);
    }
  }

  lemma {:induction false} RunKeeps(ops: seq<Op>, valid: Validator)
    requires Legal(ops, valid)
    ensures Inv(Run(ops, valid), valid)
    decreases |ops|
  {
    if ops != [] {
      var w, op := Run(ops[..|ops| - 1], valid), ops[|ops| - 1];
      RunKeeps(ops[..|ops| - 1], valid);
      assert Enabled(op, valid);
      if op.PrepareOp? {
        PrepareKeeps(w, op, valid);
      } else {
        OthersKeep(w, op, valid);
      }
    }
  }

  // ---- What holds in every run ----

  // A generation of a plugin is only ever accepted with one content.
  lemma OneContentPerGeneration(ops: seq<Op>, valid: Validator, a: Accept, b: Accept)
    requires Legal(ops, valid) && a in Run(ops, valid).accepted && b in Run(ops, valid).accepted
    requires a.plugin == b.plugin && a.revision.generation == b.revision.generation
    ensures a == b
  {
    RunKeeps(ops, valid);
  }

  lemma GenerationStays(w: World, op: Op, valid: Validator, id: Id)
    requires StoreOk(w.store, valid) && id in w.store.memory
    ensures var s, s' := w.store, Step(w, op, valid).store;
            && id in s.disk && id in s'.memory && id in s'.disk
            && s.memory[id].lastGeneration <= s'.memory[id].lastGeneration
            && s.disk[id].lastGeneration <= s'.disk[id].lastGeneration
  {
    assert EntryOk(w.store, id, valid);
  }

  // The last generation of a plugin never decreases, in memory or on disk.
  lemma GenerationsNeverDecrease(ops: seq<Op>, op: Op, valid: Validator, id: Id)
    requires Legal(ops, valid) && Enabled(op, valid) && id in Run(ops, valid).store.memory
    ensures var s, s' := Run(ops, valid).store, Step(Run(ops, valid), op, valid).store;
            && id in s.disk && id in s'.memory && id in s'.disk
            && s.memory[id].lastGeneration <= s'.memory[id].lastGeneration
            && s.disk[id].lastGeneration <= s'.disk[id].lastGeneration
  {
    RunKeeps(ops, valid);
    GenerationStays(Run(ops, valid), op, valid, id);
  }

  // The store never rejects what it writes itself: only a failing disk makes a write fail.
  lemma OwnWritesAreValid(ops: seq<Op>, valid: Validator, d: Desired, id: Id)
    requires Legal(ops, valid) && valid(d.revision)
    ensures var s := Run(ops, valid).store;
            && Prepare(s, d, valid, true).1 != WriteFailed
            && (Commit(s, d, valid, true).1 <==>
                  d.plugin in s.memory && s.memory[d.plugin].pending.Some? && SameDesired(s.memory[d.plugin].pending.value, d))
            && (Restart(s, id, valid, true).1 <==>
                  id in s.memory && s.memory[id].current.Some? && s.memory[id].current.value.state == Running)
  {
    RunKeeps(ops, valid);
    assert EntryOk(Run(ops, valid).store, d.plugin, valid) && EntryOk(Run(ops, valid).store, id, valid);
  }

  // A committed revision replaces the current one, which becomes the previous one unless
  // either is absent; nothing stays pending and the count of restarts starts over.
  lemma CommitReplaces(ops: seq<Op>, valid: Validator, d: Desired)
    requires Legal(ops, valid) && Commit(Run(ops, valid).store, d, valid, true).1
    ensures var st := Run(ops, valid).store.memory[d.plugin];
            var st' := Commit(Run(ops, valid).store, d, valid, true).0.memory[d.plugin];
            && st'.current == Some(d.revision) && st'.pending == None && st'.restarts == 0
            && (d.revision.state == Absent ==> st'.previous == None)
            && (d.revision.state != Absent && st.current.Some? && st.current.value.state != Absent ==> st'.previous == st.current)
            && (st'.previous.Some? ==> st'.previous.value.state != Absent || st'.previous == st.previous)
  {
    RunKeeps(ops, valid);
    assert EntryOk(Run(ops, valid).store, d.plugin, valid);
  }

  // Every state on disk is one that opening the store accepts, and a crash loses at most a
  // new download URL.
  lemma ReopeningSucceeds(ops: seq<Op>, valid: Validator, id: Id)
    requires Legal(ops, valid) && id in Run(ops, valid).store.memory
    ensures var s := Run(ops, valid).store;
            id in s.disk && Validated(id, s.disk[id], valid) && SameButUrl(s.memory[id], s.disk[id])
  {
    RunKeeps(ops, valid);
    assert EntryOk(Run(ops, valid).store, id, valid);
  }

  // A command of the last generation is refused as a conflict exactly when it is not the one
  // that was accepted with that generation.
  lemma ConflictMeansOtherContent(ops: seq<Op>, valid: Validator, d: Desired, written: bool)
    requires Legal(ops, valid) && valid(d.revision)
    ensures var w := Run(ops, valid);
            Prepare(w.store, d, valid, written).1 == Conflict <==>
              d.revision.generation == Of(w.store, d.plugin).lastGeneration && Accept(d.plugin, d.revision) !in w.accepted
  {
    RunKeeps(ops, valid);
    var w := Run(ops, valid);
    assert EntryOk(w.store, d.plugin, valid) && HoldsAccepted(w, d.plugin);
  }
}
