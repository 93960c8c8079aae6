// The plugin state store as it is updated in place: the states in memory, their files, and
// the installed releases (internal/plugin/state.go).
module PluginStateStore {
  import opened Prelude
  import opened PluginState

  datatype Release = Release(version: Id, digest: Id)

  function ReleaseOf(r: Revision): set<Release> {
    if r.artifact.Some? then {Release(r.version, r.artifact.value.digest)} else {}
  }

  // The releases that a state still refers to.
  function Retained(st: State): set<Release> {
    (if st.current.Some? then ReleaseOf(st.current.value) else {})
    + (if st.previous.Some? then ReleaseOf(st.previous.value) else {})
    + (if st.pending.Some? then ReleaseOf(st.pending.value.revision) else {})
  }

  // Removes every entry that is not retained.
  method Pruned(entries: set<Release>, keep: set<Release>) returns (kept: set<Release>)
    ensures kept == entries * keep
  {
    kept := entries;
    var todo := entries;
    while todo != {}
      invariant todo <= entries && kept == todo + entries * keep
      decreases |todo|
    {
      var r := Pick(todo);
      todo := todo - {r};
      if r !in keep { kept := kept - {r}; }
    }
  }

  class StateStore {
    const valid: Validator
    var states: map<Id, State>
    var files: map<Id, State>
    var releases: map<Id, set<Release>>

    ghost function Contents(): PluginState.Store
      reads this
    {
      PluginState.Store(states, files)
    }

    constructor (valid: Validator)
      ensures this.valid == valid && Contents() == PluginState.Store(map[], map[]) && releases == map[]
    {
      this.valid := valid;
      states, files, releases := map[], map[], map[];
    }

    // writeLocked
    method WriteState(id: Id, st: State, written: bool) returns (ok: bool)
      modifies this`files
      ensures ok == (Validated(id, st, valid) && written)
      ensures files == if ok then old(files)[id := st] else old(files)
    {
      if !Validated(id, st, valid) || !written { return false; }
      files := files[id := st];
      return true;
    }

    method PrepareState(d: Desired, written: bool) returns (r: Prepared)
      modifies this`states, this`files
      ensures (Contents(), r) == Prepare(old(Contents()), d, valid, written)
    {
      var st := if d.plugin in states then states[d.plugin] else State(0, None, None, None, 0);
      if d.revision.generation < st.lastGeneration { return Stale; }
      if d.revision.generation == st.lastGeneration {
        if st.current == Some(d.revision) { return Accepted(st.current, true); }
        if st.pending == None || !SameDesired(st.pending.value, d) { return Conflict; }
        if st.pending.value.url != d.url {
          // The pending state is shared with the map, which so changes at once.
          st := st.(pending := Some(st.pending.value.(url := d.url)));
          states := states[d.plugin := st];
          var ok := WriteState(d.plugin, st, written);
          if !ok { return WriteFailed; }
        }
        return Accepted(st.current, false);
      }
      st := st.(lastGeneration := d.revision.generation, pending := Some(d));
      var ok := WriteState(d.plugin, st, written);
      if !ok { return WriteFailed; }
      states := states[d.plugin := st];
      return Accepted(st.current, false);
    }

    method CommitState(d: Desired, written: bool) returns (ok: bool)
      modifies this`states, this`files
      ensures (Contents(), ok) == Commit(old(Contents()), d, valid, written)
    {
      if d.plugin !in states { return false; }
      var st := states[d.plugin];
      if st.pending == None || st.lastGeneration != d.revision.generation || !SameDesired(st.pending.value, d) { return false; }
      var next := d.revision;
      if next.state == Absent {
        st := st.(current := Some(next), previous := None);
      } else {
        if st.current.Some? && st.current.value.state != Absent && st.current.value != next {
          st := st.(previous := st.current);
        }
        st := st.(current := Some(next));
      }
      st := st.(pending := None, restarts := 0);
      ok := WriteState(d.plugin, st, written);
      if ok { states := states[d.plugin := st]; }
    }

    method IncrementRestart(id: Id, written: bool) returns (ok: bool)
      modifies this`states, this`files
      ensures (Contents(), ok) == Restart(old(Contents()), id, valid, written)
    {
      if id !in states || states[id].current == None || states[id].current.value.state != Running { return false; }
      var st := states[id].(restarts := (states[id].restarts + 1) % (MAX_UINT64 + 1));
      ok := WriteState(id, st, written);
      if ok { states := states[id := st]; }
    }

    method Current(id: Id) returns (current: Option<Revision>)
      ensures current == Of(Contents(), id).current
    {
      return if id in states then states[id].current else None;
    }

    // pruneReleases removes every release that the state does not refer to, and no other.
    method PruneReleases(id: Id)
      modifies this`releases
      ensures releases.Keys == old(releases).Keys
      ensures forall o :: o in releases && o != id ==> releases[o] == old(releases)[o]
      ensures id in releases ==> releases[id] == old(releases)[id] * Retained(Of(Contents(), id))
    {
      if id !in releases { return; }
      var st := if id in states then states[id] else State(0, None, None, None, 0);
      var kept := Pruned(releases[id], Retained(st));
      releases := releases[id := kept];
    }
  }
}
