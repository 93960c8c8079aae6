// The policy store: each transaction works on its own copy of the database and commits it
// only when nothing failed (internal/policy/store.go and desired.go).
module PolicyStore {
  import opened Prelude
  import opened RevisionTable
  import opened PolicyModel
  import opened PolicyCounters
  import opened PolicyTraffic
  import opened PolicyActivity
  import opened PolicyTransactions
  import opened PolicySystem
  import opened PolicyBuckets
  import opened PolicyDesired
  import opened PolicyCapacity
  import Telemetry

  // A database has one policy per authorization, ledgers within their capacity, and
  // statuses under the keys of their authorizations.
  ghost predicate Sound(db: Db) {
    DistinctIds(db.policies) && LedgersFit(db.traffic) && StatusesFit(db.statuses)
  }

  ghost predicate StatusesFit(statuses: map<Id, StatusState>) {
    forall id :: id in statuses ==> statuses[id].event.authorization == id
  }

  lemma {:induction false} StatusesStayFit(db: Db, at: Instant, instances: map<Id, Id>, n: nat)
    requires HasLedgers(db) && n <= |db.policies| && StatusesFit(db.statuses) && StatusesUpTo(db, at, instances, n).Ok?
    ensures StatusesFit(StatusesUpTo(db, at, instances, n).value)
  {
    if n > 0 {
      StatusesStayFit(db, at, instances, n - 1);
    }
  }

  lemma {:induction false} RefreshKeepsSound(db: Db, at: Instant, n: nat)
    requires Sound(db) && n <= |db.policies| && RefreshUpTo(db, at, n).Ok?
    ensures Sound(RefreshUpTo(db, at, n).value)
  {
    if n > 0 {
      RefreshKeepsSound(db, at, n - 1);
    }
  }

  // What Refreshed gives is fresh, and has a ledger for every policy.
  lemma RefreshedIsFresh(db: Db, at: Instant)
    requires Sound(db) && Refreshed(db, at).Ok?
    ensures var r := Refreshed(db, at).value; Sound(r) && IsFresh(r, at) && HasLedgers(r) && r.generation == db.generation
  {
    RefreshKeepsSound(db, at, |db.policies|);
    RefreshUpToIsFresh(db, at, |db.policies|);
    var r := Refreshed(db, at).value;
    forall i | 0 <= i < |r.policies|
      ensures r.policies[i].id in r.traffic.ledgers
    {
      assert PolicyIsFresh(r, r.policies[i], at);
    }
  }

  // The body of Reconcile for a newer snapshot.
  method Rebuilt(db: Db, generation: u64, snapshot: seq<Policy>) returns (d: Db)
    requires generation > db.generation
    ensures Reconciled(db, generation, snapshot) == Ok(d)
  {
    var bound := Bindings(snapshot);
    var orphans := Unbind(db.orphans, db.policies, bound);
    var retained := Authorizations(snapshot);
    var traffic := DropRemovedLedgers(db.traffic, retained);
    var statuses := DropRemovedStatuses(db.statuses, retained);
    var activity := DropRemovedActivity(db.activity, retained);
    var counters := DropRemovedCounters(db.counters, retained);
    d := db.(generation := generation, snapshot := Some(snapshot), policies := snapshot, orphans := orphans,
             counters := counters, traffic := traffic, activity := activity, statuses := statuses);
  }

  // The body of refresh.
  method RefreshAll(db: Db, at: Instant) returns (r: Result<Db, StoreError>)
    ensures r == if Refreshed(db, at).Ok? then Refreshed(db, at) else Err(Failed)
  {
    var tx := db;
    for i := 0 to |db.policies|
      invariant RefreshUpTo(db, at, i) == Ok(tx)
    {
      var p := db.policies[i];
      var period := CurrentPeriod(p, at);
      if period == None {
        RefreshStaysFailed(db, at, i + 1, |db.policies|);
        return Err(Failed);
      }
      var current := if period.value != p.currentPeriod then p.(currentPeriod := period.value) else p;
      var activity := CleanActivity(tx.activity, p, at.now);
      tx := tx.(policies := tx.policies[i := current],
                traffic := EnsureLedger(tx.traffic, p.id, period.value),
                activity := activity);
    }
    return Ok(tx);
  }

  lemma {:induction false} StatusesStayFailed(db: Db, at: Instant, instances: map<Id, Id>, n: nat, m: nat)
    requires HasLedgers(db) && n <= m <= |db.policies| && StatusesUpTo(db, at, instances, n) == Err(Failed)
    ensures StatusesUpTo(db, at, instances, m) == Err(Failed)
    decreases m - n
  {
    if n < m {
      StatusesStayFailed(db, at, instances, n, m - 1);
    }
  }

  // The body of RefreshStatuses after the refresh.
  method UpdateStatuses(db: Db, at: Instant, instances: map<Id, Id>)
    returns (r: Result<map<Id, StatusState>, StoreError>)
    requires HasLedgers(db)
    ensures r == StatusesUpTo(db, at, instances, |db.policies|)
  {
    var statuses := db.statuses;
    for i := 0 to |db.policies|
      invariant StatusesUpTo(db, at, instances, i) == Ok(statuses)
    {
      var p := db.policies[i];
      var applied := CheckApplied(db, p, instances);
      if applied {
        var l := db.traffic.ledgers[p.id];
        var enforced := Enforcement(p, l, at.now);
        var active, blocked := 0, 0;
        if p.softIPLimit.Some? {
          active := CountOf(db.activity.slots, p.id);
          blocked := CountOf(db.activity.blocks, p.id);
        }
        if active > MAX_UINT32 || blocked > MAX_UINT32 {
          StatusesStayFailed(db, at, instances, i + 1, |db.policies|);
          return Err(Failed);
        }
        var event := StatusEvent(db.generation, p.id, l.period, l.up, l.down, enforced.0, enforced.1, active, blocked);
        if p.id !in statuses || statuses[p.id].event != event {
          statuses := statuses[p.id := StatusState(event, false)];
        }
      }
    }
    return Ok(statuses);
  }

  // The outcome of Desired: a refresh, and on that the transaction, unless it fails.
  ghost predicate DesiredResult(before: Db, at: Instant, ok: bool, after: Db, services: seq<DesiredService>, blocks: seq<DesiredBlocks>,
                                orphanOrder: seq<ServiceKey>, pluginOrder: seq<Id>)
  {
    if Refreshed(before, at).Err? then !ok && after == before
    else
      var clean := Refreshed(before, at).value;
      && HasLedgers(clean)
      && (forall k :: k in orphanOrder ==> k in clean.orphans)
      && (forall p :: p in pluginOrder ==> p in BlockPlugins(clean))
      && (ok == DesiredTx(clean, at, orphanOrder, pluginOrder).Ok?)
      && after == (if ok then DesiredTx(clean, at, orphanOrder, pluginOrder).value else clean)
      && (ok && clean.generation == 0 ==> services == [] && blocks == [])
      && (ok && clean.generation > 0 ==> WellListed(clean, at, orphanOrder, pluginOrder, services, blocks))
  }

  // The lists name the current record of every want.
  ghost predicate WellListed(db: Db, at: Instant, orphanOrder: seq<ServiceKey>, pluginOrder: seq<Id>,
                             services: seq<DesiredService>, blocks: seq<DesiredBlocks>)
    requires HasLedgers(db)
  {
    var wants, blockWants := ServiceWants(db, at.now, orphanOrder), BlockWants(db, at.now, pluginOrder);
    && Enumerates(orphanOrder, db.orphans) && Enumerates(pluginOrder, BlockPlugins(db))
    && EnsureAll(db.services, wants).Ok? && services == Recorded(db.services, wants)
    && EnsureAll(db.blocks, blockWants).Ok? && blocks == Recorded(db.blocks, blockWants)
  }

  class Store {
    var db: Db
    var cursors: map<Id, Telemetry.Cursor>

    ghost predicate Valid()
      reads this
    {
      Sound(db)
    }

    constructor ()
      ensures Valid() && db == EMPTY_DB && cursors == map[]
    {
      db, cursors := EMPTY_DB, map[];
    }

    method Reconcile(generation: u64, snapshot: seq<Policy>) returns (r: Result<bool, StoreError>)
      requires Valid() && DistinctIds(snapshot)
      modifies this`db
      ensures Valid()
      ensures var spec := Reconciled(old(db), generation, snapshot);
              if spec.Ok? then r == Ok(generation != old(db.generation)) && db == spec.value
              else r == Err(spec.error) && db == old(db)
      ensures r.Ok? <==> IsTaken(old(db), generation, snapshot)
      ensures r == Err(StaleGeneration) <==> generation < old(db.generation)
      ensures r == Err(GenerationConflict) <==> generation == old(db.generation) && old(db.snapshot) != Some(snapshot)
      ensures r.Ok? ==> db.generation == generation && db.snapshot == Some(snapshot)
      ensures r.Ok? && (generation > old(db.generation)) ==> db.policies == snapshot
      ensures r.Err? || generation == old(db.generation) ==> db == old(db)
    {
      if generation < db.generation { return Err(StaleGeneration); }
      if generation == db.generation {
        if db.snapshot != Some(snapshot) { return Err(GenerationConflict); }
        return Ok(false);
      }
      db := Rebuilt(db, generation, snapshot);
      return Ok(true);
    }

    method BindingKnown(plugin: Id, authorization: Id, service: Id) returns (known: bool)
      requires Valid()
      ensures known <==> ServiceKey(plugin, authorization, service) in BoundKeys(db.policies)
    {
      known := false;
      for i := 0 to |db.policies|
        invariant known <==> ServiceKey(plugin, authorization, service) in BoundKeys(db.policies[..i])
      {
        var p := db.policies[i];
        BoundKeysOfMore(db.policies, i);
        if p.id == authorization {
          for j := 0 to |p.bindings|
            invariant known <==> ServiceKey(plugin, authorization, service) in BoundKeys(db.policies[..i]) + KeysOf(p, j)
          {
            if p.bindings[j].plugin == plugin && p.bindings[j].service == service { known := true; }
          }
        }
      }
      assert db.policies[..|db.policies|] == db.policies;
    }

    method TelemetryCursor(plugin: Id, stream: Id) returns (sequence: u64)
      ensures sequence == Telemetry.CursorFor(cursors, plugin, stream)
    {
      if plugin !in cursors || cursors[plugin].stream != stream { return 0; }
      return cursors[plugin].sequence;
    }

    method AdvanceTelemetryCursor(plugin: Id, stream: Id, previous: u64, next: u64) returns (ok: bool)
      modifies this`cursors
      ensures var spec := Telemetry.Advanced(old(cursors), plugin, stream, previous, next);
              ok == spec.Ok? && cursors == if ok then spec.value else old(cursors)
    {
      if next < previous || next > MAX_INT64 { return false; }
      if plugin in cursors && cursors[plugin].stream == stream && cursors[plugin].sequence != previous { return false; }
      if plugin in cursors && cursors[plugin].stream != stream && previous != 0 { return false; }
      cursors := cursors[plugin := Telemetry.Cursor(stream, next)];
      return true;
    }

    // A failing call changes nothing, and it fails just for what does not fit.
    method ApplyCounters(plugin: Id, list: seq<Option<Reading>>, at: Instant)
      returns (r: Result<(), StoreError>, ghost order: seq<Id>)
      requires Valid()
      modifies this`db
      ensures Valid()
      ensures r.Ok? ==> Enumerates(order, Deltas(old(db), plugin, list).Keys)
                        && CountersApplied(old(db), plugin, list, at, order) == Ok(db)
      ensures r.Err? ==> db == old(db) && CountersApplied(old(db), plugin, list, at, order).Err?
      ensures r.Ok? <==> CountersFit(old(db), plugin, list, at)
    {
      ghost var before := db;
      order := [];
      var bound := Bindings(db.policies);
      var counted := Count(Tally(db.counters, map[]), bound, plugin, list);
      CountersSucceed(before, plugin, list, at, order);
      if counted.Err? { return Err(counted.error), order; }
      var charged: Result<Traffic, StoreError>;
      charged, order := ChargeLedgers(db.traffic, db.policies, counted.value.deltas, at);
      CountersSucceed(before, plugin, list, at, order);
      if charged.Err? { return Err(charged.error), order; }
      db := db.(counters := counted.value.counters, traffic := charged.value);
      return Ok(()), order;
    }

    method ObserveActivity(authorization: Id, address: Id, at: int) returns (blocked: bool)
      requires Valid()
      modifies this`db
      ensures Valid()
      ensures (db, blocked) == ActivityObserved(old(db), authorization, address, at)
    {
      var found := FindPolicy(db.policies, authorization);
      if found == None || found.value.softIPLimit == None { return false; }
      var p := found.value;
      var a := CleanActivity(db.activity, p, at);
      var key := ActivityKey(p.id, address);
      FoundId(db.policies, authorization);
      if key in a.blocks && a.blocks[key] > at {
        db := db.(activity := a);
        return true;
      }
      if key in a.slots {
        if at > a.slots[key] { a := a.(slots := a.slots[key := at]); }
        db := db.(activity := a);
        return false;
      }
      var count := CountOf(a.slots, p.id);
      if count < p.softIPLimit.value {
        db := db.(activity := a.(slots := a.slots[key := at]));
        return false;
      }
      db := db.(activity := a.(blocks := a.blocks[key := at + p.blockDuration]));
      return true;
    }

    // refresh
    method Refresh(at: Instant) returns (r: Result<(), StoreError>)
      requires Valid()
      modifies this`db
      ensures Valid()
      ensures if Refreshed(old(db), at).Ok? then r == Ok(()) && db == Refreshed(old(db), at).value
              else r == Err(Failed) && db == old(db)
    {
      var refreshed := RefreshAll(db, at);
      if refreshed.Err? { return Err(refreshed.error); }
      RefreshKeepsSound(db, at, |db.policies|);
      db := refreshed.value;
      return Ok(());
    }

    // Everything not yet queued, after a refresh.
    method PendingTrafficSnapshots(at: Instant) returns (r: Result<seq<TrafficEvent>, StoreError>)
      requires Valid()
      modifies this`db
      ensures Valid()
      ensures r.Ok? == Refreshed(old(db), at).Ok?
      ensures r.Ok? ==> db == Refreshed(old(db), at).value && (forall e :: e in r.value <==> Unqueued(db.traffic, e))
      ensures r.Ok? ==> Sorted(r.value) && (KeysApart(db.traffic) ==> NoDuplicates(r.value))
      ensures r.Err? ==> db == old(db)
    {
      var refreshed := Refresh(at);
      if refreshed.Err? { return Err(refreshed.error); }
      var list := SortedUnqueued(db.traffic);
      return Ok(list);
    }

    method MarkTrafficQueued(e: TrafficEvent) returns (ok: bool)
      requires Valid()
      modifies this`db
      ensures Valid()
      ensures var spec := MarkQueued(old(db.traffic), e);
              ok == spec.Ok? && db == if ok then old(db).(traffic := spec.value) else old(db)
    {
      var t := db.traffic;
      var key := KeyOfEvent(e);
      if key in t.pending {
        if t.pending[key] != e { return false; }
        db := db.(traffic := t.(pending := t.pending - {key}));
        return true;
      }
      if e.authorization !in t.ledgers { return false; }
      var l := t.ledgers[e.authorization];
      if l.period.id != e.period.id || l.revision < e.revision { return false; }
      if l.revision == e.revision && l.up == e.up && l.down == e.down {
        db := db.(traffic := t.(ledgers := t.ledgers[e.authorization := l.(queued := e.revision)]));
      }
      return true;
    }

    method PendingStatuses() returns (list: seq<StatusEvent>)
      ensures forall e :: e in list <==> exists id :: id in db.statuses && !db.statuses[id].queued && db.statuses[id].event == e
    {
      list := ListStatuses(db.statuses);
    }

    method MarkStatusQueued(e: StatusEvent)
      requires Valid()
      modifies this`db
      ensures Valid()
      ensures db == StatusQueued(old(db), e)
    {
      if e.authorization in db.statuses && db.statuses[e.authorization].event == e {
        db := db.(statuses := db.statuses[e.authorization := db.statuses[e.authorization].(queued := true)]);
      }
    }

    // The desired services and block sets. The orders are those in which orphans and
    // plugins were walked, as far as the walks came.
    method Desired(at: Instant)
      returns (r: Result<(), StoreError>, services: seq<DesiredService>, blocks: seq<DesiredBlocks>,
               ghost orphanOrder: seq<ServiceKey>, ghost pluginOrder: seq<Id>)
      requires Valid()
      modifies this`db
      ensures Valid()
      ensures DesiredResult(old(db), at, r.Ok?, db, services, blocks, orphanOrder, pluginOrder)
    {
      services, blocks, orphanOrder, pluginOrder := [], [], [], [];
      ghost var before := db;
      var refreshed := Refresh(at);
      if refreshed.Err? { return Err(refreshed.error), services, blocks, orphanOrder, pluginOrder; }
      RefreshedIsFresh(before, at);
      if db.generation == 0 { return Ok(()), services, blocks, orphanOrder, pluginOrder; }
      var servicesOk, serviceTable, serviceList;
      servicesOk, serviceTable, serviceList, orphanOrder := WantServices(db, at.now);
      if !servicesOk { return Err(Failed), services, blocks, orphanOrder, pluginOrder; }
      var blocksOk, blockTable, blockList;
      blocksOk, blockTable, blockList, pluginOrder := WantBlocks(db, at.now);
      if !blocksOk { return Err(Failed), services, blocks, orphanOrder, pluginOrder; }
      db := db.(services := serviceTable, blocks := blockTable);
      return Ok(()), serviceList, blockList, orphanOrder, pluginOrder;
    }

    method ServiceNeedsApply(s: DesiredService, instance: Id) returns (needed: bool)
      ensures needed == NeedsApply(db.appliedServices, s.key, s.row, instance)
    {
      needed := s.key !in db.appliedServices || db.appliedServices[s.key].instance != instance
                || db.appliedServices[s.key].row != s.row;
    }

    method BlocksNeedApply(b: DesiredBlocks, instance: Id) returns (needed: bool)
      ensures needed == NeedsApply(db.appliedBlocks, b.key, b.row, instance)
    {
      needed := b.key !in db.appliedBlocks || db.appliedBlocks[b.key].instance != instance
                || db.appliedBlocks[b.key].row != b.row;
    }

    method MarkServiceApplied(s: DesiredService, instance: Id) returns (ok: bool)
      requires Valid()
      modifies this`db
      ensures Valid()
      ensures var spec := ServiceApplied(old(db), s, instance);
              ok == spec.Ok? && db == if ok then spec.value else old(db)
    {
      if s.key !in db.services.rows || db.services.rows[s.key] != s.row { return false; }
      var applied := db.appliedServices[s.key := Ack(instance, s.row)];
      if s.row.payload.orphan {
        db := db.(appliedServices := applied, orphans := db.orphans - {s.key},
                  services := db.services.(rows := db.services.rows - {s.key}));
      } else {
        db := db.(appliedServices := applied);
      }
      return true;
    }

    method MarkBlocksApplied(b: DesiredBlocks, instance: Id) returns (ok: bool)
      requires Valid()
      modifies this`db
      ensures Valid()
      ensures var spec := BlocksApplied(old(db), b, instance);
              ok == spec.Ok? && db == if ok then spec.value else old(db)
    {
      if b.key !in db.blocks.rows || db.blocks.rows[b.key] != b.row { return false; }
      db := db.(appliedBlocks := db.appliedBlocks[b.key := Ack(instance, b.row)]);
      return true;
    }

    method RefreshStatuses(at: Instant, instances: map<Id, Id>) returns (r: Result<(), StoreError>)
      requires Valid()
      modifies this`db
      ensures Valid()
      ensures Refreshed(old(db), at).Err? ==> r.Err? && db == old(db)
      ensures Refreshed(old(db), at).Ok? ==>
                var clean := Refreshed(old(db), at).value;
                && HasLedgers(clean)
                && var spec := StatusesTx(clean, at, instances);
                   r.Ok? == spec.Ok? && db == if r.Ok? then spec.value else clean
    {
      ghost var before := db;
      var refreshed := Refresh(at);
      if refreshed.Err? { return Err(refreshed.error); }
      RefreshedIsFresh(before, at);
      if db.generation == 0 { return Ok(()); }
      var statuses := UpdateStatuses(db, at, instances);
      if statuses.Err? { return Err(statuses.error); }
      StatusesStayFit(db, at, instances, |db.policies|);
      db := db.(statuses := statuses.value);
      return Ok(());
    }
  }

  lemma {:induction false} FoundId(policies: seq<Policy>, id: Id)
    requires FindPolicy(policies, id).Some?
    ensures FindPolicy(policies, id).value.id == id
    decreases |policies|
  {
    if policies[|policies| - 1].id != id {
      FoundId(policies[..|policies| - 1], id);
    }
  }
}
