// What the local policy engine guarantees in every run.
module PolicyTheorems {
  import opened Prelude
  import opened RevisionTable
  import opened PolicyModel
  import opened PolicyCounters
  import opened PolicyTraffic
  import opened PolicyActivity
  import opened PolicyTransactions
  import opened PolicySystem
  import opened PolicyInvariant
  import opened PolicyDistribution

  // Whenever nothing is left to queue, keeping the event of the highest revision for each
  // authorization and period gives exactly the bytes ever charged to it.
  lemma TrafficConverges(w: World, acts: seq<Action>)
    requires Init(w) && Legal(w, acts) && NothingUnqueued(After(w, acts).db.traffic)
    ensures var v := After(w, acts);
            && CenterView(v.log).Keys == v.charged.Keys
            && forall k :: k in v.charged ==> Carries(CenterView(v.log)[k], v.charged[k])
  {
    ReachableIsSafe(w, acts);
    var v := After(w, acts);
    Converged(v.db.traffic, v.log, v.charged);
  }

  // No ledger exceeds what a signed 64-bit number holds, and each holds exactly the bytes
  // charged to its authorization in its period.
  lemma LedgersHoldCharges(w: World, acts: seq<Action>, id: Id)
    requires Init(w) && Legal(w, acts) && id in After(w, acts).db.traffic.ledgers
    ensures var v := After(w, acts);
            var l := v.db.traffic.ledgers[id];
            && l.up <= MAX_INT64 && l.down <= MAX_INT64 && l.queued <= l.revision <= MAX_INT64
            && LedgerKey(id, l) in v.charged && v.charged[LedgerKey(id, l)] == Bytes(l.up, l.down)
  {
    ReachableIsSafe(w, acts);
    var v := After(w, acts);
    assert LedgerOk(v.db.traffic, CenterView(v.log), v.charged, id);
  }

  function ChargedTo(charged: Charged, k: TrafficKey): Bytes {
    if k in charged then charged[k] else Bytes(0, 0)
  }

  lemma ChargedOne(t: Traffic, view: View, charged: Charged, id: Id, period: Period, delta: Bytes, k: TrafficKey)
    requires TrafficInv(t, view, charged) && MayOpen(t, charged, id, period) && ChargeLedger(t, id, period, delta).Ok?
    ensures ChargedTo(ChargedMore(t, charged, id, period, delta), k)
            == if k == TrafficKey(id, period.id) then Add(ChargedTo(charged, k), delta) else ChargedTo(charged, k)
  {
    ChargeLedgerKeeps(t, view, charged, id, period, delta);
  }

  // The pair of an authorization and the period its policy is in.
  predicate IsChargeable(policies: seq<Policy>, at: Instant, k: TrafficKey) {
    var p := FindPolicy(policies, k.authorization);
    p.Some? && CurrentPeriod(p.value, at).Some? && CurrentPeriod(p.value, at).value.id == k.period
  }

  // What a walk over the deltas charges to one authorization is its delta, once, in its
  // current period.
  lemma {:induction false} ChargesAreDeltas(t: Traffic, view: View, charged: Charged, policies: seq<Policy>, deltas: map<Id, Bytes>,
                                            at: Instant, order: seq<Id>, k: TrafficKey)
    requires ChargeAll(t, policies, deltas, at, order).Ok? && TrafficInv(t, view, charged)
    requires forall i, j :: 0 <= i < j < |order| ==> order[i] != order[j]
    requires forall o :: IdMayOpen(t, charged, policies, at, o)
    ensures var delta := Delta(deltas, k.authorization);
            ChargedTo(ChargedByCounters(t, charged, policies, deltas, at, order), k)
            == if k.authorization in order && delta != Bytes(0, 0) && IsChargeable(policies, at, k)
               then Add(ChargedTo(charged, k), delta) else ChargedTo(charged, k)
    ensures k.authorization in order && Delta(deltas, k.authorization) != Bytes(0, 0) ==>
              var p := FindPolicy(policies, k.authorization); p.Some? && CurrentPeriod(p.value, at).Some?
    decreases |order|
  {
    if order != [] {
      var last, front := order[|order| - 1], order[..|order| - 1];
      var before, charged1 := ChargeAll(t, policies, deltas, at, front).value, ChargedByCounters(t, charged, policies, deltas, at, front);
      ChargesAreDeltas(t, view, charged, policies, deltas, at, front, k);
      ChargeAllKeepsTraffic(t, view, charged, policies, deltas, at, front, last);
      if Delta(deltas, last) != Bytes(0, 0) {
        var period := CurrentPeriod(FindPolicy(policies, last).value, at).value;
        ChargedOne(before, view, charged1, last, period, Delta(deltas, last), k);
      }
    }
  }

  lemma AddNothing(a: Bytes, b: Bytes)
    requires b == Bytes(0, 0)
    ensures Add(a, b) == a
  {
  }

  lemma ChargesAreAllDeltas(t: Traffic, view: View, charged: Charged, policies: seq<Policy>, deltas: map<Id, Bytes>,
                            at: Instant, order: seq<Id>, id: Id, period: Period)
    requires ChargeAll(t, policies, deltas, at, order).Ok? && TrafficInv(t, view, charged)
    requires Enumerates(order, deltas.Keys)
    requires forall o :: IdMayOpen(t, charged, policies, at, o)
    requires FindPolicy(policies, id).Some? && CurrentPeriod(FindPolicy(policies, id).value, at) == Some(period)
    ensures var k := TrafficKey(id, period.id);
            ChargedTo(ChargedByCounters(t, charged, policies, deltas, at, order), k) == Add(ChargedTo(charged, k), Delta(deltas, id))
  {
    ChargesAreDeltas(t, view, charged, policies, deltas, at, order, TrafficKey(id, period.id));
    var delta := Delta(deltas, id);
    if delta == Bytes(0, 0) {
      AddNothing(ChargedTo(charged, TrafficKey(id, period.id)), delta);
    }
  }

  // A successful ApplyCounters charges an authorization, in its current period, exactly the
  // total of what its services on the plugin have grown by: no more, no less, whatever the
  // order of the walk.
  lemma CountersChargeTotals(w: World, acts: seq<Action>, a: Action, i: nat, keys: seq<ServiceKey>)
    requires Init(w) && Legal(w, acts) && a.ApplyCounters? && Enabled(After(w, acts), a)
    requires var v := After(w, acts);
             && i < |v.db.policies| && CurrentPeriod(v.db.policies[i], a.at).Some?
             && ServicesOf(keys, BoundKeys(v.db.policies), a.plugin, v.db.policies[i].id)
    ensures var v := After(w, acts);
            var p := v.db.policies[i];
            var k := TrafficKey(p.id, CurrentPeriod(p, a.at).value.id);
            var total := ChargesTo(v.db.counters, BoundKeys(v.db.policies), a.plugin, a.list, keys);
            ChargedTo(Step(v, a).charged, k) == Add(ChargedTo(v.charged, k), total)
  {
    ReachableIsSafe(w, acts);
    CountersChargeTotal(After(w, acts), a, i, keys);
  }

  lemma CountersChargeTotal(w: World, a: Action, i: nat, keys: seq<ServiceKey>)
    requires BindingsOk(w.db) && TrafficOk(w) && a.ApplyCounters? && Enabled(w, a)
    requires i < |w.db.policies| && CurrentPeriod(w.db.policies[i], a.at).Some?
    requires ServicesOf(keys, BoundKeys(w.db.policies), a.plugin, w.db.policies[i].id)
    ensures var p := w.db.policies[i];
            var k := TrafficKey(p.id, CurrentPeriod(p, a.at).value.id);
            var total := ChargesTo(w.db.counters, BoundKeys(w.db.policies), a.plugin, a.list, keys);
            ChargedTo(Step(w, a).charged, k) == Add(ChargedTo(w.charged, k), total)
  {
    var p, deltas := w.db.policies[i], Deltas(w.db, a.plugin, a.list);
    OnlyOneFound(w.db.policies, i);
    AllMayOpen(w, a.at);
    ChargesAreAllDeltas(w.db.traffic, CenterView(w.log), w.charged, w.db.policies, deltas, a.at, a.order, p.id,
                        CurrentPeriod(p, a.at).value);
    assert Delta(deltas, p.id) == ChargesTo(w.db.counters, BoundKeys(w.db.policies), a.plugin, a.list, keys) by {
      DeltaIsTotal(Tally(w.db.counters, map[]), BoundKeys(w.db.policies), a.plugin, a.list, p.id, keys);
    }
  }

  lemma AllMayOpen(w: World, at: Instant)
    requires NoReturningPair(w, at)
    ensures forall id :: IdMayOpen(w.db.traffic, w.charged, w.db.policies, at, id)
  {
    forall id
      ensures IdMayOpen(w.db.traffic, w.charged, w.db.policies, at, id)
    {
      if FindPolicy(w.db.policies, id).Some? {
        var i := FoundPolicy(w.db.policies, id);
      }
    }
  }

  // Unbinding is fail-closed: whatever was lost or crashed, a service that a plugin may
  // still have enabled is bound by the current snapshot or listed as an orphan.
  lemma UnbindingIsFailClosed(w: World, acts: seq<Action>, k: ServiceKey)
    requires Init(w) && Legal(w, acts) && k in After(w, acts).mayBeEnabled
    ensures k in BoundKeys(After(w, acts).db.policies) || k in After(w, acts).db.orphans
  {
    ReachableIsSafe(w, acts);
  }

  lemma OrphansStay(w: World, a: Action)
    requires DistinctIds(w.db.policies) && Enabled(w, a) && !a.Reconcile? && !a.MarkService?
    ensures Step(w, a).db.orphans == w.db.orphans
  {
    if a.Refresh? {
      RefreshUpToIsFresh(w.db, a.at, |w.db.policies|);
    }
  }

  lemma OrphanIsMarked(w: World, k: ServiceKey)
    requires OrphanRowsOk(w.db) && AcksOk(w) && w.acking.Some? && MarkedService(w).Ok?
    requires k in w.db.orphans && k !in ServiceMarked(w).db.orphans
    ensures w.acking.value in w.acked && w.acking.value.key == k
    ensures !w.acking.value.row.payload.enabled && k !in w.mayBeEnabled
  {
  }

  // An orphan leaves the list only when it is bound again, or when its plugin acknowledged
  // disabling it and so cannot have it enabled.
  lemma OrphanLeaves(w: World, acts: seq<Action>, a: Action, k: ServiceKey)
    requires Init(w) && Legal(w, acts) && Enabled(After(w, acts), a)
    requires k in After(w, acts).db.orphans && k !in Step(After(w, acts), a).db.orphans
    ensures var v := After(w, acts);
            || (a.Reconcile? && k in BoundKeys(a.snapshot))
            || (a.MarkService? && v.acking.Some? && v.acking.value in v.acked
                && v.acking.value.key == k && !v.acking.value.row.payload.enabled && k !in v.mayBeEnabled)
  {
    var v := After(w, acts);
    assert DistinctIds(v.db.policies) && OrphanRowsOk(v.db) && AcksOk(v) by {
      ReachableIsSafe(w, acts);
    }
    if a.MarkService? {
      OrphanIsMarked(v, k);
    } else if !a.Reconcile? {
      OrphansStay(v, a);
    }
  }

  // No orphan gets stuck: once Desired has run, every orphan has a disabling record, and
  // that record needs to be applied whichever instance is running.
  lemma OrphanIsNeverStuck(w: World, acts: seq<Action>, k: ServiceKey, instance: Id)
    requires Init(w) && Legal(w, acts)
    requires var v := After(w, acts); v.cycle.Some? && v.db.generation > 0 && k in v.db.orphans
    ensures var db := After(w, acts).db;
            && k in db.services.rows && db.services.rows[k].payload == OrphanState(db)
            && NeedsApply(db.appliedServices, k, db.services.rows[k], instance)
  {
    ReachableIsSafe(w, acts);
    var v := After(w, acts);
    assert Meets(v.db.services, Want(k, OrphanState(v.db)));
  }

  // A revision names one content, for services and, separately, for block sets: so a
  // record needs no applying exactly when that instance acknowledged its revision.
  lemma RevisionNamesOneContent(w: World, acts: seq<Action>, k: ServiceKey, plugin: Id, instance: Id)
    requires Init(w) && Legal(w, acts)
    ensures var v := After(w, acts);
            && (forall e, e' :: e in v.written && e' in v.written && e.row.revision == e'.row.revision ==> e == e')
            && (forall e, e' :: e in v.writtenBlocks && e' in v.writtenBlocks && e.row.revision == e'.row.revision ==> e == e')
            && (k in v.db.services.rows ==>
                  (NeedsApply(v.db.appliedServices, k, v.db.services.rows[k], instance) <==>
                   !(k in v.db.appliedServices && v.db.appliedServices[k].instance == instance
                     && v.db.appliedServices[k].row.revision == v.db.services.rows[k].revision)))
            && (plugin in v.db.blocks.rows ==>
                  (NeedsApply(v.db.appliedBlocks, plugin, v.db.blocks.rows[plugin], instance) <==>
                   !(plugin in v.db.appliedBlocks && v.db.appliedBlocks[plugin].instance == instance
                     && v.db.appliedBlocks[plugin].row.revision == v.db.blocks.rows[plugin].revision)))
  {
    ReachableIsSafe(w, acts);
    var v := After(w, acts);
    if k in v.db.services.rows {
      RevisionDecides(v.db.services, v.db.appliedServices, v.written, k, instance);
    }
    if plugin in v.db.blocks.rows {
      RevisionDecides(v.db.blocks, v.db.appliedBlocks, v.writtenBlocks, plugin, instance);
    }
  }

  // ---- Quota ----

  lemma PoliciesStay(w: World, a: Action)
    requires Enabled(w, a) && !a.Reconcile? && !a.Refresh?
    ensures Step(w, a).db.generation == w.db.generation && Step(w, a).db.policies == w.db.policies
  {
  }

  lemma GenerationDecidesPolicies(w: World, a: Action)
    requires DistinctIds(w.db.policies) && Enabled(w, a)
    ensures var w' := Step(w, a);
            && w.db.generation <= w'.db.generation
            && (w.db.generation == w'.db.generation ==> SamePolicies(w.db.policies, w'.db.policies))
  {
    if a.Refresh? {
      RefreshUpToIsFresh(w.db, a.at, |w.db.policies|);
    } else if !a.Reconcile? {
      PoliciesStay(w, a);
    }
  }

  lemma {:induction false} SnapshotDecidesPolicies(w: World, acts: seq<Action>)
    requires Inv(w) && Legal(w, acts)
    ensures var v := After(w, acts);
            && w.db.generation <= v.db.generation
            && (w.db.generation == v.db.generation ==> SamePolicies(w.db.policies, v.db.policies))
    decreases |acts|
  {
    if acts != [] {
      SnapshotDecidesPolicies(w, acts[..|acts| - 1]);
      RunKeeps(w, acts[..|acts| - 1]);
      GenerationDecidesPolicies(After(w, acts[..|acts| - 1]), acts[|acts| - 1]);
    }
  }

  // The policies in force are those of the stored snapshot, up to the periods they are in.
  ghost predicate SnapshotInForce(db: Db) {
    if db.snapshot == None then db.policies == [] else SamePolicies(db.snapshot.value, db.policies)
  }

  lemma SnapshotStays(w: World, a: Action)
    requires Enabled(w, a) && !a.Reconcile? && !a.Refresh?
    ensures Step(w, a).db.snapshot == w.db.snapshot
  {
    match a
    case Desired(at, orphanOrder, pluginOrder) => DesiredKeepsSnapshot(w, at, orphanOrder, pluginOrder);
    case MarkService => MarkedKeepsSnapshot(w);
    case _ =>
  }

  lemma DesiredKeepsSnapshot(w: World, at: Instant, orphanOrder: seq<ServiceKey>, pluginOrder: seq<Id>)
    requires IsFresh(w.db, at) && DesiredTx(w.db, at, orphanOrder, pluginOrder).Ok?
    ensures Distributed(w, at, orphanOrder, pluginOrder).db.snapshot == w.db.snapshot
  {
  }

  lemma MarkedKeepsSnapshot(w: World)
    requires w.acking.Some? && MarkedService(w).Ok?
    ensures ServiceMarked(w).db.snapshot == w.db.snapshot
  {
  }

  lemma StepKeepsSnapshot(w: World, a: Action)
    requires DistinctIds(w.db.policies) && SnapshotInForce(w.db) && Enabled(w, a)
    ensures SnapshotInForce(Step(w, a).db)
  {
    if a.Reconcile? {
      ReconcileDecides(w.db, a.generation, a.snapshot);
    } else if a.Refresh? {
      RefreshUpToIsFresh(w.db, a.at, |w.db.policies|);
    } else {
      SnapshotStays(w, a);
      PoliciesStay(w, a);
    }
  }

  // In every run, whatever generations were refused, the policies in force are those of the
  // snapshot that is stored.
  lemma {:induction false} StoredSnapshotIsInForce(w: World, acts: seq<Action>)
    requires Init(w) && Legal(w, acts)
    ensures SnapshotInForce(After(w, acts).db)
    decreases |acts|
  {
    if acts != [] {
      StoredSnapshotIsInForce(w, acts[..|acts| - 1]);
      ReachableIsSafe(w, acts[..|acts| - 1]);
      StepKeepsSnapshot(After(w, acts[..|acts| - 1]), acts[|acts| - 1]);
    }
  }

  ghost predicate OverQuota(charged: Charged, p: Policy, period: Id) {
    && p.trafficLimit.Some? && TrafficKey(p.id, period) in charged
    && var b := charged[TrafficKey(p.id, period)]; b.up + b.down >= p.trafficLimit.value
  }

  lemma OverQuotaState(w: World, at: Instant, i: nat)
    requires TrafficOk(w) && IsFresh(w.db, at) && i < |w.db.policies|
    requires OverQuota(w.charged, w.db.policies[i], w.db.policies[i].currentPeriod.id)
    ensures w.db.policies[i].id in w.db.traffic.ledgers && !BoundState(w.db, w.db.policies[i], at.now).enabled
  {
    assert PolicyIsFresh(w.db, w.db.policies[i], at);
    assert LedgerOk(w.db.traffic, CenterView(w.log), w.charged, w.db.policies[i].id);
  }

  lemma DesiredDisables(db: Db, i: nat, j: nat, now: int)
    requires ServicesAreDesired(db, now) && i < |db.policies| && j < |db.policies[i].bindings|
    requires !BoundState(db, db.policies[i], now).enabled
    ensures var key := KeyOf(db.policies[i], db.policies[i].bindings[j]);
            key in db.services.rows && !db.services.rows[key].payload.enabled
  {
    assert BindingIsDesired(db, i, j, now);
  }

  // A state over its quota asks for no service of the authorization to be enabled.
  lemma OverQuotaIsDisabled(w: World, at: Instant, orphanOrder: seq<ServiceKey>, pluginOrder: seq<Id>, i: nat, j: nat)
    requires Inv(w) && Enabled(w, Desired(at, orphanOrder, pluginOrder)) && w.db.generation > 0
    requires i < |w.db.policies| && j < |w.db.policies[i].bindings|
    requires OverQuota(w.charged, w.db.policies[i], w.db.policies[i].currentPeriod.id)
    ensures var p := w.db.policies[i];
            var rows := Step(w, Desired(at, orphanOrder, pluginOrder)).db.services.rows;
            KeyOf(p, p.bindings[j]) in rows && !rows[KeyOf(p, p.bindings[j])].payload.enabled
  {
    var a := Desired(at, orphanOrder, pluginOrder);
    var p := w.db.policies[i];
    OverQuotaState(w, at, i);
    DesiredIsDesired(w, a);
    DesiredDisables(Step(w, a).db, i, j, at.now);
  }

  // Once the traffic of an authorization reaches its limit, every later Desired of the same
  // period and snapshot disables all its services, whatever counters arrive in between.
  lemma QuotaIsSticky(w: World, acts: seq<Action>, more: seq<Action>, at: Instant,
                      orphanOrder: seq<ServiceKey>, pluginOrder: seq<Id>, i: nat, j: nat)
    requires Init(w) && Legal(w, acts) && Legal(After(w, acts), more)
    requires var v, u := After(w, acts), After(After(w, acts), more);
             && v.db.generation == u.db.generation > 0
             && i < |v.db.policies| && j < |v.db.policies[i].bindings|
             && Enabled(u, Desired(at, orphanOrder, pluginOrder))
             && CurrentPeriod(v.db.policies[i], at).Some?
             && OverQuota(v.charged, v.db.policies[i], CurrentPeriod(v.db.policies[i], at).value.id)
    ensures var v, u := After(w, acts), After(After(w, acts), more);
            var rows := Step(u, Desired(at, orphanOrder, pluginOrder)).db.services.rows;
            var key := KeyOf(v.db.policies[i], v.db.policies[i].bindings[j]);
            key in rows && !rows[key].payload.enabled
  {
    ReachableIsSafe(w, acts);
    var v, u := After(w, acts), After(After(w, acts), more);
    RunKeeps(v, more);
    SnapshotDecidesPolicies(v, more);
    assert PolicyIsFresh(u.db, u.db.policies[i], at);
    OverQuotaIsDisabled(u, at, orphanOrder, pluginOrder, i, j);
  }

  // ---- Statuses ----

  // A plugin instance acknowledged exactly this state of a service, and no instance
  // acknowledged anything later for it.
  ghost predicate ServiceAcknowledged(w: World, key: ServiceKey, instance: Id, state: ServiceState) {
    && key in w.db.services.rows && w.db.services.rows[key].payload == state
    && Acknowledged(instance, key, w.db.services.rows[key]) in w.acked
    && forall a :: a in w.acked && a.key == key ==> a.row.revision <= w.db.services.rows[key].revision
  }

  ghost predicate BlocksAcknowledged(w: World, plugin: Id, instance: Id, state: BlockState) {
    && plugin in w.db.blocks.rows && w.db.blocks.rows[plugin].payload == state
    && Acknowledged(instance, plugin, w.db.blocks.rows[plugin]) in w.ackedBlocks
    && forall a :: a in w.ackedBlocks && a.key == plugin ==> a.row.revision <= w.db.blocks.rows[plugin].revision
  }

  // What a status claims about one binding holds of the plugin instance that runs it.
  ghost predicate BindingTruth(w: World, p: Policy, b: Binding, instances: map<Id, Id>, e: StatusEvent, now: int) {
    && b.plugin in instances
    && ServiceAcknowledged(w, KeyOf(p, b), instances[b.plugin], ServiceState(e.generation, e.enabled, e.reason, false))
    && (p.softIPLimit.Some? || b.plugin in w.db.blocks.rows ==>
          BlocksAcknowledged(w, b.plugin, instances[b.plugin], BlockState(e.generation, PluginBlocks(w.db, b.plugin, now))))
  }

  // What a status claims as a whole: the bytes charged in the current period, whether the
  // policy then allows the services, the addresses inside their windows, and its bindings.
  ghost predicate StatusTruth(w: World, p: Policy, instances: map<Id, Id>, e: StatusEvent, at: Instant) {
    && e.authorization == p.id && e.generation == w.db.generation
    && CurrentPeriod(p, at).Some? && e.period.id == CurrentPeriod(p, at).value.id
    && TrafficKey(p.id, e.period.id) in w.charged && w.charged[TrafficKey(p.id, e.period.id)] == Bytes(e.up, e.down)
    && (e.enabled <==>
          && p.enabled && (p.expiresAt == None || at.now < p.expiresAt.value)
          && (p.trafficLimit == None || e.up + e.down < p.trafficLimit.value))
    && e.activeIPs == (if p.softIPLimit.Some? then |SlotsOf(w.db.activity, p.id)| else 0)
    && e.blockedIPs == (if p.softIPLimit.Some? then |BlocksOf(w.db.activity, p.id)| else 0)
    && IsClean(w.db.activity, p, at.now)
    && (forall k :: k in w.db.orphans ==> k.authorization != p.id)
    && forall j :: 0 <= j < |p.bindings| ==> BindingTruth(w, p, p.bindings[j], instances, e, at.now)
  }

  // A status that a transaction writes is that of an authorization found applied.
  ghost predicate Wrote(db: Db, at: Instant, instances: map<Id, Id>, i: nat, e: StatusEvent)
    requires HasLedgers(db)
  {
    i < |db.policies| && AuthorizationApplied(db, db.policies[i], instances) && e == StatusOf(db, db.policies[i], at.now)
  }

  lemma {:induction false} WrittenStatusesAreApplied(db: Db, at: Instant, instances: map<Id, Id>, n: nat, id: Id)
    requires HasLedgers(db) && n <= |db.policies| && StatusesUpTo(db, at, instances, n).Ok?
    requires id in StatusesUpTo(db, at, instances, n).value
    ensures var s := StatusesUpTo(db, at, instances, n).value[id];
            (id in db.statuses && db.statuses[id] == s) || exists i: nat :: Wrote(db, at, instances, i, s.event)
    decreases n
  {
    if n > 0 {
      var before := StatusesUpTo(db, at, instances, n - 1).value;
      if id in before && StatusesUpTo(db, at, instances, n).value[id] == before[id] {
        WrittenStatusesAreApplied(db, at, instances, n - 1, id);
      } else {
        assert Wrote(db, at, instances, n - 1, StatusOf(db, db.policies[n - 1], at.now));
      }
    }
  }

  lemma BindingIsTrue(w: World, at: Instant, instances: map<Id, Id>, i: nat, j: nat, e: StatusEvent)
    requires Inv(w) && w.cycle == Some(at) && w.db.generation > 0 && HasLedgers(w.db)
    requires Wrote(w.db, at, instances, i, e) && j < |w.db.policies[i].bindings|
    ensures BindingTruth(w, w.db.policies[i], w.db.policies[i].bindings[j], instances, e, at.now)
  {
    var p := w.db.policies[i];
    var b := p.bindings[j];
    assert BindingApplied(w.db, p, b, instances);
    assert BindingIsDesired(w.db, i, j, at.now);
    if p.softIPLimit.Some? || b.plugin in w.db.blocks.rows {
      assert b.plugin in BlockPlugins(w.db);
      assert BlocksAreDesired(w.db, b.plugin, at.now);
    }
  }

  // In a cycle that reads the clock once and whose Desired succeeded, a status is written
  // only if it is true of the plugins.
  lemma StatusIsTruthful(w: World, acts: seq<Action>, at: Instant, instances: map<Id, Id>, id: Id)
    requires Init(w) && Legal(w, acts)
    requires var v := After(w, acts);
             && v.cycle == Some(at) && Enabled(v, RefreshStatuses(at, instances))
             && var v' := Step(v, RefreshStatuses(at, instances));
                id in v'.db.statuses && !(id in v.db.statuses && v.db.statuses[id] == v'.db.statuses[id])
    ensures var v := After(w, acts);
            var e := Step(v, RefreshStatuses(at, instances)).db.statuses[id].event;
            exists p :: p in v.db.policies && StatusTruth(v, p, instances, e, at)
  {
    ReachableIsSafe(w, acts);
    var v := After(w, acts);
    var e := Step(v, RefreshStatuses(at, instances)).db.statuses[id].event;
    WrittenStatusesAreApplied(v.db, at, instances, |v.db.policies|, id);
    var i: nat :| Wrote(v.db, at, instances, i, e);
    var p := v.db.policies[i];
    assert PolicyIsFresh(v.db, p, at);
    assert LedgerOk(v.db.traffic, CenterView(v.log), v.charged, p.id);
    QuotaTestIsExact(p, v.db.traffic.ledgers[p.id], at.now);
    forall j | 0 <= j < |p.bindings|
      ensures BindingTruth(v, p, p.bindings[j], instances, e, at.now)
    {
      BindingIsTrue(v, at, instances, i, j, e);
    }
    assert StatusTruth(v, p, instances, e, at);
  }
}
