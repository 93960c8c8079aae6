// What every step of the policy engine keeps.
module PolicyInvariant {
  import opened Prelude
  import opened RevisionTable
  import opened PolicyModel
  import opened PolicyCounters
  import opened PolicyTraffic
  import opened PolicyActivity
  import opened PolicyTransactions
  import opened PolicySystem

  // ---- The parts of the invariant ----

  ghost predicate BindingsOk(db: Db) {
    DistinctIds(db.policies) && db.orphans !! BoundKeys(db.policies)
  }

  ghost predicate TrafficOk(w: World) { TrafficInv(w.db.traffic, CenterView(w.log), w.charged) }

  // A desired record of an orphan asks for it to be disabled, and nobody acknowledged it.
  ghost predicate OrphanRowsOk(db: Db) {
    forall k :: k in db.services.rows && db.services.rows[k].payload.orphan ==>
      && !db.services.rows[k].payload.enabled
      && (k in db.appliedServices ==> db.appliedServices[k].row != db.services.rows[k])
  }

  ghost predicate RowsOk(w: World) {
    && HistoryOk(w.db.services, w.db.appliedServices, w.written)
    && HistoryOk(w.db.blocks, w.db.appliedBlocks, w.writtenBlocks)
    && OrphanRowsOk(w.db)
  }

  // Unbinding is fail-closed: a service that a plugin may still have enabled is bound or is
  // on the list of orphans.
  ghost predicate FailClosed(w: World) {
    w.mayBeEnabled <= BoundKeys(w.db.policies) + w.db.orphans
  }

  ghost predicate AcksOk(w: World) {
    && (forall k :: k in w.db.appliedServices ==>
          Acknowledged(w.db.appliedServices[k].instance, k, w.db.appliedServices[k].row) in w.acked)
    && (forall k :: k in w.db.appliedBlocks ==>
          Acknowledged(w.db.appliedBlocks[k].instance, k, w.db.appliedBlocks[k].row) in w.ackedBlocks)
    && (w.acking.Some? ==>
          && w.acking.value in w.acked
          && (!w.acking.value.row.payload.enabled ==> w.acking.value.key !in w.mayBeEnabled))
    && (w.ackingBlocks.Some? ==> w.ackingBlocks.value in w.ackedBlocks)
    && (forall a :: a in w.acked ==> Entry(a.key, a.row) in w.written)
    && (forall a :: a in w.ackedBlocks ==> Entry(a.key, a.row) in w.writtenBlocks)
  }

  // Only a bound service is asked to be enabled, and what is handed out is current.
  ghost predicate TodoOk(w: World) {
    && w.todo <= w.written
    && (forall s :: s in w.todo && s.row.payload.enabled ==> s.key in BoundKeys(w.db.policies))
    && w.todoBlocks <= w.writtenBlocks
    && (forall s :: s in w.todo && s.key in w.db.services.rows ==> w.db.services.rows[s.key] == s.row)
    && (forall b :: b in w.todoBlocks && b.key in w.db.blocks.rows ==> w.db.blocks.rows[b.key] == b.row)
  }

  // The desired records of a cycle say what its instant demands.
  ghost predicate BindingIsDesired(db: Db, i: nat, j: nat, now: int)
    requires HasLedgers(db) && i < |db.policies| && j < |db.policies[i].bindings|
  {
    Meets(db.services, Want(KeyOf(db.policies[i], db.policies[i].bindings[j]), BoundState(db, db.policies[i], now)))
  }

  ghost predicate BlocksAreDesired(db: Db, plugin: Id, now: int) {
    Meets(db.blocks, Want(plugin, BlockState(db.generation, PluginBlocks(db, plugin, now))))
  }

  ghost predicate ServicesAreDesired(db: Db, now: int) {
    && HasLedgers(db)
    && (forall i, j :: 0 <= i < |db.policies| && 0 <= j < |db.policies[i].bindings| ==> BindingIsDesired(db, i, j, now))
    && (forall k :: k in db.orphans ==> Meets(db.services, Want(k, OrphanState(db))))
  }

  ghost predicate IsDesired(db: Db, now: int) {
    && ServicesAreDesired(db, now)
    && (forall p :: p in BlockPlugins(db) ==> BlocksAreDesired(db, p, now))
  }

  ghost predicate CycleOk(w: World) {
    w.cycle.Some? ==> IsFresh(w.db, w.cycle.value) && (w.db.generation > 0 ==> IsDesired(w.db, w.cycle.value.now))
  }

  ghost predicate Inv(w: World) {
    && BindingsOk(w.db) && TrafficOk(w) && ActivityInv(w.db.activity)
    && RowsOk(w) && FailClosed(w) && AcksOk(w) && TodoOk(w) && CycleOk(w)
  }

  // ---- Bindings ----

  lemma SameBindings(a: seq<Policy>, b: seq<Policy>)
    requires SamePolicies(a, b)
    ensures BoundKeys(b) == BoundKeys(a)
    ensures DistinctIds(a) ==> DistinctIds(b)
  {
    forall k | k in BoundKeys(a)
      ensures k in BoundKeys(b)
    {
      var i, j :| 0 <= i < |a| && 0 <= j < |a[i].bindings| && k == KeyOf(a[i], a[i].bindings[j]);
      assert k == KeyOf(b[i], b[i].bindings[j]);
    }
    forall k | k in BoundKeys(b)
      ensures k in BoundKeys(a)
    {
      var i, j :| 0 <= i < |b| && 0 <= j < |b[i].bindings| && k == KeyOf(b[i], b[i].bindings[j]);
      assert k == KeyOf(a[i], a[i].bindings[j]);
    }
  }

  // ---- Traffic ----

  // Opening or charging one authorization's ledger does not make another's return.
  lemma OthersMayOpen(t: Traffic, charged: Charged, id: Id, period: Period, other: Id, otherPeriod: Period)
    requires id != other && MayOpen(t, charged, other, otherPeriod)
    ensures MayOpen(EnsureLedger(t, id, period), Started(t, charged, id, period), other, otherPeriod)
  {
  }

  lemma OthersMayOpenAfterCharge(t: Traffic, charged: Charged, id: Id, period: Period, delta: Bytes, other: Id, otherPeriod: Period)
    requires id != other && MayOpen(t, charged, other, otherPeriod) && ChargeLedger(t, id, period, delta).Ok?
    ensures MayOpen(ChargeLedger(t, id, period, delta).value, ChargedMore(t, charged, id, period, delta), other, otherPeriod)
  {
  }

  ghost predicate MayOpenAt(db: Db, charged: Charged, at: Instant, i: nat)
    requires i < |db.policies|
  {
    CurrentPeriod(db.policies[i], at).Some? ==>
      MayOpen(db.traffic, charged, db.policies[i].id, CurrentPeriod(db.policies[i], at).value)
  }

  // Bytes once charged stay charged.
  ghost predicate ChargesGrow(before: Charged, after: Charged) {
    forall k :: k in before ==> k in after && before[k].up <= after[k].up && before[k].down <= after[k].down
  }

  lemma ChargesGrowOn(a: Charged, b: Charged, c: Charged)
    requires ChargesGrow(a, b) && ChargesGrow(b, c)
    ensures ChargesGrow(a, c)
  {
  }

  ghost predicate MayOpenFrom(db: Db, charged: Charged, at: Instant, n: nat) {
    forall i :: n <= i < |db.policies| ==> MayOpenAt(db, charged, at, i)
  }

  lemma RefreshOneKeepsTraffic(db: Db, view: View, charged: Charged, at: Instant, n: nat)
    requires DistinctIds(db.policies) && n < |db.policies| && RefreshOne(db, at, n).Ok?
    requires TrafficInv(db.traffic, view, charged) && MayOpenFrom(db, charged, at, n)
    ensures var id, period := db.policies[n].id, CurrentPeriod(db.policies[n], at).value;
            var r, charged' := RefreshOne(db, at, n).value, Started(db.traffic, charged, id, period);
            TrafficInv(r.traffic, view, charged') && ChargesGrow(charged, charged') && MayOpenFrom(r, charged', at, n + 1)
  {
    var id, period := db.policies[n].id, CurrentPeriod(db.policies[n], at).value;
    var r, charged' := RefreshOne(db, at, n).value, Started(db.traffic, charged, id, period);
    assert MayOpenAt(db, charged, at, n);
    EnsureLedgerKeeps(db.traffic, view, charged, id, period);
    forall i | n + 1 <= i < |r.policies|
      ensures MayOpenAt(r, charged', at, i)
    {
      assert MayOpenAt(db, charged, at, i);
      assert r.policies[i] == db.policies[i];
      if CurrentPeriod(db.policies[i], at).Some? {
        OthersMayOpen(db.traffic, charged, id, period, db.policies[i].id, CurrentPeriod(db.policies[i], at).value);
      }
    }
  }

  ghost predicate Refreshable(db: Db, view: View, charged: Charged, at: Instant, n: nat) {
    DistinctIds(db.policies) && TrafficInv(db.traffic, view, charged) && MayOpenFrom(db, charged, at, n)
  }

  lemma RefreshOneKeepsRefreshable(db: Db, view: View, charged: Charged, at: Instant, n: nat)
    requires Refreshable(db, view, charged, at, n) && n < |db.policies| && RefreshOne(db, at, n).Ok?
    ensures var charged' := Started(db.traffic, charged, db.policies[n].id, CurrentPeriod(db.policies[n], at).value);
            Refreshable(RefreshOne(db, at, n).value, view, charged', at, n + 1) && ChargesGrow(charged, charged')
  {
    RefreshOneKeepsTraffic(db, view, charged, at, n);
  }

  lemma {:induction false} RefreshKeepsTraffic(db: Db, view: View, charged: Charged, at: Instant, n: nat)
    requires Refreshable(db, view, charged, at, 0) && n <= |db.policies| && RefreshUpTo(db, at, n).Ok?
    ensures var r, charged' := RefreshUpTo(db, at, n).value, ChargedByRefresh(db, charged, at, n);
            Refreshable(r, view, charged', at, n) && ChargesGrow(charged, charged')
  {
    if n > 0 {
      RefreshKeepsTraffic(db, view, charged, at, n - 1);
      var before, charged1 := RefreshUpTo(db, at, n - 1).value, ChargedByRefresh(db, charged, at, n - 1);
      RefreshOneKeepsRefreshable(before, view, charged1, at, n - 1);
      ChargesGrowOn(charged, charged1, ChargedByRefresh(db, charged, at, n));
    }
  }

  ghost predicate IdMayOpen(t: Traffic, charged: Charged, policies: seq<Policy>, at: Instant, id: Id) {
    var p := FindPolicy(policies, id);
    p.Some? && CurrentPeriod(p.value, at).Some? ==> MayOpen(t, charged, id, CurrentPeriod(p.value, at).value)
  }

  lemma ChargeOneKeepsTraffic(t: Traffic, view: View, charged: Charged, id: Id, period: Period, delta: Bytes)
    requires TrafficInv(t, view, charged) && MayOpen(t, charged, id, period) && ChargeLedger(t, id, period, delta).Ok?
    ensures TrafficInv(ChargeLedger(t, id, period, delta).value, view, ChargedMore(t, charged, id, period, delta))
    ensures ChargesGrow(charged, ChargedMore(t, charged, id, period, delta))
  {
    ChargeLedgerKeeps(t, view, charged, id, period, delta);
  }

  lemma {:induction false} ChargeAllKeepsTraffic(t: Traffic, view: View, charged: Charged, policies: seq<Policy>,
                                                 deltas: map<Id, Bytes>, at: Instant, order: seq<Id>, other: Id)
    requires ChargeAll(t, policies, deltas, at, order).Ok?
    requires TrafficInv(t, view, charged)
    requires forall i, j :: 0 <= i < j < |order| ==> order[i] != order[j]
    requires forall id :: IdMayOpen(t, charged, policies, at, id)
    ensures var r, charged' := ChargeAll(t, policies, deltas, at, order).value,
                               ChargedByCounters(t, charged, policies, deltas, at, order);
            && TrafficInv(r, view, charged') && ChargesGrow(charged, charged')
            && (other !in order ==> IdMayOpen(r, charged', policies, at, other))
    decreases |order|
  {
    if order != [] {
      var id, front := order[|order| - 1], order[..|order| - 1];
      var before, charged1 := ChargeAll(t, policies, deltas, at, front).value,
                              ChargedByCounters(t, charged, policies, deltas, at, front);
      ChargeAllKeepsTraffic(t, view, charged, policies, deltas, at, front, id);
      ChargeAllKeepsTraffic(t, view, charged, policies, deltas, at, front, other);
      if Delta(deltas, id) != Bytes(0, 0) {
        var period := CurrentPeriod(FindPolicy(policies, id).value, at).value;
        ChargeOneKeepsTraffic(before, view, charged1, id, period, Delta(deltas, id));
        ChargesGrowOn(charged, charged1, ChargedMore(before, charged1, id, period, Delta(deltas, id)));
        if other !in order && FindPolicy(policies, other).Some? && CurrentPeriod(FindPolicy(policies, other).value, at).Some? {
          OthersMayOpenAfterCharge(before, charged1, id, period, Delta(deltas, id), other,
                                   CurrentPeriod(FindPolicy(policies, other).value, at).value);
        }
      }
    }
  }

  lemma {:induction false} FoundPolicy(policies: seq<Policy>, id: Id) returns (i: nat)
    requires FindPolicy(policies, id).Some?
    ensures i < |policies| && policies[i] == FindPolicy(policies, id).value && policies[i].id == id
    decreases |policies|
  {
    if policies[|policies| - 1].id == id {
      i := |policies| - 1;
    } else {
      i := FoundPolicy(policies[..|policies| - 1], id);
    }
  }

  lemma {:induction false} OnlyOneFound(policies: seq<Policy>, i: nat)
    requires DistinctIds(policies) && i < |policies|
    ensures FindPolicy(policies, policies[i].id) == Some(policies[i])
    decreases |policies|
  {
    if i < |policies| - 1 {
      assert policies[..|policies| - 1][i] == policies[i];
      OnlyOneFound(policies[..|policies| - 1], i);
    }
  }

  lemma CountersKeepTraffic(w: World, a: Action)
    requires Inv(w) && a.ApplyCounters? && Enabled(w, a)
    ensures TrafficOk(Step(w, a)) && ChargesGrow(w.charged, Step(w, a).charged)
  {
    forall id
      ensures IdMayOpen(w.db.traffic, w.charged, w.db.policies, a.at, id)
    {
      if FindPolicy(w.db.policies, id).Some? {
        var i := FoundPolicy(w.db.policies, id);
      }
    }
    ChargeAllKeepsTraffic(w.db.traffic, CenterView(w.log), w.charged, w.db.policies,
                          Deltas(w.db, a.plugin, a.list), a.at, a.order, 0);
  }

  // ---- Steps that leave the records alone ----

  // A step that starts another cycle, and leaves desired and acknowledged records alone.
  ghost predicate RecordsUnchanged(w: World, w': World) {
    && w' == Forgotten(w').(written := w.written, writtenBlocks := w.writtenBlocks, acked := w.acked, ackedBlocks := w.ackedBlocks)
    && w'.db == w'.db.(services := w.db.services, appliedServices := w.db.appliedServices,
                       blocks := w.db.blocks, appliedBlocks := w.db.appliedBlocks)
  }

  lemma RecordsStayOk(w: World, w': World)
    requires RowsOk(w) && AcksOk(w) && RecordsUnchanged(w, w')
    ensures RowsOk(w') && AcksOk(w') && TodoOk(w') && CycleOk(w')
  {
  }

  lemma ReconcileIsFailClosed(w: World, a: Action)
    requires BindingsOk(w.db) && FailClosed(w) && a.Reconcile? && Enabled(w, a)
    ensures BindingsOk(Step(w, a).db) && FailClosed(Step(w, a))
  {
  }

  lemma ReconcileKeeps(w: World, a: Action)
    requires Inv(w) && a.Reconcile? && Enabled(w, a)
    ensures Inv(Step(w, a)) && ChargesGrow(w.charged, Step(w, a).charged)
  {
    RecordsStayOk(w, Step(w, a));
    ReconcileIsFailClosed(w, a);
    DropLedgersKeeps(w.db.traffic, CenterView(w.log), w.charged, Ids(a.snapshot));
  }

  lemma RefreshKeeps(w: World, a: Action)
    requires Inv(w) && a.Refresh? && Enabled(w, a)
    ensures Inv(Step(w, a)) && ChargesGrow(w.charged, Step(w, a).charged)
  {
    var n := |w.db.policies|;
    RefreshUpToIsFresh(w.db, a.at, n);
    RecordsStayOk(w, Step(w, a));
    SameBindings(w.db.policies, Refreshed(w.db, a.at).value.policies);
    RefreshKeepsTraffic(w.db, CenterView(w.log), w.charged, a.at, n);
    RefreshKeepsActivity(w.db, a.at, n);
  }

  lemma {:induction false} RefreshKeepsActivity(db: Db, at: Instant, n: nat)
    requires n <= |db.policies| && RefreshUpTo(db, at, n).Ok? && ActivityInv(db.activity)
    ensures ActivityInv(RefreshUpTo(db, at, n).value.activity)
  {
    if n > 0 {
      RefreshKeepsActivity(db, at, n - 1);
      var before := RefreshUpTo(db, at, n - 1).value;
      SlotsAndBlocksStayApart(before.activity, before.policies[n - 1], 0, at.now);
    }
  }

  lemma CountersKeep(w: World, a: Action)
    requires Inv(w) && a.ApplyCounters? && Enabled(w, a)
    ensures Inv(Step(w, a)) && ChargesGrow(w.charged, Step(w, a).charged)
  {
    RecordsStayOk(w, Step(w, a));
    CountersKeepTraffic(w, a);
  }

  lemma ObservedKeepsActivity(db: Db, authorization: Id, address: Id, time: int)
    requires ActivityInv(db.activity)
    ensures var db' := ActivityObserved(db, authorization, address, time).0;
            db' == db.(activity := db'.activity) && ActivityInv(db'.activity)
  {
    var p := FindPolicy(db.policies, authorization);
    if p.Some? {
      SlotsAndBlocksStayApart(db.activity, p.value, address, time);
    }
  }

  lemma ObserveKeeps(w: World, a: Action)
    requires Inv(w) && a.ObserveActivity? && Enabled(w, a)
    ensures Inv(Step(w, a)) && ChargesGrow(w.charged, Step(w, a).charged)
  {
    ObservedKeepsActivity(w.db, a.authorization, a.address, a.time);
    RecordsStayOk(w, Step(w, a));
  }

  lemma TrafficQueueKeeps(w: World, a: Action)
    requires Inv(w) && (a.EnqueueTraffic? || a.MarkTraffic?) && Enabled(w, a)
    ensures Inv(Step(w, a)) && ChargesGrow(w.charged, Step(w, a).charged)
  {
    RecordsStayOk(w, Step(w, a));
    if a.EnqueueTraffic? {
      EnqueueKeeps(w.db.traffic, w.log, w.charged, a.e);
    } else {
      MarkQueuedKeeps(w.db.traffic, w.log, w.charged, a.e);
    }
  }

  lemma StatusesKeep(w: World, a: Action)
    requires Inv(w) && (a.RefreshStatuses? || a.EnqueueStatus? || a.MarkStatus? || a.EndCycle?) && Enabled(w, a)
    ensures Inv(Step(w, a)) && ChargesGrow(w.charged, Step(w, a).charged)
  {
    StatusesAreApart(w, Step(w, a));
  }

  // Nothing else depends on the statuses.
  lemma StatusesAreApart(w: World, w': World)
    requires Inv(w)
    requires w' == Forgotten(w).(db := w.db.(statuses := w'.db.statuses), statusLog := w'.statusLog)
    ensures Inv(w')
  {
    RecordsStayOk(w, w');
  }
}
