// Handing desired state to the plugins: what Desired wants, and what the calls and their
// acknowledgements keep.
module PolicyDistribution {
  import opened Prelude
  import opened RevisionTable
  import opened PolicyModel
  import opened PolicyTraffic
  import opened PolicyTransactions
  import opened PolicySystem
  import opened PolicyInvariant

  // ---- What is wanted ----

  lemma {:induction false} PolicyWantsAre(p: Policy, state: ServiceState, n: nat)
    requires n <= |p.bindings|
    ensures |PolicyWants(p, state, n)| == n
    ensures forall j :: 0 <= j < n ==> PolicyWants(p, state, n)[j] == Want(KeyOf(p, p.bindings[j]), state)
  {
    if n > 0 {
      PolicyWantsAre(p, state, n - 1);
    }
  }

  ghost predicate WantedAt(db: Db, now: int, want: ServiceWant, i: nat, j: nat)
    requires HasLedgers(db)
  {
    && i < |db.policies| && j < |db.policies[i].bindings|
    && want == Want(KeyOf(db.policies[i], db.policies[i].bindings[j]), BoundState(db, db.policies[i], now))
  }

  lemma {:induction false} BoundWantsAre(db: Db, now: int, n: nat)
    requires HasLedgers(db) && n <= |db.policies|
    ensures forall want :: want in BoundWants(db, now, n) ==>
              exists i: nat, j: nat :: i < n && WantedAt(db, now, want, i, j)
    ensures forall i: nat, j: nat, want :: i < n && WantedAt(db, now, want, i, j) ==> want in BoundWants(db, now, n)
  {
    if n > 0 {
      var p := db.policies[n - 1];
      var state := BoundState(db, p, now);
      var wants := PolicyWants(p, state, |p.bindings|);
      BoundWantsAre(db, now, n - 1);
      PolicyWantsAre(p, state, |p.bindings|);
      forall want | want in BoundWants(db, now, n)
        ensures exists i: nat, j: nat :: i < n && WantedAt(db, now, want, i, j)
      {
        if want !in BoundWants(db, now, n - 1) {
          var j :| 0 <= j < |wants| && wants[j] == want;
          assert WantedAt(db, now, want, n - 1, j);
        }
      }
      forall i: nat, j: nat, want | i < n && WantedAt(db, now, want, i, j)
        ensures want in BoundWants(db, now, n)
      {
        if i == n - 1 {
          assert wants[j] == want;
        }
      }
    }
  }

  lemma {:induction false} OrphanWantsAre(db: Db, order: seq<ServiceKey>)
    ensures forall want :: want in OrphanWants(db, order) <==> want.key in order && want.payload == OrphanState(db)
    decreases |order|
  {
    if order != [] {
      OrphanWantsAre(db, order[..|order| - 1]);
    }
  }

  lemma {:induction false} BlockWantsAre(db: Db, now: int, order: seq<Id>)
    ensures forall want :: want in BlockWants(db, now, order) <==>
              want.key in order && want.payload == BlockState(db.generation, PluginBlocks(db, want.key, now))
    decreases |order|
  {
    if order != [] {
      BlockWantsAre(db, now, order[..|order| - 1]);
    }
  }

  // A key that is bound is wanted as its policy demands; an orphan is wanted disabled.
  ghost predicate WantsAre(db: Db, now: int, wants: seq<ServiceWant>)
    requires HasLedgers(db)
  {
    && (forall want :: want in wants && want.key in db.orphans ==> want.payload == OrphanState(db))
    && (forall want :: want in wants && want.key !in db.orphans ==>
          want.key in BoundKeys(db.policies) && !want.payload.orphan)
    && (forall i: nat, j: nat, want :: WantedAt(db, now, want, i, j) ==> want in wants)
    && (forall k :: k in db.orphans ==> Want(k, OrphanState(db)) in wants)
    && Consistent(wants)
  }

  lemma ServiceWantsAre(db: Db, now: int, order: seq<ServiceKey>)
    requires HasLedgers(db) && BindingsOk(db) && Enumerates(order, db.orphans)
    ensures WantsAre(db, now, ServiceWants(db, now, order))
  {
    var wants := ServiceWants(db, now, order);
    BoundWantsAre(db, now, |db.policies|);
    OrphanWantsAre(db, order);
    forall i: nat, j: nat, want | WantedAt(db, now, want, i, j)
      ensures want.key in BoundKeys(db.policies)
    {
    }
    forall i, j | 0 <= i < |wants| && 0 <= j < |wants| && wants[i].key == wants[j].key
      ensures wants[i] == wants[j]
    {
      SameKeySameWant(db, now, order, wants[i], wants[j]);
    }
  }

  lemma SameKeySameWant(db: Db, now: int, order: seq<ServiceKey>, a: ServiceWant, b: ServiceWant)
    requires HasLedgers(db) && BindingsOk(db) && forall k :: k in order ==> k in db.orphans
    requires a in ServiceWants(db, now, order) && b in ServiceWants(db, now, order) && a.key == b.key
    ensures a == b
  {
    BoundWantsAre(db, now, |db.policies|);
    OrphanWantsAre(db, order);
    if a in BoundWants(db, now, |db.policies|) {
      var i, j := BoundWantAt(db, now, a);
      if b in BoundWants(db, now, |db.policies|) {
        var i', j' := BoundWantAt(db, now, b);
        OneWantPerKey(db, now, a, b, i, j, i', j');
      }
    } else if b in BoundWants(db, now, |db.policies|) {
      var i, j := BoundWantAt(db, now, b);
    }
  }

  lemma BoundWantAt(db: Db, now: int, want: ServiceWant) returns (i: nat, j: nat)
    requires HasLedgers(db) && want in BoundWants(db, now, |db.policies|)
    ensures WantedAt(db, now, want, i, j) && want.key in BoundKeys(db.policies)
  {
    BoundWantsAre(db, now, |db.policies|);
    i, j :| WantedAt(db, now, want, i, j);
  }

  lemma OneWantPerKey(db: Db, now: int, a: ServiceWant, b: ServiceWant, i: nat, j: nat, i': nat, j': nat)
    requires HasLedgers(db) && DistinctIds(db.policies) && a.key == b.key
    requires WantedAt(db, now, a, i, j) && WantedAt(db, now, b, i', j')
    ensures a == b
  {
    assert db.policies[i].id == db.policies[i'].id;
  }

  // ---- Desired ----

  lemma PluginBlocksDependOn(db: Db, db': Db, plugin: Id, now: int)
    requires db'.policies == db.policies && db'.activity == db.activity
    ensures PluginBlocks(db', plugin, now) == PluginBlocks(db, plugin, now)
  {
  }

  lemma DesiredKeepsRows(w: World, a: Action)
    requires Inv(w) && a.Desired? && Enabled(w, a) && w.db.generation > 0
    ensures RowsOk(Step(w, a))
  {
    var wants := ServiceWants(w.db, a.at.now, a.orphanOrder);
    var services := EnsureAll(w.db.services, wants).value;
    EnsureAllKeepsHistory(w.db.services, w.db.appliedServices, w.written, wants);
    EnsureAllKeepsHistory(w.db.blocks, w.db.appliedBlocks, w.writtenBlocks, BlockWants(w.db, a.at.now, a.pluginOrder));
    ServiceWantsAre(w.db, a.at.now, a.orphanOrder);
    OrphanRowsStayOk(w, a.at.now, wants);
  }

  lemma OrphanRowsStayOk(w: World, now: int, wants: seq<ServiceWant>)
    requires Inv(w) && HasLedgers(w.db) && EnsureAll(w.db.services, wants).Ok? && WantsAre(w.db, now, wants)
    ensures OrphanRowsOk(w.db.(services := EnsureAll(w.db.services, wants).value))
  {
    var services := EnsureAll(w.db.services, wants).value;
    forall k | k in services.rows && services.rows[k].payload.orphan
      ensures !services.rows[k].payload.enabled
      ensures k in w.db.appliedServices ==> w.db.appliedServices[k].row != services.rows[k]
    {
      EnsureAllOrigin(w.db.services, wants, k);
      if !OldRow(w.db.services, k, services.rows[k]) {
        var want := Want(k, services.rows[k].payload);
        if k in w.db.appliedServices {
          assert Entry(k, w.db.appliedServices[k].row) in w.written;
        }
      }
    }
  }

  lemma ServicesBecomeDesired(db: Db, db': Db, now: int, wants: seq<ServiceWant>)
    requires HasLedgers(db) && WantsAre(db, now, wants) && EnsureAll(db.services, wants).Ok?
    requires db' == db.(services := EnsureAll(db.services, wants).value, blocks := db'.blocks)
    ensures ServicesAreDesired(db', now)
  {
    EnsureAllMeets(db.services, wants);
    forall i, j | 0 <= i < |db'.policies| && 0 <= j < |db'.policies[i].bindings|
      ensures BindingIsDesired(db', i, j, now)
    {
      assert WantedAt(db, now, Want(KeyOf(db.policies[i], db.policies[i].bindings[j]), BoundState(db, db.policies[i], now)), i, j);
    }
  }

  lemma BlocksBecomeDesired(db: Db, db': Db, now: int, order: seq<Id>)
    requires Enumerates(order, BlockPlugins(db)) && EnsureAll(db.blocks, BlockWants(db, now, order)).Ok?
    requires db' == db.(blocks := EnsureAll(db.blocks, BlockWants(db, now, order)).value, services := db'.services)
    ensures forall p :: p in BlockPlugins(db') ==> BlocksAreDesired(db', p, now)
  {
    var wants := BlockWants(db, now, order);
    BlockWantsAre(db, now, order);
    assert Consistent(wants);
    EnsureAllMeets(db.blocks, wants);
    forall p | p in BlockPlugins(db')
      ensures BlocksAreDesired(db', p, now)
    {
      if p in db'.blocks.rows {
        EnsureAllOrigin(db.blocks, wants, p);
      }
      assert p in BlockPlugins(db);
      PluginBlocksDependOn(db, db', p, now);
      assert Want(p, BlockState(db.generation, PluginBlocks(db, p, now))) in wants;
    }
  }

  lemma DesiredIsDesired(w: World, a: Action)
    requires Inv(w) && a.Desired? && Enabled(w, a) && w.db.generation > 0
    ensures var db := Step(w, a).db; IsFresh(db, a.at) && IsDesired(db, a.at.now)
  {
    ServiceWantsAre(w.db, a.at.now, a.orphanOrder);
    ServicesBecomeDesired(w.db, Step(w, a).db, a.at.now, ServiceWants(w.db, a.at.now, a.orphanOrder));
    BlocksBecomeDesired(w.db, Step(w, a).db, a.at.now, a.pluginOrder);
  }

  lemma DesiredKeeps(w: World, a: Action)
    requires Inv(w) && a.Desired? && Enabled(w, a)
    ensures Inv(Step(w, a)) && ChargesGrow(w.charged, Step(w, a).charged)
  {
    if w.db.generation == 0 {
      RecordsStayOk(w, Forgotten(w));
    } else {
      DesiredKeepsRows(w, a);
      DesiredIsDesired(w, a);
      DesiredKeepsAcks(w, a);
    }
  }

  lemma DesiredKeepsAcks(w: World, a: Action)
    requires Inv(w) && a.Desired? && Enabled(w, a) && w.db.generation > 0 && RowsOk(Step(w, a))
    ensures AcksOk(Step(w, a)) && TodoOk(Step(w, a))
  {
    ServiceWantsAre(w.db, a.at.now, a.orphanOrder);
    var wants := ServiceWants(w.db, a.at.now, a.orphanOrder);
    EnsureAllMeets(w.db.services, wants);
  }

  // ---- Plugin calls and acknowledgements ----

  lemma SetServiceKeeps(w: World, s: DesiredService, instance: Id, acknowledged: bool)
    requires Inv(w) && s in w.todo
    ensures Inv(ServiceSet(w, s, instance, acknowledged))
    ensures ChargesGrow(w.charged, ServiceSet(w, s, instance, acknowledged).charged)
  {
  }

  lemma SetBlocksKeeps(w: World, b: DesiredBlocks, instance: Id, acknowledged: bool)
    requires Inv(w) && b in w.todoBlocks
    ensures Inv(BlocksSet(w, b, instance, acknowledged))
    ensures ChargesGrow(w.charged, BlocksSet(w, b, instance, acknowledged).charged)
  {
  }

  lemma ServiceAppliedKeepsRows(db: Db, s: DesiredService, instance: Id, written: set<Entry<ServiceKey, ServiceState>>)
    requires HistoryOk(db.services, db.appliedServices, written) && OrphanRowsOk(db)
    requires ServiceApplied(db, s, instance).Ok?
    ensures var db' := ServiceApplied(db, s, instance).value;
            HistoryOk(db'.services, db'.appliedServices, written) && OrphanRowsOk(db')
  {
    MarkKeepsHistory(db.services, db.appliedServices, written, s.key, s.row, instance);
    ServiceAppliedKeepsOrphanRows(db, s, instance);
  }

  lemma ServiceAppliedKeepsOrphanRows(db: Db, s: DesiredService, instance: Id)
    requires OrphanRowsOk(db) && ServiceApplied(db, s, instance).Ok?
    ensures OrphanRowsOk(ServiceApplied(db, s, instance).value)
  {
    var db' := ServiceApplied(db, s, instance).value;
    forall k | k in db'.services.rows && db'.services.rows[k].payload.orphan
      ensures !db'.services.rows[k].payload.enabled
      ensures k in db'.appliedServices ==> db'.appliedServices[k].row != db'.services.rows[k]
    {
      assert db.services.rows[k] == db'.services.rows[k];
    }
  }

  lemma MarkServiceKeepsRows(w: World)
    requires RowsOk(w) && w.acking.Some? && MarkedService(w).Ok?
    ensures RowsOk(ServiceMarked(w))
  {
    var ack := w.acking.value;
    ServiceAppliedKeepsRows(w.db, Entry(ack.key, ack.row), ack.instance, w.written);
  }

  lemma MarkBlocksKeepsRows(w: World)
    requires RowsOk(w) && w.ackingBlocks.Some? && MarkedBlocks(w).Ok?
    ensures RowsOk(BlocksMarked(w))
  {
    var ack := w.ackingBlocks.value;
    MarkKeepsHistory(w.db.blocks, w.db.appliedBlocks, w.writtenBlocks, ack.key, ack.row, ack.instance);
  }

  // The blocks that are demanded depend on neither services nor acknowledgements.
  lemma BlocksStayDesired(db: Db, db': Db, now: int)
    requires db'.policies == db.policies && db'.activity == db.activity && db'.generation == db.generation
    requires db'.blocks == db.blocks
    requires forall p :: p in BlockPlugins(db) ==> BlocksAreDesired(db, p, now)
    ensures forall p :: p in BlockPlugins(db') ==> BlocksAreDesired(db', p, now)
  {
    forall p | p in BlockPlugins(db')
      ensures BlocksAreDesired(db', p, now)
    {
      assert p in BlockPlugins(db);
      PluginBlocksDependOn(db, db', p, now);
    }
  }

  lemma ServicesStayDesired(db: Db, s: DesiredService, instance: Id, now: int)
    requires ServicesAreDesired(db, now) && ServiceApplied(db, s, instance).Ok?
    ensures ServicesAreDesired(ServiceApplied(db, s, instance).value, now)
  {
    var db' := ServiceApplied(db, s, instance).value;
    forall i, j | 0 <= i < |db'.policies| && 0 <= j < |db'.policies[i].bindings|
      ensures BindingIsDesired(db', i, j, now)
    {
      assert BindingIsDesired(db, i, j, now);
    }
  }

  lemma ServicesStayDesiredToo(db: Db, db': Db, now: int)
    requires ServicesAreDesired(db, now) && db' == db.(appliedBlocks := db'.appliedBlocks)
    ensures ServicesAreDesired(db', now)
  {
    forall i, j | 0 <= i < |db'.policies| && 0 <= j < |db'.policies[i].bindings|
      ensures BindingIsDesired(db', i, j, now)
    {
      assert BindingIsDesired(db, i, j, now);
    }
  }

  lemma MarkServiceKeepsCycle(w: World)
    requires CycleOk(w) && w.acking.Some? && MarkedService(w).Ok?
    ensures CycleOk(ServiceMarked(w))
  {
    if w.cycle.Some? && w.db.generation > 0 {
      var ack, now := w.acking.value, w.cycle.value.now;
      BlocksStayDesired(w.db, ServiceMarked(w).db, now);
      ServicesStayDesired(w.db, Entry(ack.key, ack.row), ack.instance, now);
    }
  }

  lemma MarkBlocksKeepsCycle(w: World)
    requires CycleOk(w) && w.ackingBlocks.Some? && MarkedBlocks(w).Ok?
    ensures CycleOk(BlocksMarked(w))
  {
    if w.cycle.Some? && w.db.generation > 0 {
      BlocksStayDesired(w.db, BlocksMarked(w).db, w.cycle.value.now);
      ServicesStayDesiredToo(w.db, BlocksMarked(w).db, w.cycle.value.now);
    }
  }

  // An orphan leaves the list with an acknowledged disable.
  lemma MarkServiceIsFailClosed(w: World)
    requires BindingsOk(w.db) && RowsOk(w) && AcksOk(w) && FailClosed(w) && w.acking.Some? && MarkedService(w).Ok?
    ensures BindingsOk(ServiceMarked(w).db) && FailClosed(ServiceMarked(w))
  {
  }

  lemma MarkServiceKeepsAcks(w: World)
    requires AcksOk(w) && w.acking.Some? && MarkedService(w).Ok?
    ensures AcksOk(ServiceMarked(w))
  {
  }

  lemma MarkBlocksKeepsAcks(w: World)
    requires AcksOk(w) && w.ackingBlocks.Some? && MarkedBlocks(w).Ok?
    ensures AcksOk(BlocksMarked(w))
  {
  }

  lemma MarkServiceKeepsTodo(w: World)
    requires TodoOk(w) && w.acking.Some? && MarkedService(w).Ok?
    ensures TodoOk(ServiceMarked(w))
  {
  }

  lemma MarkServiceKeeps(w: World)
    requires Inv(w) && w.acking.Some? && MarkedService(w).Ok?
    ensures Inv(ServiceMarked(w)) && ChargesGrow(w.charged, ServiceMarked(w).charged)
  {
    MarkServiceKeepsRows(w);
    MarkServiceKeepsCycle(w);
    MarkServiceIsFailClosed(w);
    MarkServiceKeepsAcks(w);
    MarkServiceKeepsTodo(w);
  }

  lemma MarkBlocksKeeps(w: World)
    requires Inv(w) && w.ackingBlocks.Some? && MarkedBlocks(w).Ok?
    ensures Inv(BlocksMarked(w)) && ChargesGrow(w.charged, BlocksMarked(w).charged)
  {
    MarkBlocksKeepsRows(w);
    MarkBlocksKeepsCycle(w);
    MarkBlocksKeepsAcks(w);
  }

  // ---- Every step ----

  lemma StepKeeps(w: World, a: Action)
    requires Inv(w) && Enabled(w, a)
    ensures Inv(Step(w, a)) && ChargesGrow(w.charged, Step(w, a).charged)
  {
    match a
    case Reconcile(_, _) => ReconcileKeeps(w, a);
    case Refresh(_) => RefreshKeeps(w, a);
    case ApplyCounters(_, _, _, _) => CountersKeep(w, a);
    case ObserveActivity(_, _, _) => ObserveKeeps(w, a);
    case EnqueueTraffic(_) => TrafficQueueKeeps(w, a);
    case MarkTraffic(_) => TrafficQueueKeeps(w, a);
    case Desired(_, _, _) => DesiredKeeps(w, a);
    case SetService(s, instance, acknowledged) => SetServiceKeeps(w, s, instance, acknowledged);
    case MarkService => MarkServiceKeeps(w);
    case SetBlocks(b, instance, acknowledged) => SetBlocksKeeps(w, b, instance, acknowledged);
    case MarkBlocks => MarkBlocksKeeps(w);
    case RefreshStatuses(_, _) => StatusesKeep(w, a);
    case EnqueueStatus(_) => StatusesKeep(w, a);
    case MarkStatus(_) => StatusesKeep(w, a);
    case EndCycle => StatusesKeep(w, a);
  }

  lemma {:induction false} RunKeeps(w: World, acts: seq<Action>)
    requires Inv(w) && Legal(w, acts)
    ensures Inv(After(w, acts)) && ChargesGrow(w.charged, After(w, acts).charged)
    decreases |acts|
  {
    if acts != [] {
      var before := After(w, acts[..|acts| - 1]);
      RunKeeps(w, acts[..|acts| - 1]);
      StepKeeps(before, acts[|acts| - 1]);
      ChargesGrowOn(w.charged, before.charged, After(w, acts).charged);
    }
  }

  // Every reachable state satisfies the invariant.
  lemma ReachableIsSafe(w: World, acts: seq<Action>)
    requires Init(w) && Legal(w, acts)
    ensures Inv(After(w, acts))
  {
    RunKeeps(w, acts);
  }
}
