// Runs of the policy engine in which something happens: the theorems about runs are not
// vacuous. One run ends with a status to write; in another the acknowledgement of an
// enabling call is lost and the service is unbound.
module PolicyWitness {
  import opened Prelude
  import opened RevisionTable
  import opened PolicyModel
  import opened PolicyTraffic
  import opened PolicyActivity
  import opened PolicyTransactions
  import opened PolicySystem

  // One policy, with one binding and no limits, at an instant in its period.
  ghost predicate Plain(p: Policy, at: Instant) {
    && p.enabled && p.expiresAt == None && p.trafficLimit == None && p.softIPLimit == None
    && |p.bindings| == 1
    && CurrentPeriod(p, at) == Some(p.currentPeriod)
  }

  function Key(p: Policy): ServiceKey
    requires |p.bindings| == 1
  {
    KeyOf(p, p.bindings[0])
  }

  function Enabling(): Row<ServiceState> { Row(1, ServiceState(1, true, Active, false)) }

  // ---- The databases on the way ----

  function Bound(p: Policy): Db { EMPTY_DB.(generation := 1, snapshot := Some([p]), policies := [p]) }

  function Opened(p: Policy): Db {
    Bound(p).(traffic := Traffic(map[p.id := Ledger(p.currentPeriod, 1, 0, 0, 0)], map[]))
  }

  function Wanted(p: Policy): Db
    requires |p.bindings| == 1
  {
    Opened(p).(services := Table(map[Key(p) := Enabling()], 1))
  }

  function Applied(p: Policy, instance: Id): Db
    requires |p.bindings| == 1
  {
    Wanted(p).(appliedServices := map[Key(p) := Ack(instance, Enabling())])
  }

  lemma BoundKeysOfOne(p: Policy)
    requires |p.bindings| == 1
    ensures BoundKeys([p]) == {Key(p)}
  {
    assert [p][0] == p;
  }

  lemma Binds(p: Policy)
    requires |p.bindings| == 1
    ensures Reconciled(EMPTY_DB, 1, [p]) == Ok(Bound(p))
  {
    assert BoundKeys([]) == {};
    var d := Reconciled(EMPTY_DB, 1, [p]).value;
    assert d.orphans == {} && d.counters == map[] && d.statuses == map[];
    assert d.activity.slots == map[] && d.activity.blocks == map[];
    assert d.traffic.ledgers == map[] && d.traffic.pending == map[];
  }

  lemma Opens(p: Policy, at: Instant)
    requires Plain(p, at)
    ensures Refreshed(Bound(p), at) == Ok(Opened(p)) && IsFresh(Opened(p), at)
  {
    var db := Bound(p);
    assert RefreshUpTo(db, at, 0) == Ok(db);
    assert [p][0 := p] == [p];
    var a := Cleaned(db.activity, p, at.now);
    assert a.slots == map[] && a.blocks == map[];
    assert RefreshOne(db, at, 0) == Ok(Opened(p));
  }

  lemma Wants(p: Policy, at: Instant)
    requires Plain(p, at)
    ensures HasLedgers(Opened(p)) && BlockPlugins(Opened(p)) == {}
    ensures ServiceWants(Opened(p), at.now, []) == [Want(Key(p), Enabling().payload)]
    ensures DesiredTx(Opened(p), at, [], []) == Ok(Wanted(p))
  {
    var db := Opened(p);
    var state := BoundState(db, p, at.now);
    assert PolicyWants(p, state, 0) == [];
    assert PolicyWants(p, state, 1) == [Want(Key(p), state)];
    assert BoundWants(db, at.now, 0) == [];
    assert BoundWants(db, at.now, 1) == [Want(Key(p), state)];
    var wants := ServiceWants(db, at.now, []);
    assert wants[..0] == [] && EnsureAll(db.services, wants[..0]) == Ok(db.services);
  }

  lemma Applies(p: Policy, instance: Id)
    requires |p.bindings| == 1
    ensures ServiceApplied(Wanted(p), Entry(Key(p), Enabling()), instance) == Ok(Applied(p, instance))
  {
    assert map[][Key(p) := Ack(instance, Enabling())] == map[Key(p) := Ack(instance, Enabling())];
  }

  lemma Reports(p: Policy, at: Instant, instance: Id)
    requires Plain(p, at)
    ensures var db, instances := Applied(p, instance), map[p.bindings[0].plugin := instance];
            && HasLedgers(db) && StatusesTx(db, at, instances).Ok?
            && p.id in StatusesTx(db, at, instances).value.statuses
  {
    var db, instances := Applied(p, instance), map[p.bindings[0].plugin := instance];
    assert StatusesUpTo(db, at, instances, 0) == Ok(db.statuses);
    assert AuthorizationApplied(db, p, instances);
  }

  lemma Unbinds(p: Policy)
    requires |p.bindings| == 1
    ensures Reconciled(Wanted(p), 2, []).Ok? && Reconciled(Wanted(p), 2, []).value.orphans == {Key(p)}
  {
    BoundKeysOfOne(p);
    assert BoundKeys([]) == {};
  }

  // ---- The worlds on the way ----

  ghost function Start(): World { World(EMPTY_DB, None, {}, {}, None, None, [], [], {}, map[], {}, {}, {}, {}) }

  ghost function AfterBind(p: Policy): World { Start().(db := Bound(p)) }

  ghost function AfterOpen(p: Policy): World {
    Start().(db := Opened(p), charged := map[TrafficKey(p.id, p.currentPeriod.id) := Bytes(0, 0)])
  }

  ghost function AfterDesired(p: Policy, at: Instant): World
    requires |p.bindings| == 1
  {
    AfterOpen(p).(db := Wanted(p), cycle := Some(at),
                  todo := {Entry(Key(p), Enabling())}, written := {Entry(Key(p), Enabling())})
  }

  lemma StepBind(p: Policy)
    requires |p.bindings| == 1
    ensures Enabled(Start(), Reconcile(1, [p])) && Step(Start(), Reconcile(1, [p])) == AfterBind(p)
  {
    Binds(p);
  }

  lemma StepOpen(p: Policy, at: Instant)
    requires Plain(p, at)
    ensures Enabled(AfterBind(p), Refresh(at)) && Step(AfterBind(p), Refresh(at)) == AfterOpen(p)
  {
    Opens(p, at);
    var w := AfterBind(p);
    assert ChargedByRefresh(w.db, w.charged, at, 0) == w.charged;
    assert RefreshUpTo(w.db, at, 0) == Ok(w.db);
  }

  lemma DesiredFirst(p: Policy, at: Instant)
    requires Plain(p, at)
    ensures var db, wants := Opened(p), [Want(Key(p), Enabling().payload)];
            && EnsureAll(db.services, wants).Ok? && WrittenBy(db.services, wants) == {Entry(Key(p), Enabling())}
            && Todo(Wanted(p), wants) == {Entry(Key(p), Enabling())}
  {
    var db, wants := Opened(p), [Want(Key(p), Enabling().payload)];
    assert wants[..0] == [] && EnsureAll(db.services, wants[..0]) == Ok(db.services);
    assert Recorded(db.services, wants[..0]) == [];
    assert Recorded(db.services, wants) == [Entry(Key(p), Enabling())];
  }

  lemma StepDesired(p: Policy, at: Instant)
    requires Plain(p, at)
    ensures Enabled(AfterOpen(p), Desired(at, [], [])) && Step(AfterOpen(p), Desired(at, [], [])) == AfterDesired(p, at)
  {
    Opens(p, at);
    Wants(p, at);
    DesiredFirst(p, at);
    var db := Opened(p);
    assert BlockWants(db, at.now, []) == [];
    assert WrittenBy(db.blocks, BlockWants(db, at.now, [])) == {};
    assert TodoBlocks(Wanted(p), []) == {};
  }

  lemma Extend(w: World, acts: seq<Action>, a: Action, w': World) returns (more: seq<Action>)
    requires Legal(w, acts) && Enabled(After(w, acts), a) && Step(After(w, acts), a) == w'
    ensures Legal(w, more) && After(w, more) == w'
  {
    more := acts + [a];
    assert more[..|acts|] == acts;
  }

  // The snapshot arrives, its ledger is opened, and the desired state is worked out.
  lemma HandsOut(p: Policy, at: Instant) returns (acts: seq<Action>)
    requires Plain(p, at)
    ensures Init(Start()) && Legal(Start(), acts) && After(Start(), acts) == AfterDesired(p, at)
  {
    StepBind(p);
    acts := Extend(Start(), [], Reconcile(1, [p]), AfterBind(p));
    StepOpen(p, at);
    acts := Extend(Start(), acts, Refresh(at), AfterOpen(p));
    StepDesired(p, at);
    acts := Extend(Start(), acts, Desired(at, [], []), AfterDesired(p, at));
  }

  // The plugin enables the service, the acknowledgement is stored, and there is a status to
  // write, in a cycle whose Desired succeeded.
  lemma AStatusGetsWritten(p: Policy, at: Instant, instance: Id) returns (acts: seq<Action>)
    requires Plain(p, at)
    ensures Init(Start()) && Legal(Start(), acts)
    ensures var v := After(Start(), acts);
            var report := RefreshStatuses(at, map[p.bindings[0].plugin := instance]);
            && v.cycle == Some(at) && Key(p) in v.mayBeEnabled && p.id !in v.db.statuses
            && Enabled(v, report) && p.id in Step(v, report).db.statuses
  {
    acts := HandsOut(p, at);
    var w := After(Start(), acts);
    var call := SetService(Entry(Key(p), Enabling()), instance, true);
    var called := ServiceSet(w, Entry(Key(p), Enabling()), instance, true);
    acts := Extend(Start(), acts, call, called);
    Applies(p, instance);
    acts := Extend(Start(), acts, MarkService, ServiceMarked(called));
    FreshOnceOpened(p, at, instance);
    Reports(p, at, instance);
  }

  lemma FreshOnceOpened(p: Policy, at: Instant, instance: Id)
    requires Plain(p, at)
    ensures IsFresh(Applied(p, instance), at)
  {
    Opens(p, at);
    var db, db' := Opened(p), Applied(p, instance);
    forall i | 0 <= i < |db'.policies|
      ensures PolicyIsFresh(db', db'.policies[i], at)
    {
      assert PolicyIsFresh(db, db.policies[i], at);
    }
  }

  // The plugin enables the service but its acknowledgement is lost; the next snapshot no
  // longer binds it. It may be enabled still, and is an orphan.
  lemma AnEnabledServiceIsOrphaned(p: Policy, at: Instant, instance: Id) returns (acts: seq<Action>)
    requires Plain(p, at)
    ensures Init(Start()) && Legal(Start(), acts)
    ensures var v := After(Start(), acts);
            && Key(p) in v.mayBeEnabled && Key(p) in v.db.orphans && Key(p) !in BoundKeys(v.db.policies)
  {
    acts := HandsOut(p, at);
    var w := After(Start(), acts);
    var call := SetService(Entry(Key(p), Enabling()), instance, false);
    var called := ServiceSet(w, Entry(Key(p), Enabling()), instance, false);
    acts := Extend(Start(), acts, call, called);
    Unbinds(p);
    assert BoundKeys([]) == {};
    acts := Extend(Start(), acts, Reconcile(2, []), Forgotten(called).(db := Reconciled(called.db, 2, []).value));
  }
}
