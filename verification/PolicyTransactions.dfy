// The transactions of the policy store as functions from one database value to the next;
// a failing one leaves the database as it was (internal/policy/store.go and desired.go).
module PolicyTransactions {
  import opened Prelude
  import opened RevisionTable
  import opened PolicyModel
  import opened PolicyCounters
  import opened PolicyTraffic
  import opened PolicyActivity

  // ---- Reconcile ----

  function Reconciled(db: Db, generation: u64, snapshot: seq<Policy>): Result<Db, StoreError> {
    if generation < db.generation then Err(StaleGeneration)
    else if generation == db.generation then
      if db.snapshot == Some(snapshot) then Ok(db) else Err(GenerationConflict)
    else
      var bound := BoundKeys(snapshot);
      var retained := Ids(snapshot);
      Ok(db.(
        generation := generation,
        snapshot := Some(snapshot),
        policies := snapshot,
        orphans := db.orphans - bound + (BoundKeys(db.policies) - bound),
        counters := RetainedCounters(db.counters, retained),
        traffic := DropLedgers(db.traffic, retained),
        activity := RetainedActivity(db.activity, retained),
        statuses := RetainedStatuses(db.statuses, retained)))
  }

  function RetainedCounters(counters: map<ServiceKey, CounterState>, retained: set<Id>): map<ServiceKey, CounterState> {
    map k | k in counters && k.authorization in retained :: counters[k]
  }

  function RetainedActivity(a: Activity, retained: set<Id>): Activity {
    Activity(map k | k in a.slots && k.authorization in retained :: a.slots[k],
             map k | k in a.blocks && k.authorization in retained :: a.blocks[k])
  }

  function RetainedStatuses(statuses: map<Id, StatusState>, retained: set<Id>): map<Id, StatusState> {
    map id | id in statuses && id in retained :: statuses[id]
  }

  // ---- refresh ----

  function RefreshOne(db: Db, at: Instant, i: nat): (r: Result<Db, StoreError>)
    requires i < |db.policies|
  {
    var p := db.policies[i];
    var period := CurrentPeriod(p, at);
    if period == None then Err(Failed)
    else Ok(db.(
      policies := db.policies[i := p.(currentPeriod := period.value)],
      traffic := EnsureLedger(db.traffic, p.id, period.value),
      activity := Cleaned(db.activity, p, at.now)))
  }

  function RefreshUpTo(db: Db, at: Instant, n: nat): (r: Result<Db, StoreError>)
    requires n <= |db.policies|
    ensures r.Ok? ==> |r.value.policies| == |db.policies|
    ensures r.Ok? ==> forall i :: n <= i < |db.policies| ==> r.value.policies[i] == db.policies[i]
  {
    if n == 0 then Ok(db)
    else
      var r := RefreshUpTo(db, at, n - 1);
      if r.Err? then r else RefreshOne(r.value, at, n - 1)
  }

  function Refreshed(db: Db, at: Instant): Result<Db, StoreError> {
    RefreshUpTo(db, at, |db.policies|)
  }

  // What refresh establishes: every policy is in its current period, has that period's
  // ledger, and has no expired slot or block.
  ghost predicate IsClean(a: Activity, p: Policy, now: int) {
    && (forall k :: k in a.slots && k.authorization == p.id ==> !SlotExpired(p, a.slots[k], now))
    && (forall k :: k in a.blocks && k.authorization == p.id ==> !BlockExpired(a.blocks[k], now))
  }

  ghost predicate PolicyIsFresh(db: Db, p: Policy, at: Instant) {
    && CurrentPeriod(p, at) == Some(p.currentPeriod)
    && HasLedger(db.traffic, p.id, p.currentPeriod)
    && IsClean(db.activity, p, at.now)
  }

  ghost predicate IsFresh(db: Db, at: Instant) {
    forall i :: 0 <= i < |db.policies| ==> PolicyIsFresh(db, db.policies[i], at)
  }

  // ---- ApplyCounters ----

  function FindPolicy(policies: seq<Policy>, id: Id): Option<Policy> {
    if policies == [] then None
    else if policies[|policies| - 1].id == id then Some(policies[|policies| - 1])
    else FindPolicy(policies[..|policies| - 1], id)
  }

  function ChargeNext(t: Traffic, policies: seq<Policy>, delta: Bytes, at: Instant, id: Id): Result<Traffic, StoreError> {
    if delta == Bytes(0, 0) then Ok(t)
    else
      var p := FindPolicy(policies, id);
      if p == None || CurrentPeriod(p.value, at) == None then Err(Failed)
      else ChargeLedger(t, id, CurrentPeriod(p.value, at).value, delta)
  }

  // Adds the deltas to the ledgers, in the given order of authorizations.
  function ChargeAll(t: Traffic, policies: seq<Policy>, deltas: map<Id, Bytes>, at: Instant, order: seq<Id>): Result<Traffic, StoreError>
    decreases |order|
  {
    if order == [] then Ok(t)
    else
      var id := order[|order| - 1];
      var r := ChargeAll(t, policies, deltas, at, order[..|order| - 1]);
      if r.Err? then r else ChargeNext(r.value, policies, Delta(deltas, id), at, id)
  }

  function CountersApplied(db: Db, plugin: Id, list: seq<Option<Reading>>, at: Instant, order: seq<Id>): Result<Db, StoreError> {
    var tally := CountAll(Tally(db.counters, map[]), BoundKeys(db.policies), plugin, list);
    if tally.Err? then Err(tally.error)
    else
      var traffic := ChargeAll(db.traffic, db.policies, tally.value.deltas, at, order);
      if traffic.Err? then Err(traffic.error)
      else Ok(db.(counters := tally.value.counters, traffic := traffic.value))
  }

  // ---- ObserveActivity ----

  function ActivityObserved(db: Db, authorization: Id, address: Id, at: int): (Db, bool) {
    var p := FindPolicy(db.policies, authorization);
    if p == None || p.value.softIPLimit == None then (db, false)
    else
      var r := Observed(db.activity, p.value, address, at);
      (db.(activity := r.0), r.1)
  }

  // ---- Desired ----

  // enforcementState, with the source's test, which cannot overflow.
  function Enforcement(p: Policy, l: Ledger, now: int): (bool, Reason) {
    if !p.enabled then (false, AdministratorDisabled)
    else if p.expiresAt.Some? && now >= p.expiresAt.value then (false, Expired)
    else if p.trafficLimit.Some? && (l.up >= p.trafficLimit.value || l.down >= p.trafficLimit.value - l.up) then (false, QuotaExceeded)
    else (true, Active)
  }

  function BoundState(db: Db, p: Policy, now: int): ServiceState
    requires p.id in db.traffic.ledgers
  {
    var e := Enforcement(p, db.traffic.ledgers[p.id], now);
    ServiceState(db.generation, e.0, e.1, false)
  }

  type ServiceWant = Want<ServiceKey, ServiceState>

  function PolicyWants(p: Policy, state: ServiceState, n: nat): seq<ServiceWant>
    requires n <= |p.bindings|
  {
    if n == 0 then [] else PolicyWants(p, state, n - 1) + [Want(KeyOf(p, p.bindings[n - 1]), state)]
  }

  function BoundWants(db: Db, now: int, n: nat): seq<ServiceWant>
    requires n <= |db.policies|
    requires forall i :: 0 <= i < |db.policies| ==> db.policies[i].id in db.traffic.ledgers
  {
    if n == 0 then []
    else
      var p := db.policies[n - 1];
      BoundWants(db, now, n - 1) + PolicyWants(p, BoundState(db, p, now), |p.bindings|)
  }

  function OrphanState(db: Db): ServiceState {
    ServiceState(db.generation, false, AdministratorDisabled, true)
  }

  function OrphanWants(db: Db, order: seq<ServiceKey>): seq<ServiceWant>
    decreases |order|
  {
    if order == [] then []
    else OrphanWants(db, order[..|order| - 1]) + [Want(order[|order| - 1], OrphanState(db))]
  }

  function ServiceWants(db: Db, now: int, orphanOrder: seq<ServiceKey>): seq<ServiceWant>
    requires forall i :: 0 <= i < |db.policies| ==> db.policies[i].id in db.traffic.ledgers
  {
    BoundWants(db, now, |db.policies|) + OrphanWants(db, orphanOrder)
  }

  // The unexpired blocks of soft-limited policies, one for each of their services on the
  // plugin.
  function PluginBlocks(db: Db, plugin: Id, now: int): set<DynamicBlock> {
    set i, j, k |
      && 0 <= i < |db.policies| && db.policies[i].softIPLimit.Some?
      && 0 <= j < |db.policies[i].bindings| && db.policies[i].bindings[j].plugin == plugin
      && k in db.activity.blocks && k.authorization == db.policies[i].id && db.activity.blocks[k] > now
      :: DynamicBlock(db.policies[i].id, db.policies[i].bindings[j].service, k.address, db.activity.blocks[k])
  }

  function BlockPlugins(db: Db): set<Id> {
    db.blocks.rows.Keys
    + set i, j | 0 <= i < |db.policies| && db.policies[i].softIPLimit.Some? && 0 <= j < |db.policies[i].bindings|
        :: db.policies[i].bindings[j].plugin
  }

  function BlockWants(db: Db, now: int, order: seq<Id>): seq<Want<Id, BlockState>>
    decreases |order|
  {
    if order == [] then []
    else
      var plugin := order[|order| - 1];
      BlockWants(db, now, order[..|order| - 1]) + [Want(plugin, BlockState(db.generation, PluginBlocks(db, plugin, now)))]
  }

  // The second transaction of Desired; the first is refresh at the same instant.
  function DesiredTx(db: Db, at: Instant, orphanOrder: seq<ServiceKey>, pluginOrder: seq<Id>): Result<Db, StoreError>
    requires forall i :: 0 <= i < |db.policies| ==> db.policies[i].id in db.traffic.ledgers
  {
    if db.generation == 0 then Ok(db)
    else
      var services := EnsureAll(db.services, ServiceWants(db, at.now, orphanOrder));
      if services.Err? then Err(Failed)
      else
        var blocks := EnsureAll(db.blocks, BlockWants(db, at.now, pluginOrder));
        if blocks.Err? then Err(Failed)
        else Ok(db.(services := services.value, blocks := blocks.value))
  }

  // ---- MarkServiceApplied and MarkBlocksApplied ----

  // What Desired hands to the engine.
  type DesiredService = Entry<ServiceKey, ServiceState>
  type DesiredBlocks = Entry<Id, BlockState>

  // The acknowledgement of a disabled orphan also ends its being one.
  function ServiceApplied(db: Db, s: DesiredService, instance: Id): Result<Db, StoreError> {
    var applied := MarkApplied(db.services, db.appliedServices, s.key, s.row, instance);
    if applied.Err? then Err(Failed)
    else if s.row.payload.orphan then
      Ok(db.(appliedServices := applied.value,
             orphans := db.orphans - {s.key},
             services := db.services.(rows := db.services.rows - {s.key})))
    else Ok(db.(appliedServices := applied.value))
  }

  function BlocksApplied(db: Db, b: DesiredBlocks, instance: Id): Result<Db, StoreError> {
    var applied := MarkApplied(db.blocks, db.appliedBlocks, b.key, b.row, instance);
    if applied.Err? then Err(Failed) else Ok(db.(appliedBlocks := applied.value))
  }

  // ---- RefreshStatuses ----

  // authorizationApplied: no outstanding orphan, and each binding's live instance has
  // acknowledged the current record and, if its plugin has one, the current block record.
  predicate AuthorizationApplied(db: Db, p: Policy, instances: map<Id, Id>) {
    && (forall k :: k in db.orphans ==> k.authorization != p.id)
    && forall j :: 0 <= j < |p.bindings| ==> BindingApplied(db, p, p.bindings[j], instances)
  }

  predicate BindingApplied(db: Db, p: Policy, b: Binding, instances: map<Id, Id>) {
    var key := KeyOf(p, b);
    && b.plugin in instances
    && key in db.services.rows
    && !NeedsApply(db.appliedServices, key, db.services.rows[key], instances[b.plugin])
    && (b.plugin in db.blocks.rows ==>
          !NeedsApply(db.appliedBlocks, b.plugin, db.blocks.rows[b.plugin], instances[b.plugin]))
  }

  function StatusOf(db: Db, p: Policy, now: int): StatusEvent
    requires p.id in db.traffic.ledgers
  {
    var l := db.traffic.ledgers[p.id];
    var e := Enforcement(p, l, now);
    StatusEvent(db.generation, p.id, l.period, l.up, l.down, e.0, e.1,
                if p.softIPLimit.Some? then |SlotsOf(db.activity, p.id)| else 0,
                if p.softIPLimit.Some? then |BlocksOf(db.activity, p.id)| else 0)
  }

  // updateStatus writes only what changed, and a new event is not yet queued.
  function PutStatus(statuses: map<Id, StatusState>, e: StatusEvent): map<Id, StatusState> {
    if e.authorization in statuses && statuses[e.authorization].event == e then statuses
    else statuses[e.authorization := StatusState(e, false)]
  }

  function StatusesUpTo(db: Db, at: Instant, instances: map<Id, Id>, n: nat): Result<map<Id, StatusState>, StoreError>
    requires n <= |db.policies|
    requires forall i :: 0 <= i < |db.policies| ==> db.policies[i].id in db.traffic.ledgers
  {
    if n == 0 then Ok(db.statuses)
    else
      var r := StatusesUpTo(db, at, instances, n - 1);
      var p := db.policies[n - 1];
      if r.Err? || !AuthorizationApplied(db, p, instances) then r
      else
        var e := StatusOf(db, p, at.now);
        if e.activeIPs > MAX_UINT32 || e.blockedIPs > MAX_UINT32 then Err(Failed)
        else Ok(PutStatus(r.value, e))
  }

  // The second transaction of RefreshStatuses; the first is refresh at the same instant.
  function StatusesTx(db: Db, at: Instant, instances: map<Id, Id>): Result<Db, StoreError>
    requires forall i :: 0 <= i < |db.policies| ==> db.policies[i].id in db.traffic.ledgers
  {
    if db.generation == 0 then Ok(db)
    else
      var r := StatusesUpTo(db, at, instances, |db.policies|);
      if r.Err? then Err(r.error) else Ok(db.(statuses := r.value))
  }

  // MarkStatusQueued
  function StatusQueued(db: Db, e: StatusEvent): Db {
    if e.authorization in db.statuses && db.statuses[e.authorization].event == e
    then db.(statuses := db.statuses[e.authorization := StatusState(e, true)])
    else db
  }

  // ---- Facts about single transactions ----

  // The quota test compares without adding, and agrees with upload + download >= limit; the
  // first reason that applies, in this order, is the one given.
  lemma QuotaTestIsExact(p: Policy, l: Ledger, now: int)
    ensures var expired := p.expiresAt.Some? && p.expiresAt.value <= now;
            var over := p.trafficLimit.Some? && l.up + l.down >= p.trafficLimit.value;
            && (Enforcement(p, l, now).0 <==> p.enabled && !expired && !over)
            && (Enforcement(p, l, now).1 == Active <==> Enforcement(p, l, now).0)
            && (Enforcement(p, l, now).1 == AdministratorDisabled <==> !p.enabled)
            && (Enforcement(p, l, now).1 == Expired <==> p.enabled && expired)
            && (Enforcement(p, l, now).1 == QuotaExceeded <==> p.enabled && !expired && over)
  {
  }

  // A snapshot is taken if it is newer, or the very one that is stored already.
  predicate IsTaken(db: Db, generation: u64, snapshot: seq<Policy>) {
    generation > db.generation || (generation == db.generation && db.snapshot == Some(snapshot))
  }

  // An older one is stale, another one of the stored generation a conflict; what is taken is
  // what is stored then, and the stored one again changes nothing.
  lemma ReconcileDecides(db: Db, generation: u64, snapshot: seq<Policy>)
    ensures var r := Reconciled(db, generation, snapshot);
            && (r.Ok? <==> IsTaken(db, generation, snapshot))
            && (r == Err(StaleGeneration) <==> generation < db.generation)
            && (r == Err(GenerationConflict) <==> generation == db.generation && db.snapshot != Some(snapshot))
            && (r.Ok? ==> r.value.generation == generation && r.value.snapshot == Some(snapshot))
            && (r.Ok? && generation == db.generation ==> r.value == db)
  {
  }

  // A new snapshot binds or lists as an orphan everything that was bound or listed before,
  // and nothing both; it leaves nothing of a removed authorization but the events it has not
  // queued, and changes nothing of one it keeps.
  lemma NewSnapshotDecides(db: Db, generation: u64, snapshot: seq<Policy>, id: Id)
    requires generation > db.generation
    ensures var d := Reconciled(db, generation, snapshot).value;
            && d.policies == snapshot && d.generation == generation
            && BoundKeys(db.policies) + db.orphans <= BoundKeys(d.policies) + d.orphans
            && BoundKeys(d.policies) !! d.orphans
            && d.orphans <= BoundKeys(db.policies) + db.orphans
            && if id in Ids(snapshot) then Untouched(db, d, id) else NothingLeft(d, id)
    ensures var d := Reconciled(db, generation, snapshot).value;
            forall e :: Unqueued(db.traffic, e) && KeyOfEvent(e) !in db.traffic.pending && e.authorization !in Ids(snapshot) ==>
              Unqueued(d.traffic, e)
  {
  }

  ghost predicate NothingLeft(d: Db, id: Id) {
    && id !in d.traffic.ledgers && id !in d.statuses
    && SlotsOf(d.activity, id) == {} && BlocksOf(d.activity, id) == {}
    && forall k :: k in d.counters ==> k.authorization != id
  }

  ghost predicate Untouched(db: Db, d: Db, id: Id) {
    && (id in d.traffic.ledgers <==> id in db.traffic.ledgers)
    && (id in db.traffic.ledgers ==> d.traffic.ledgers[id] == db.traffic.ledgers[id])
    && (id in d.statuses <==> id in db.statuses) && (id in db.statuses ==> d.statuses[id] == db.statuses[id])
    && SlotsOf(d.activity, id) == SlotsOf(db.activity, id) && BlocksOf(d.activity, id) == BlocksOf(db.activity, id)
    && (forall k :: k in SlotsOf(db.activity, id) ==> d.activity.slots[k] == db.activity.slots[k])
    && (forall k :: k in BlocksOf(db.activity, id) ==> d.activity.blocks[k] == db.activity.blocks[k])
    && forall k :: k in db.counters && k.authorization == id ==> k in d.counters && d.counters[k] == db.counters[k]
  }

  // Up to the period they are in, two lists hold the same policies.
  ghost predicate SamePolicies(a: seq<Policy>, b: seq<Policy>) {
    |a| == |b| && forall i :: 0 <= i < |a| ==> b[i] == a[i].(currentPeriod := b[i].currentPeriod)
  }

  lemma RefreshOneIsFresh(db: Db, at: Instant, i: nat)
    requires DistinctIds(db.policies) && i < |db.policies| && RefreshOne(db, at, i).Ok?
    ensures var r := RefreshOne(db, at, i).value;
            && r == db.(policies := r.policies, traffic := r.traffic, activity := r.activity)
            && SamePolicies(db.policies, r.policies)
            && PolicyIsFresh(r, r.policies[i], at)
  {
  }

  lemma RefreshOneKeepsOthersFresh(db: Db, at: Instant, i: nat, j: nat)
    requires DistinctIds(db.policies) && i < |db.policies| && j < |db.policies| && i != j && RefreshOne(db, at, i).Ok?
    requires PolicyIsFresh(db, db.policies[j], at)
    ensures var r := RefreshOne(db, at, i).value; PolicyIsFresh(r, r.policies[j], at)
  {
  }

  // Refreshing at one instant makes the database fresh at that instant ...
  lemma {:induction false} RefreshUpToIsFresh(db: Db, at: Instant, n: nat)
    requires DistinctIds(db.policies) && n <= |db.policies| && RefreshUpTo(db, at, n).Ok?
    ensures var r := RefreshUpTo(db, at, n).value;
            && r == db.(policies := r.policies, traffic := r.traffic, activity := r.activity)
            && SamePolicies(db.policies, r.policies)
            && forall i :: 0 <= i < n ==> PolicyIsFresh(r, r.policies[i], at)
  {
    if n > 0 {
      RefreshUpToIsFresh(db, at, n - 1);
      var before := RefreshUpTo(db, at, n - 1).value;
      RefreshOneIsFresh(before, at, n - 1);
      forall j | 0 <= j < n - 1
        ensures PolicyIsFresh(RefreshUpTo(db, at, n).value, RefreshUpTo(db, at, n).value.policies[j], at)
      {
        RefreshOneKeepsOthersFresh(before, at, n - 1, j);
      }
    }
  }

  // ... and doing it again then changes nothing.
  lemma RefreshOneIsStable(db: Db, at: Instant, i: nat)
    requires i < |db.policies| && PolicyIsFresh(db, db.policies[i], at)
    ensures RefreshOne(db, at, i) == Ok(db)
  {
    var p := db.policies[i];
    var c := Cleaned(db.activity, p, at.now);
    assert c.slots == db.activity.slots && c.blocks == db.activity.blocks;
    assert db.policies[i := p] == db.policies;
  }

  lemma {:induction false} RefreshIsStable(db: Db, at: Instant, n: nat)
    requires IsFresh(db, at) && n <= |db.policies|
    ensures RefreshUpTo(db, at, n) == Ok(db)
  {
    if n > 0 {
      RefreshIsStable(db, at, n - 1);
      RefreshOneIsStable(db, at, n - 1);
    }
  }

  // ---- From activity to plugins ----

  // An address that ObserveActivity reports blocked is in the block set of every service of
  // its authorization, on whichever plugin, until the block expires.
  lemma BlockedAddressIsPushed(db: Db, address: Id, at: int, now: int, i: nat, j: nat)
    requires DistinctIds(db.policies) && i < |db.policies| && j < |db.policies[i].bindings|
    requires var p := db.policies[i];
             p.softIPLimit.Some? && FindPolicy(db.policies, p.id) == Some(p)
    requires var (d, blocked) := ActivityObserved(db, db.policies[i].id, address, at);
             var key := ActivityKey(db.policies[i].id, address);
             blocked && key in d.activity.blocks && now < d.activity.blocks[key]
    ensures var p := db.policies[i];
            var d := ActivityObserved(db, p.id, address, at).0;
            DynamicBlock(p.id, p.bindings[j].service, address, d.activity.blocks[ActivityKey(p.id, address)])
              in PluginBlocks(d, p.bindings[j].plugin, now)
  {
    var d := ActivityObserved(db, db.policies[i].id, address, at).0;
    assert d.policies[i] == db.policies[i];
  }

  // An address that holds a slot is in no plugin's block set.
  lemma ActiveAddressIsNotPushed(db: Db, key: ActivityKey, plugin: Id, now: int, b: DynamicBlock)
    requires ActivityInv(db.activity) && key in db.activity.slots
    requires b in PluginBlocks(db, plugin, now)
    ensures ActivityKey(b.authorization, b.address) != key && b.expiresAt > now
  {
  }
}
