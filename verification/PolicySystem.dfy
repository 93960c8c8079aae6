// All runs of the local policy engine: transactions, plugin calls whose acknowledgement
// can be lost, events entering the queue, and crashes between any two of them
// (internal/policy).
module PolicySystem {
  import opened Prelude
  import opened RevisionTable
  import opened PolicyModel
  import opened PolicyCounters
  import opened PolicyTraffic
  import opened PolicyActivity
  import opened PolicyTransactions

  datatype Acknowledged<K, P> = Acknowledged(instance: Id, key: K, row: Row<P>)

  type ServiceAck = Acknowledged<ServiceKey, ServiceState>
  type BlocksAck = Acknowledged<Id, BlockState>

  datatype World = World(
    db: Db,
    // Held in memory during one engine cycle: the instant at which Desired succeeded, what
    // it returned, and the acknowledgement of the last plugin call, if not stored yet.
    cycle: Option<Instant>,
    todo: set<DesiredService>,
    todoBlocks: set<DesiredBlocks>,
    acking: Option<ServiceAck>,
    ackingBlocks: Option<BlocksAck>,
    // Outside the engine: queued traffic and status events, and the services that plugins
    // may have enabled. A service is taken out of these only by an acknowledged disable.
    log: seq<TrafficEvent>,
    statusLog: seq<StatusEvent>,
    mayBeEnabled: set<ServiceKey>,
    // A record of the past: bytes charged, records written, calls acknowledged.
    charged: Charged,
    written: set<Entry<ServiceKey, ServiceState>>,
    writtenBlocks: set<Entry<Id, BlockState>>,
    acked: set<ServiceAck>,
    ackedBlocks: set<BlocksAck>)

  datatype Action =
    | Reconcile(generation: u64, snapshot: seq<Policy>)
    | Refresh(at: Instant)
    | ApplyCounters(plugin: Id, list: seq<Option<Reading>>, at: Instant, order: seq<Id>)
    | ObserveActivity(authorization: Id, address: Id, time: int)
    | EnqueueTraffic(e: TrafficEvent)
    | MarkTraffic(e: TrafficEvent)
    | Desired(at: Instant, orphanOrder: seq<ServiceKey>, pluginOrder: seq<Id>)
    | SetService(s: DesiredService, instance: Id, acknowledged: bool)
    | MarkService
    | SetBlocks(b: DesiredBlocks, instance: Id, acknowledged: bool)
    | MarkBlocks
    | RefreshStatuses(at: Instant, instances: map<Id, Id>)
    | EnqueueStatus(status: StatusEvent)
    | MarkStatus(status: StatusEvent)
    | EndCycle                                      // the cycle ends, or the Agent crashes

  ghost predicate HasLedgers(db: Db) {
    forall i :: 0 <= i < |db.policies| ==> db.policies[i].id in db.traffic.ledgers
  }

  // No retired pair of authorization and period returns.
  ghost predicate NoReturningPair(w: World, at: Instant) {
    forall i :: 0 <= i < |w.db.policies| && CurrentPeriod(w.db.policies[i], at).Some? ==>
      MayOpen(w.db.traffic, w.charged, w.db.policies[i].id, CurrentPeriod(w.db.policies[i], at).value)
  }

  ghost predicate Enabled(w: World, a: Action) {
    match a
    case Reconcile(generation, snapshot) => DistinctIds(snapshot) && Reconciled(w.db, generation, snapshot).Ok?
    case Refresh(at) => NoReturningPair(w, at) && Refreshed(w.db, at).Ok?
    case ApplyCounters(plugin, list, at, order) =>
      && NoReturningPair(w, at)
      && CountersApplied(w.db, plugin, list, at, order).Ok?
      && Enumerates(order, Deltas(w.db, plugin, list).Keys)
    case ObserveActivity(authorization, address, time) => true
    case EnqueueTraffic(e) => Unqueued(w.db.traffic, e)
    case MarkTraffic(e) => e in w.log && MarkQueued(w.db.traffic, e).Ok?
    case Desired(at, orphanOrder, pluginOrder) =>
      && IsFresh(w.db, at)
      && Enumerates(orphanOrder, w.db.orphans) && Enumerates(pluginOrder, BlockPlugins(w.db))
      && DesiredTx(w.db, at, orphanOrder, pluginOrder).Ok?
    case SetService(s, instance, acknowledged) => s in w.todo
    case MarkService => w.acking.Some? && MarkedService(w).Ok?
    case SetBlocks(b, instance, acknowledged) => b in w.todoBlocks
    case MarkBlocks => w.ackingBlocks.Some? && MarkedBlocks(w).Ok?
    case RefreshStatuses(at, instances) => IsFresh(w.db, at) && StatusesTx(w.db, at, instances).Ok?
    case EnqueueStatus(e) => e.authorization in w.db.statuses && w.db.statuses[e.authorization].event == e
    // A status is marked right after it was enqueued.
    case MarkStatus(e) => w.statusLog != [] && w.statusLog[|w.statusLog| - 1] == e
    case EndCycle => true
  }

  function Deltas(db: Db, plugin: Id, list: seq<Option<Reading>>): map<Id, Bytes> {
    var r := CountAll(Tally(db.counters, map[]), BoundKeys(db.policies), plugin, list);
    if r.Ok? then r.value.deltas else map[]
  }

  function MarkedService(w: World): Result<Db, StoreError>
    requires w.acking.Some?
  {
    ServiceApplied(w.db, Entry(w.acking.value.key, w.acking.value.row), w.acking.value.instance)
  }

  function MarkedBlocks(w: World): Result<Db, StoreError>
    requires w.ackingBlocks.Some?
  {
    BlocksApplied(w.db, Entry(w.ackingBlocks.value.key, w.ackingBlocks.value.row), w.ackingBlocks.value.instance)
  }

  // The records of charges after a refresh and after counters.
  ghost function ChargedByRefresh(db: Db, charged: Charged, at: Instant, n: nat): Charged
    requires n <= |db.policies| && RefreshUpTo(db, at, n).Ok?
  {
    if n == 0 then charged
    else
      var before := RefreshUpTo(db, at, n - 1).value;
      Started(before.traffic, ChargedByRefresh(db, charged, at, n - 1), before.policies[n - 1].id,
              CurrentPeriod(before.policies[n - 1], at).value)
  }

  ghost function ChargedByCounters(t: Traffic, charged: Charged, policies: seq<Policy>, deltas: map<Id, Bytes>, at: Instant, order: seq<Id>): Charged
    requires ChargeAll(t, policies, deltas, at, order).Ok?
    decreases |order|
  {
    if order == [] then charged
    else
      var id, front := order[|order| - 1], order[..|order| - 1];
      var before := ChargedByCounters(t, charged, policies, deltas, at, front);
      if Delta(deltas, id) == Bytes(0, 0) then before
      else ChargedMore(ChargeAll(t, policies, deltas, at, front).value, before, id,
                       CurrentPeriod(FindPolicy(policies, id).value, at).value, Delta(deltas, id))
  }

  // What Desired returns after its transaction.
  ghost function Todo(db: Db, wants: seq<ServiceWant>): set<DesiredService> {
    set want | want in wants && want.key in db.services.rows :: Entry(want.key, db.services.rows[want.key])
  }

  ghost function TodoBlocks(db: Db, plugins: seq<Id>): set<DesiredBlocks> {
    set p | p in plugins && p in db.blocks.rows :: Entry(p, db.blocks.rows[p])
  }

  // Any step that is not part of handing out desired state belongs to another cycle.
  ghost function Forgotten(w: World): World {
    w.(cycle := None, todo := {}, todoBlocks := {}, acking := None, ackingBlocks := None)
  }

  ghost function Distributed(w: World, at: Instant, orphanOrder: seq<ServiceKey>, pluginOrder: seq<Id>): World
    requires IsFresh(w.db, at) && DesiredTx(w.db, at, orphanOrder, pluginOrder).Ok?
  {
    var db := DesiredTx(w.db, at, orphanOrder, pluginOrder).value;
    if w.db.generation == 0 then Forgotten(w).(cycle := Some(at))
    else
      var wants := ServiceWants(w.db, at.now, orphanOrder);
      Forgotten(w).(
        db := db,
        cycle := Some(at),
        todo := Todo(db, wants),
        todoBlocks := TodoBlocks(db, pluginOrder),
        written := w.written + WrittenBy(w.db.services, wants),
        writtenBlocks := w.writtenBlocks + WrittenBy(w.db.blocks, BlockWants(w.db, at.now, pluginOrder)))
  }

  // A plugin call takes effect whether or not its acknowledgement arrives.
  ghost function ServiceSet(w: World, s: DesiredService, instance: Id, acknowledged: bool): World {
    var ack := Acknowledged(instance, s.key, s.row);
    w.(mayBeEnabled := if s.row.payload.enabled then w.mayBeEnabled + {s.key}
                       else if acknowledged then w.mayBeEnabled - {s.key}
                       else w.mayBeEnabled,
       acked := if acknowledged then w.acked + {ack} else w.acked,
       acking := if acknowledged then Some(ack) else None)
  }

  ghost function BlocksSet(w: World, b: DesiredBlocks, instance: Id, acknowledged: bool): World {
    var ack := Acknowledged(instance, b.key, b.row);
    w.(ackedBlocks := if acknowledged then w.ackedBlocks + {ack} else w.ackedBlocks,
       ackingBlocks := if acknowledged then Some(ack) else None)
  }

  ghost function ServiceMarked(w: World): World
    requires w.acking.Some? && MarkedService(w).Ok?
  {
    w.(db := MarkedService(w).value, acking := None)
  }

  ghost function BlocksMarked(w: World): World
    requires w.ackingBlocks.Some? && MarkedBlocks(w).Ok?
  {
    w.(db := MarkedBlocks(w).value, ackingBlocks := None)
  }

  ghost function Step(w: World, a: Action): World
    requires Enabled(w, a)
  {
    match a
    case Reconcile(generation, snapshot) => Forgotten(w).(db := Reconciled(w.db, generation, snapshot).value)
    case Refresh(at) =>
      Forgotten(w).(db := Refreshed(w.db, at).value, charged := ChargedByRefresh(w.db, w.charged, at, |w.db.policies|))
    case ApplyCounters(plugin, list, at, order) =>
      Forgotten(w).(
        db := CountersApplied(w.db, plugin, list, at, order).value,
        charged := ChargedByCounters(w.db.traffic, w.charged, w.db.policies, Deltas(w.db, plugin, list), at, order))
    case ObserveActivity(authorization, address, time) =>
      Forgotten(w).(db := ActivityObserved(w.db, authorization, address, time).0)
    case EnqueueTraffic(e) => Forgotten(w).(log := w.log + [e])
    case MarkTraffic(e) => Forgotten(w).(db := w.db.(traffic := MarkQueued(w.db.traffic, e).value))
    case Desired(at, orphanOrder, pluginOrder) => Distributed(w, at, orphanOrder, pluginOrder)
    case SetService(s, instance, acknowledged) => ServiceSet(w, s, instance, acknowledged)
    case MarkService => ServiceMarked(w)
    case SetBlocks(b, instance, acknowledged) => BlocksSet(w, b, instance, acknowledged)
    case MarkBlocks => BlocksMarked(w)
    case RefreshStatuses(at, instances) => Forgotten(w).(db := StatusesTx(w.db, at, instances).value)
    case EnqueueStatus(e) => Forgotten(w).(statusLog := w.statusLog + [e])
    case MarkStatus(e) => Forgotten(w).(db := StatusQueued(w.db, e))
    case EndCycle => Forgotten(w)
  }

  ghost predicate Legal(w: World, acts: seq<Action>)
    decreases |acts|, 0
  {
    acts == [] || (Legal(w, acts[..|acts| - 1]) && Enabled(After(w, acts[..|acts| - 1]), acts[|acts| - 1]))
  }

  ghost function After(w: World, acts: seq<Action>): World
    requires Legal(w, acts)
    decreases |acts|, 1
  {
    if acts == [] then w else Step(After(w, acts[..|acts| - 1]), acts[|acts| - 1])
  }

  ghost predicate Init(w: World) {
    && w.db == EMPTY_DB && w == Forgotten(w)
    && w.log == [] && w.statusLog == [] && w.mayBeEnabled == {} && w.charged == map[]
    && w.written == {} && w.writtenBlocks == {} && w.acked == {} && w.ackedBlocks == {}
  }
}
