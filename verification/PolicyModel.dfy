// The durable state of the local policy engine: one value per database, so that a
// transaction is a function from one value to the next (internal/policy/store.go).
module PolicyModel {
  import opened Prelude
  import opened RevisionTable

  datatype Period = Period(id: Id, startsAt: int, endsAt: int)

  // One reading of the clock: the time, and the period that a reset rule with a given start
  // is in at that time. The rule's computation belongs to the SDK and may fail.
  datatype Instant = Instant(now: int, period: (Id, int) -> Option<Period>)

  datatype Binding = Binding(plugin: Id, service: Id)

  // Durations are in nanoseconds.
  datatype Policy = Policy(
    id: Id,
    enabled: bool,
    expiresAt: Option<int>,
    trafficLimit: Option<u64>,
    softIPLimit: Option<nat>,
    activityWindow: nat,
    blockDuration: nat,
    reset: Id,
    startedAt: int,
    currentPeriod: Period,
    bindings: seq<Binding>)

  function CurrentPeriod(p: Policy, at: Instant): Option<Period> {
    at.period(p.reset, p.startedAt)
  }

  datatype ServiceKey = ServiceKey(plugin: Id, authorization: Id, service: Id)

  // ---- Traffic ----

  datatype Bytes = Bytes(up: nat, down: nat)

  function Add(a: Bytes, b: Bytes): Bytes { Bytes(a.up + b.up, a.down + b.down) }

  datatype CounterState = CounterState(epoch: Id, up: u64, down: u64)

  datatype Ledger = Ledger(period: Period, revision: u64, queued: u64, up: u64, down: u64)

  datatype TrafficEvent = TrafficEvent(authorization: Id, period: Period, revision: u64, up: u64, down: u64)

  datatype TrafficKey = TrafficKey(authorization: Id, period: Id)

  // The ledgers and pending-traffic buckets.
  datatype Traffic = Traffic(ledgers: map<Id, Ledger>, pending: map<TrafficKey, TrafficEvent>)

  // ---- Activity ----

  datatype ActivityKey = ActivityKey(authorization: Id, address: Id)

  // The ip-slots bucket (when last seen) and the ip-blocks bucket (when it expires).
  datatype Activity = Activity(slots: map<ActivityKey, int>, blocks: map<ActivityKey, int>)

  // ---- Desired and applied state ----

  datatype Reason = Active | AdministratorDisabled | Expired | QuotaExceeded

  // What a plugin is asked to do with a service, apart from the revision of the request.
  datatype ServiceState = ServiceState(generation: u64, enabled: bool, reason: Reason, orphan: bool)

  datatype DynamicBlock = DynamicBlock(authorization: Id, service: Id, address: Id, expiresAt: int)

  // The source keeps a sorted list and its digest; a set stands for both.
  datatype BlockState = BlockState(generation: u64, blocks: set<DynamicBlock>)

  // ---- Statuses ----

  datatype StatusEvent = StatusEvent(
    generation: u64, authorization: Id, period: Period, up: u64, down: u64,
    enabled: bool, reason: Reason, activeIPs: nat, blockedIPs: nat)

  datatype StatusState = StatusState(event: StatusEvent, queued: bool)

  // ---- The database ----

  // `policies` lists the bucket in key order; `snapshot` is what the stored digest stands for.
  datatype Db = Db(
    generation: u64,
    snapshot: Option<seq<Policy>>,
    policies: seq<Policy>,
    orphans: set<ServiceKey>,
    counters: map<ServiceKey, CounterState>,
    traffic: Traffic,
    activity: Activity,
    services: Table<ServiceKey, ServiceState>,
    appliedServices: map<ServiceKey, Ack<ServiceState>>,
    blocks: Table<Id, BlockState>,
    appliedBlocks: map<Id, Ack<BlockState>>,
    statuses: map<Id, StatusState>)

  const EMPTY_DB := Db(0, None, [], {}, map[], Traffic(map[], map[]), Activity(map[], map[]),
                       Table(map[], 0), map[], Table(map[], 0), map[], map[])

  // A bucket holds one policy per authorization.
  ghost predicate DistinctIds(policies: seq<Policy>) {
    forall i, j :: 0 <= i < j < |policies| ==> policies[i].id != policies[j].id
  }

  function KeyOf(p: Policy, b: Binding): ServiceKey {
    ServiceKey(b.plugin, p.id, b.service)
  }

  // The services bound by a list of policies.
  function BoundKeys(policies: seq<Policy>): set<ServiceKey> {
    set i, j | 0 <= i < |policies| && 0 <= j < |policies[i].bindings| :: KeyOf(policies[i], policies[i].bindings[j])
  }

  function Ids(policies: seq<Policy>): set<Id> {
    set i | 0 <= i < |policies| :: policies[i].id
  }

  // The failures a caller of the store can tell apart.
  datatype StoreError = StaleGeneration | GenerationConflict | Failed
}
