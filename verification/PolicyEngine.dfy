// The evaluation cycle of the policy engine: traffic and status events to the queue,
// desired state to the plugins (applyAndPublish in internal/policy/engine.go). Every plugin
// call and every enqueue may fail. Each method is a legal run of PolicySystem, so a crash
// anywhere in it leaves one of that system's states.
module PolicyEngine {
  import opened Prelude
  import opened RevisionTable
  import opened PolicyModel
  import opened PolicyTraffic
  import opened PolicyActivity
  import opened PolicyTransactions
  import opened PolicySystem
  import opened PolicyInvariant
  import opened PolicyDistribution
  import PolicyTheorems
  import opened PolicyBuckets
  import opened PolicyDesired
  import opened PolicyStore
  import opened PolicyQuiescence
  import opened PolicyProgress

  // How the calls of one loop turn out, in order.
  type Answers = nat -> bool

  ghost predicate AllYes(answers: Answers) { forall i: nat :: answers(i) }

  // A run as the states it goes through.
  ghost predicate Linked(trace: seq<World>, acts: seq<Action>, i: nat)
    requires |trace| == |acts| + 1 && i < |acts|
  {
    Enabled(trace[i], acts[i]) && trace[i + 1] == Step(trace[i], acts[i])
  }

  ghost predicate IsTrace(trace: seq<World>, acts: seq<Action>) {
    && |trace| == |acts| + 1 && Init(trace[0])
    && forall i {:trigger Linked(trace, acts, i)} :: 0 <= i < |acts| ==> Linked(trace, acts, i)
  }

  lemma {:induction false} TraceIsLegal(trace: seq<World>, acts: seq<Action>)
    requires IsTrace(trace, acts)
    ensures Legal(trace[0], acts) && After(trace[0], acts) == trace[|acts|]
    decreases |acts|
  {
    if acts != [] {
      var n := |acts| - 1;
      assert Linked(trace, acts, n);
      TraceFront(trace, acts);
      TraceIsLegal(trace[..|acts|], acts[..n]);
    }
  }

  lemma TraceFront(trace: seq<World>, acts: seq<Action>)
    requires IsTrace(trace, acts) && acts != []
    ensures IsTrace(trace[..|acts|], acts[..|acts| - 1])
  {
    var trace', acts' := trace[..|acts|], acts[..|acts| - 1];
    forall i {:trigger Linked(trace', acts', i)} | 0 <= i < |acts'|
      ensures Linked(trace', acts', i)
    {
      assert Linked(trace, acts, i);
    }
  }

  lemma TraceExtends(trace: seq<World>, acts: seq<Action>, a: Action)
    requires IsTrace(trace, acts) && Enabled(trace[|acts|], a)
    ensures IsTrace(trace + [Step(trace[|acts|], a)], acts + [a])
  {
    var trace', acts' := trace + [Step(trace[|acts|], a)], acts + [a];
    forall i | 0 <= i < |acts'|
      ensures Linked(trace', acts', i)
    {
      if i < |acts| {
        assert Linked(trace, acts, i);
      }
    }
  }

  lemma TraceIsSafe(trace: seq<World>, acts: seq<Action>)
    requires IsTrace(trace, acts)
    ensures Inv(trace[|acts|])
  {
    TraceIsLegal(trace, acts);
    ReachableIsSafe(trace[0], acts);
  }

  // Once the database is fresh at an instant, no retired pair returns at it.
  lemma FreshMayOpen(w: World, at: Instant)
    requires IsFresh(w.db, at)
    ensures NoReturningPair(w, at)
  {
    forall i | 0 <= i < |w.db.policies| && CurrentPeriod(w.db.policies[i], at).Some?
      ensures MayOpen(w.db.traffic, w.charged, w.db.policies[i].id, CurrentPeriod(w.db.policies[i], at).value)
    {
      assert PolicyIsFresh(w.db, w.db.policies[i], at);
    }
  }

  // What is fresh stays fresh when only queueing changes.
  lemma FreshDependsOn(db: Db, db': Db, at: Instant)
    requires IsFresh(db, at) && db'.policies == db.policies && db'.activity == db.activity
    requires forall id, period :: HasLedger(db'.traffic, id, period) == HasLedger(db.traffic, id, period)
    ensures IsFresh(db', at)
  {
    forall i | 0 <= i < |db'.policies|
      ensures PolicyIsFresh(db', db'.policies[i], at)
    {
      assert PolicyIsFresh(db, db.policies[i], at);
    }
  }

  class Engine {
    const store: Store
    ghost var acts: seq<Action>     // everything done since the database was new
    ghost var trace: seq<World>     // the states this has led through
    ghost var world: World          // the last of them
    ghost var calls: seq<Call>      // the calls made to plugins

    ghost predicate Running()
      reads this
    {
      IsTrace(trace, acts) && world == trace[|acts|]
    }

    ghost predicate Valid()
      reads this, store
    {
      Running() && store.Valid() && world.db == store.db
    }

    constructor ()
      ensures Valid() && fresh(store) && store.db == EMPTY_DB && store.cursors == map[] && acts == []
    {
      calls := [];
      store := new Store();
      acts := [];
      trace := [World(EMPTY_DB, None, {}, {}, None, None, [], [], {}, map[], {}, {}, {}, {})];
      world := World(EMPTY_DB, None, {}, {}, None, None, [], [], {}, map[], {}, {}, {}, {});
    }

    ghost method Take(a: Action)
      requires Running() && Enabled(world, a)
      modifies this`acts, this`trace, this`world
      ensures Running() && world == Step(old(world), a) && acts == old(acts) + [a]
    {
      TraceExtends(trace, acts, a);
      trace := trace + [Step(world, a)];
      acts := acts + [a];
      world := Step(world, a);
    }

    lemma IsSafe()
      requires Running()
      ensures Inv(world)
    {
      TraceIsSafe(trace, acts);
    }

    // So what the engine has done is a legal run, to which the theorems about runs apply.
    lemma IsLegal()
      requires Running()
      ensures Init(trace[0]) && Legal(trace[0], acts) && After(trace[0], acts) == world
    {
      TraceIsLegal(trace, acts);
    }

    // ---- queueTraffic ----

    // Enqueues one event and notes that it was. The event's marking cannot fail.
    method QueueOne(e: TrafficEvent, accepted: bool, at: Instant) returns (ok: bool)
      requires Valid() && Unqueued(store.db.traffic, e) && IsFresh(store.db, at)
      modifies this`acts, this`trace, this`world, store`db
      ensures Valid() && old(acts) <= acts
      ensures ok == accepted && world.statusLog == old(world.statusLog)
      ensures store.db == old(store.db).(traffic := store.db.traffic) && IsFresh(store.db, at)
      ensures ok ==> forall o :: Unqueued(store.db.traffic, o) <==> Unqueued(old(store.db.traffic), o) && o != e
      ensures world.log == if ok then old(world.log) + [e] else old(world.log)
    {
      if !accepted { return false; }
      IsSafe();
      MarkedOne(world.db.traffic, CenterView(world.log), world.charged, e);
      Take(EnqueueTraffic(e));
      ok := store.MarkTrafficQueued(e);
      FreshDependsOn(world.db, store.db, at);
      Take(MarkTraffic(e));
    }
  
    method RefreshTraffic(at: Instant) returns (r: Result<seq<TrafficEvent>, StoreError>)
      requires Valid() && NoReturningPair(world, at)
      modifies this`acts, this`trace, this`world, store`db
      ensures Valid() && old(acts) <= acts
      ensures store.db.generation == old(store.db.generation)
      ensures NoReturningPair(world, at) && world.log == old(world.log) && world.statusLog == old(world.statusLog)
      ensures r.Ok? <==> PeriodsKnown(old(store.db), at)
      ensures Kept(old(store.db), store.db) && SameRecords(old(store.db), store.db)
      ensures r.Err? ==> store.db == old(store.db)
      ensures r.Ok? ==>
                IsFresh(store.db, at) && NoDuplicates(r.value) && forall e :: e in r.value <==> Unqueued(store.db.traffic, e)
      ensures IsFresh(old(store.db), at) ==> r.Ok? && store.db == old(store.db)
    {
      if IsFresh(store.db, at) { RefreshIsIdle(store.db, at); }
      ghost var before := store.db;
      RefreshSucceeds(before, at);
      r := store.PendingTrafficSnapshots(at);
      if r.Ok? {
        RefreshedIsFresh(before, at);
        RefreshUpToKeeps(before, at, |before.policies|);
        Take(Refresh(at));
        FreshMayOpen(world, at);
        IsSafe();
        TrafficIsApart(world);
      }
    }

    // Only what the queue accepts is marked; a refusal ends the loop.
    method QueueAll(list: seq<TrafficEvent>, accepts: Answers, at: Instant) returns (ok: bool)
      requires Valid() && IsFresh(store.db, at) && NoDuplicates(list)
      requires forall e :: Unqueued(store.db.traffic, e) <==> e in list
      modifies this`acts, this`trace, this`world, store`db
      ensures Valid() && old(acts) <= acts
      ensures store.db == old(store.db).(traffic := store.db.traffic)
      ensures IsFresh(store.db, at) && world.statusLog == old(world.statusLog)
      ensures ok <==> forall i :: 0 <= i < |list| ==> accepts(i)
      ensures ok ==> forall e :: !Unqueued(store.db.traffic, e)
      ensures list == [] ==> ok && store.db == old(store.db) && world.log == old(world.log)
    {
      var i := 0;
      ghost var rest := list;
      while i < |list|
        invariant i <= |list| && rest == list[i..] && NoDuplicates(rest)
        invariant forall j :: 0 <= j < i ==> accepts(j)
        invariant store.db == old(store.db).(traffic := store.db.traffic)
        invariant Valid() && old(acts) <= acts
        invariant IsFresh(store.db, at) && world.statusLog == old(world.statusLog)
        invariant forall e :: Unqueued(store.db.traffic, e) <==> e in rest
        invariant list == [] ==> store.db == old(store.db) && world.log == old(world.log)
      {
        RestWithout(rest);
        ok := QueueOne(list[i], accepts(i), at);
        if !ok { return false; }
        i := i + 1;
        rest := rest[1..];
      }
      return true;
    }

    method QueueTraffic(at: Instant, accepts: Answers) returns (ok: bool)
      requires Valid() && NoReturningPair(world, at)
      modifies this`acts, this`trace, this`world, store`db
      ensures Valid() && old(acts) <= acts
      ensures store.db.generation == old(store.db.generation)
      ensures NoReturningPair(world, at) && world.statusLog == old(world.statusLog)
      ensures Kept(old(store.db), store.db) && SameRecords(old(store.db), store.db)
      ensures PeriodsKnown(old(store.db), at) && AllYes(accepts) ==> ok
      ensures ok ==> TrafficSettled(store.db, at)
      ensures TrafficSettled(old(store.db), at) ==> ok && store.db == old(store.db) && world.log == old(world.log)
    {
      var values := RefreshTraffic(at);
      if values.Err? { return false; }
      if values.value != [] { SomethingWaits(store.db.traffic, values.value); }
      ok := QueueAll(values.value, accepts, at);
      FreshMayOpen(world, at);
      if ok {
        IsSafe();
        NoneWaiting(world.db.traffic, CenterView(world.log), world.charged);
      }
    }

    // ---- applyDesired ----

    // One service: what it takes for the loop to go on without an error, and the call it makes
    // if the running instance has not acknowledged the record.
    method ApplyService(s: DesiredService, runtimes: Runtimes, acknowledged: bool) returns (ok: bool)
      requires Valid() && s in world.todo && world.cycle.Some? && world.db.generation > 0
      modifies this, store`db
      ensures Valid() && old(acts) <= acts
      ensures ServiceGoesOn(old(world), world, s, runtimes, acknowledged, ok)
      ensures calls == old(calls) + CallFor(old(world.db), s, runtimes, acknowledged)
      ensures ServiceIsDue(old(world.db), s, runtimes) ==>
                |acts| > |old(acts)| && acts[|old(acts)|] == SetService(s, runtimes[s.key.plugin].instance, acknowledged)
    {
      NothingToAsk(s, runtimes, acknowledged);
      if s.key.plugin !in runtimes { return false; }
      var runtime := runtimes[s.key.plugin];
      if !runtime.counters || !runtime.control { return false; }
      if RequiresSoftIP(store.db, s) && (!runtime.activity || !runtime.blocking) { return false; }
      var needed := store.ServiceNeedsApply(s, runtime.instance);
      if !needed { return true; }
      calls := calls + [ServiceCall(s, runtime.instance, acknowledged)];
      ok := CallService(s, runtimes, acknowledged);
    }

    // The call, and the note that it was acknowledged.
    method CallService(s: DesiredService, runtimes: Runtimes, acknowledged: bool) returns (ok: bool)
      requires Valid() && s in world.todo && ServiceIsDue(store.db, s, runtimes)
      modifies this`acts, this`trace, this`world, store`db
      ensures Valid() && old(acts) <= acts
      ensures |acts| > |old(acts)| && acts[|old(acts)|] == SetService(s, runtimes[s.key.plugin].instance, acknowledged)
      ensures ServiceGoesOn(old(world), world, s, runtimes, acknowledged, ok)
    {
      var instance := runtimes[s.key.plugin].instance;
      TodoIsCurrent(s);
      TakeSetService(s, instance, acknowledged);
      if !acknowledged { return false; }
      ghost var before := world;
      ok := store.MarkServiceApplied(s, instance);
      if ok { TakeMarkService(before, s, runtimes); }
    }

    // Where nothing is due, all is done if the plugin can serve the service: an orphan's record
    // always is.
    lemma NothingToAsk(s: DesiredService, runtimes: Runtimes, acknowledged: bool)
      requires Running() && s in world.todo && world.cycle.Some? && world.db.generation > 0
      ensures !ServiceIsDue(world.db, s, runtimes) ==>
                ServiceGoesOn(world, world, s, runtimes, acknowledged, CanServe(world.db, s, runtimes))
    {
      if !ServiceIsDue(world.db, s, runtimes) && CanServe(world.db, s, runtimes) && s.key in world.db.orphans {
        IsSafe();
        OrphanNeedsApply(world, s, runtimes[s.key.plugin].instance);
      }
    }

    lemma TodoIsCurrent(s: DesiredService)
      requires Running() && s in world.todo
      ensures s.key in world.db.services.rows ==> world.db.services.rows[s.key] == s.row
    {
      IsSafe();
    }

    ghost method TakeSetService(s: DesiredService, instance: Id, acknowledged: bool)
      requires Running() && s in world.todo
      modifies this`acts, this`trace, this`world
      ensures Running() && acts == old(acts) + [SetService(s, instance, acknowledged)]
      ensures world == ServiceSet(old(world), s, instance, acknowledged)
    {
      Take(SetService(s, instance, acknowledged));
    }

    ghost method TakeMarkService(before: World, s: DesiredService, runtimes: Runtimes)
      requires Running() && world == before && s in world.todo && CanServe(world.db, s, runtimes)
      requires world.acking == Some(Acknowledged(runtimes[s.key.plugin].instance, s.key, s.row))
      requires MarkedService(world).Ok?
      modifies this`acts, this`trace, this`world
      ensures Running() && old(acts) <= acts && world == ServiceMarked(before)
      ensures ServiceDone(world.db, s, runtimes) && !ServiceIsDue(world.db, s, runtimes)
      ensures forall d :: d in world.todo && ServiceDone(before.db, d, runtimes) ==> ServiceDone(world.db, d, runtimes)
      ensures OthersStay(before, world.db, s, runtimes)
    {
      IsSafe();
      ServiceMarkedIsDone(before, s, runtimes);
      Take(MarkService);
    }

    // One block set.
    method ApplyBlocks(b: DesiredBlocks, runtimes: Runtimes, acknowledged: bool) returns (ok: bool)
      requires Valid() && b in world.todoBlocks && world.cycle.Some?
      modifies this, store`db
      ensures Valid() && old(acts) <= acts
      ensures BlocksGoOn(old(world), world, b, runtimes, acknowledged, ok)
      ensures calls == old(calls) + CallForBlocks(old(world.db), b, runtimes, acknowledged)
      ensures BlocksAreDue(old(world.db), b, runtimes) ==>
                |acts| > |old(acts)| && acts[|old(acts)|] == SetBlocks(b, runtimes[b.key].instance, acknowledged)
    {
      if b.key !in runtimes { return false; }
      var runtime := runtimes[b.key];
      if !runtime.blocking { return false; }
      var needed := store.BlocksNeedApply(b, runtime.instance);
      if !needed { return true; }
      calls := calls + [BlocksCall(b, runtime.instance, acknowledged)];
      ok := CallBlocks(b, runtimes, acknowledged);
    }

    method CallBlocks(b: DesiredBlocks, runtimes: Runtimes, acknowledged: bool) returns (ok: bool)
      requires Valid() && b in world.todoBlocks && CanBlock(b.key, runtimes)
      modifies this`acts, this`trace, this`world, store`db
      ensures Valid() && old(acts) <= acts
      ensures |acts| > |old(acts)| && acts[|old(acts)|] == SetBlocks(b, runtimes[b.key].instance, acknowledged)
      ensures InCycle(old(world), world)
      ensures ok == (acknowledged && b.key in old(world.db.blocks.rows))
      ensures OtherBlocksStay(old(world), world.db, b, runtimes)
      ensures world.db.services == old(world.db.services) && world.db.appliedServices == old(world.db.appliedServices)
      ensures ok ==> BlocksDone(world.db, b, runtimes)
      ensures forall d :: d in world.todoBlocks && BlocksDone(old(world.db), d, runtimes) ==>
                BlocksDone(world.db, d, runtimes)
    {
      var instance := runtimes[b.key].instance;
      TodoBlocksAreCurrent(b);
      TakeSetBlocks(b, instance, acknowledged);
      if !acknowledged { return false; }
      ghost var before := world;
      ok := store.MarkBlocksApplied(b, instance);
      if ok { TakeMarkBlocks(before, b, runtimes); }
    }

    lemma TodoBlocksAreCurrent(b: DesiredBlocks)
      requires Running() && b in world.todoBlocks
      ensures b.key in world.db.blocks.rows ==> world.db.blocks.rows[b.key] == b.row
    {
      IsSafe();
    }

    ghost method TakeSetBlocks(b: DesiredBlocks, instance: Id, acknowledged: bool)
      requires Running() && b in world.todoBlocks
      modifies this`acts, this`trace, this`world
      ensures Running() && acts == old(acts) + [SetBlocks(b, instance, acknowledged)]
      ensures world == BlocksSet(old(world), b, instance, acknowledged)
    {
      Take(SetBlocks(b, instance, acknowledged));
    }

    ghost method TakeMarkBlocks(before: World, b: DesiredBlocks, runtimes: Runtimes)
      requires Running() && world == before && b in world.todoBlocks && CanBlock(b.key, runtimes)
      requires world.ackingBlocks == Some(Acknowledged(runtimes[b.key].instance, b.key, b.row))
      requires MarkedBlocks(world).Ok?
      modifies this`acts, this`trace, this`world
      ensures Running() && old(acts) <= acts && world == BlocksMarked(before)
      ensures BlocksDone(world.db, b, runtimes)
      ensures forall d :: d in world.todoBlocks && BlocksDone(before.db, d, runtimes) ==>
                BlocksDone(world.db, d, runtimes)
      ensures OtherBlocksStay(before, world.db, b, runtimes)
    {
      IsSafe();
      BlocksMarkedAreDone(before, b, runtimes);
      Take(MarkBlocks);
    }

    // An error does not stop the loop; it only makes its result one.
    method ApplyServices(list: seq<DesiredService>, runtimes: Runtimes, acknowledges: Answers)
      returns (ok: bool, ghost made: seq<Call>)
      requires Valid() && (list == [] || (world.cycle.Some? && world.db.generation > 0))
      requires forall s :: s in list ==> s in world.todo
      modifies this, store`db
      ensures Valid() && old(acts) <= acts
      ensures calls == old(calls) + made
      ensures ServicesSoFar(old(world), world, list, |list|, made, runtimes, acknowledges, ok)
    {
      ghost var start := world;
      ok, made := true, [];
      NothingSoFar(start, list, [], runtimes, acknowledges);
      for i := 0 to |list|
        invariant Valid() && old(acts) <= acts && calls == old(calls) + made
        invariant ServicesSoFar(start, world, list, i, made, runtimes, acknowledges, ok)
      {
        ok, made := ServeNext(list, i, runtimes, acknowledges, ok, start, made);
      }
    }

    method ServeNext(list: seq<DesiredService>, i: nat, runtimes: Runtimes, acknowledges: Answers, okBefore: bool,
                     ghost start: World, ghost madeBefore: seq<Call>) returns (ok: bool, ghost made: seq<Call>)
      requires Valid() && i < |list| && world.cycle.Some? && world.db.generation > 0
      requires forall s :: s in list ==> s in world.todo
      requires ServicesSoFar(start, world, list, i, madeBefore, runtimes, acknowledges, okBefore)
      modifies this, store`db
      ensures Valid() && old(acts) <= acts && madeBefore <= made && calls == old(calls) + made[|madeBefore|..]
      ensures ServicesSoFar(start, world, list, i + 1, made, runtimes, acknowledges, ok)
    {
      ghost var before := world;
      assert list[i] in list;
      var done := ApplyService(list[i], runtimes, acknowledges(i));
      NextService(start, before, world, list, i, madeBefore, runtimes, acknowledges, okBefore, done);
      ok, made := okBefore && done, madeBefore + CallFor(before.db, list[i], runtimes, acknowledges(i));
    }

    method ApplyBlockSets(list: seq<DesiredBlocks>, runtimes: Runtimes, acknowledges: Answers)
      returns (ok: bool, ghost made: seq<Call>)
      requires Valid() && (list == [] || world.cycle.Some?)
      requires forall b :: b in list ==> b in world.todoBlocks
      modifies this, store`db
      ensures Valid() && old(acts) <= acts
      ensures calls == old(calls) + made
      ensures BlocksSoFar(old(world), world, list, |list|, made, runtimes, acknowledges, ok)
    {
      ghost var start := world;
      ok, made := true, [];
      NothingSoFar(start, [], list, runtimes, acknowledges);
      for i := 0 to |list|
        invariant Valid() && old(acts) <= acts && calls == old(calls) + made
        invariant BlocksSoFar(start, world, list, i, made, runtimes, acknowledges, ok)
      {
        ok, made := BlockNext(list, i, runtimes, acknowledges, ok, start, made);
      }
    }

    method BlockNext(list: seq<DesiredBlocks>, i: nat, runtimes: Runtimes, acknowledges: Answers, okBefore: bool,
                     ghost start: World, ghost madeBefore: seq<Call>) returns (ok: bool, ghost made: seq<Call>)
      requires Valid() && i < |list| && world.cycle.Some?
      requires forall b :: b in list ==> b in world.todoBlocks
      requires BlocksSoFar(start, world, list, i, madeBefore, runtimes, acknowledges, okBefore)
      modifies this, store`db
      ensures Valid() && old(acts) <= acts && madeBefore <= made && calls == old(calls) + made[|madeBefore|..]
      ensures BlocksSoFar(start, world, list, i + 1, made, runtimes, acknowledges, ok)
    {
      ghost var before := world;
      assert list[i] in list;
      var done := ApplyBlocks(list[i], runtimes, acknowledges(i));
      NextBlocks(start, before, world, list, i, madeBefore, runtimes, acknowledges, okBefore, done);
      ok, made := okBefore && done, madeBefore + CallForBlocks(before.db, list[i], runtimes, acknowledges(i));
    }

    // Desired, as two steps of the run: the refresh and the transaction after it.
    method RunDesired(at: Instant)
      returns (ok: bool, services: seq<DesiredService>, blocks: seq<DesiredBlocks>,
               ghost orphanOrder: seq<ServiceKey>, ghost pluginOrder: seq<Id>)
      requires Valid() && NoReturningPair(world, at)
      modifies this`acts, this`trace, this`world, store`db
      ensures Valid() && old(acts) <= acts
      ensures store.db.generation == old(store.db.generation)
      ensures NoReturningPair(world, at) && world.log == old(world.log) && world.statusLog == old(world.statusLog)
      ensures ok && world.db.generation > 0 ==>
                world.cycle == Some(at) && Lists(world, services, blocks) && Covers(world)
      ensures DesiredResult(old(store.db), at, ok, store.db, services, blocks, orphanOrder, pluginOrder)
      ensures Kept(old(store.db), store.db) && SameAcknowledged(old(store.db), store.db)
      ensures TrafficSettled(old(store.db), at) ==> TrafficSettled(store.db, at)
    {
      ghost var before := store.db;
      var r;
      r, services, blocks, orphanOrder, pluginOrder := store.Desired(at);
      ok := r.Ok?;
      if IsFresh(before, at) { RefreshIsIdle(before, at); }
      ghost var refreshed := Refreshed(before, at);
      if refreshed.Ok? {
        RefreshedIsFresh(before, at);
        RefreshUpToKeeps(before, at, |before.policies|);
        TakeRefresh(at);
        if ok && store.db.generation > 0 {
          TakeDesired(at, orphanOrder, pluginOrder, services, blocks);
          FreshDependsOn(refreshed.value, store.db, at);
        }
        FreshMayOpen(world, at);
      }
    }

    method FetchDesired(at: Instant, ghost runtimes: Runtimes)
      returns (ok: bool, services: seq<DesiredService>, blocks: seq<DesiredBlocks>)
      requires Valid() && NoReturningPair(world, at)
      modifies this`acts, this`trace, this`world, store`db
      ensures Valid() && old(acts) <= acts
      ensures store.db.generation == old(store.db.generation)
      ensures NoReturningPair(world, at) && world.log == old(world.log) && world.statusLog == old(world.statusLog)
      ensures TrafficSettled(old(store.db), at) ==> TrafficSettled(store.db, at)
      ensures ok && world.db.generation > 0 ==>
                world.cycle == Some(at) && Lists(world, services, blocks) && Covers(world)
      ensures ok && world.db.generation == 0 ==> services == [] && blocks == []
      ensures Settled(old(store.db), at, runtimes) ==>
                ok && store.db == old(store.db) && AllIdle(store.db, services, blocks, runtimes)
      ensures Kept(old(store.db), store.db) && SameAcknowledged(old(store.db), store.db)
      ensures IsDesirable(old(store.db), at) ==> ok && IsListed(store.db, services, blocks)
      ensures Evaluable(old(store.db), at, runtimes) ==> ok && Servable(store.db, services, blocks, runtimes)
    {
      IsSafe();
      ghost var before := store.db;
      ghost var orphanOrder, pluginOrder;
      ok, services, blocks, orphanOrder, pluginOrder := RunDesired(at);
      if Settled(before, at, runtimes) {
        ResultIsIdle(before, at, runtimes, ok, store.db, services, blocks, orphanOrder, pluginOrder);
      }
      if IsDesirable(before, at) { ResultIsListed(before, at, ok, store.db, services, blocks, orphanOrder, pluginOrder); }
      if Evaluable(before, at, runtimes) {
        ResultIsServable(before, at, runtimes, ok, store.db, services, blocks, orphanOrder, pluginOrder);
      }
    }

    ghost method TakeRefresh(at: Instant)
      requires Running() && NoReturningPair(world, at) && Refreshed(world.db, at).Ok?
      modifies this`acts, this`trace, this`world
      ensures Running() && old(acts) <= acts && world.db == Refreshed(old(world.db), at).value
      ensures world.log == old(world.log) && world.statusLog == old(world.statusLog)
    {
      Take(Refresh(at));
    }

    ghost method TakeDesired(at: Instant, orphanOrder: seq<ServiceKey>, pluginOrder: seq<Id>,
                             services: seq<DesiredService>, blocks: seq<DesiredBlocks>)
      requires Running() && IsFresh(world.db, at) && HasLedgers(world.db) && world.db.generation > 0
      requires DesiredTx(world.db, at, orphanOrder, pluginOrder).Ok?
      requires WellListed(world.db, at, orphanOrder, pluginOrder, services, blocks)
      modifies this`acts, this`trace, this`world
      ensures Running() && old(acts) <= acts
      ensures world.db == DesiredTx(old(world.db), at, orphanOrder, pluginOrder).value && world.cycle == Some(at)
      ensures world.log == old(world.log) && world.statusLog == old(world.statusLog)
      ensures Lists(world, services, blocks) && Covers(world)
    {
      IsSafe();
      ListsAreTodo(world, at, orphanOrder, pluginOrder, services, blocks);
      Take(Desired(at, orphanOrder, pluginOrder));
    }

    method ApplyDesired(at: Instant, runtimes: Runtimes, serviceAnswers: Answers, blockAnswers: Answers)
      returns (ok: bool, ghost made: seq<Call>)
      requires Valid() && NoReturningPair(world, at)
      modifies this, store`db
      ensures Valid() && old(acts) <= acts && calls == old(calls) + made
      ensures Kept(old(store.db), store.db)
      ensures NoReturningPair(world, at) && world.log == old(world.log) && world.statusLog == old(world.statusLog)
      ensures TrafficSettled(old(store.db), at) ==> TrafficSettled(store.db, at)
      ensures ok ==> PluginsSettled(store.db, at, runtimes)
      ensures Settled(old(store.db), at, runtimes) ==> ok && store.db == old(store.db) && made == []
      ensures IsDesirable(old(store.db), at) ==> AskedWhereServed(old(store.db), store.db, made, runtimes)
      ensures Evaluable(old(store.db), at, runtimes) && AllYes(serviceAnswers) && AllYes(blockAnswers) ==>
                ok && AskedWhatWasDue(old(store.db), store.db, made, runtimes)
    {
      ghost var start := store.db;
      var fetched, services, blocks := FetchDesired(at, runtimes);
      if !fetched { return false, []; }
      ghost var before := world;
      ok, made := HandOut(at, services, blocks, runtimes, serviceAnswers, blockAnswers);
      InCycleIsFresh(before, world, at);
      InCycleKeeps(start, before, world);
      AsAskedFrom(start, before.db, store.db, made, runtimes);
    }

    // Both loops, from what Desired returned.
    method HandOut(at: Instant, services: seq<DesiredService>, blocks: seq<DesiredBlocks>, runtimes: Runtimes,
                   serviceAnswers: Answers, blockAnswers: Answers) returns (ok: bool, ghost made: seq<Call>)
      requires Valid()
      requires if world.db.generation > 0 then world.cycle == Some(at) && Lists(world, services, blocks) && Covers(world)
               else services == [] && blocks == []
      modifies this, store`db
      ensures Valid() && old(acts) <= acts && calls == old(calls) + made && InCycle(old(world), world)
      ensures ok ==> PluginsSettled(store.db, at, runtimes)
      ensures AllIdle(old(world.db), services, blocks, runtimes) ==> ok && world == old(world) && made == []
      ensures IsListed(old(world.db), services, blocks) ==> AskedWhereServed(old(world.db), store.db, made, runtimes)
      ensures Servable(old(world.db), services, blocks, runtimes) && AllYes(serviceAnswers) && AllYes(blockAnswers) ==>
                ok && AskedWhatWasDue(old(world.db), store.db, made, runtimes)
    {
      ghost var before := world;
      CycleIsSafe();
      ok, made := Distribute(services, blocks, runtimes, serviceAnswers, blockAnswers);
      Concludes(before, at, services, blocks, runtimes, serviceAnswers, blockAnswers, made, ok);
    }

    lemma Concludes(before: World, at: Instant, services: seq<DesiredService>, blocks: seq<DesiredBlocks>, runtimes: Runtimes,
                    serviceAnswers: Answers, blockAnswers: Answers, made: seq<Call>, ok: bool)
      requires Running() && CycleOk(before) && TodoOk(before) && OrphanRowsOk(before.db)
      requires HandsOut(before, world, services, blocks, made, runtimes, serviceAnswers, blockAnswers, ok)
      requires if before.db.generation > 0 then before.cycle == Some(at) && Lists(before, services, blocks) && Covers(before)
               else services == [] && blocks == []
      ensures ok ==> PluginsSettled(world.db, at, runtimes)
      ensures IsListed(before.db, services, blocks) ==> AskedWhereServed(before.db, world.db, made, runtimes)
      ensures Servable(before.db, services, blocks, runtimes) && AllYes(serviceAnswers) && AllYes(blockAnswers) ==>
                ok && AskedWhatWasDue(before.db, world.db, made, runtimes)
    {
      if ok && world.db.generation > 0 { SettlePlugins(before, at, runtimes); }
      if IsListed(before.db, services, blocks) { WasAsked(before, at, runtimes, services, blocks, made); }
      if Servable(before.db, services, blocks, runtimes) && AllYes(serviceAnswers) && AllYes(blockAnswers) {
        WasApplied(before, at, runtimes, services, blocks, made);
      }
    }

    lemma CycleIsSafe()
      requires Running()
      ensures CycleOk(world) && TodoOk(world) && OrphanRowsOk(world.db)
    {
      IsSafe();
    }

    lemma WasAsked(before: World, at: Instant, runtimes: Runtimes, services: seq<DesiredService>, blocks: seq<DesiredBlocks>,
                   made: seq<Call>)
      requires Running() && CycleOk(before) && TodoOk(before) && OrphanRowsOk(before.db) && InCycle(before, world)
      requires IsListed(before.db, services, blocks) && AskedWhatIsDue(before.db, services, blocks, made, runtimes)
      requires before.db.generation > 0 ==> before.cycle == Some(at) && Lists(before, services, blocks) && Covers(before)
      ensures AskedWhereServed(before.db, world.db, made, runtimes)
    {
      CycleIsSafe();
      if before.db.generation > 0 {
        DueIsAskedWhereServed(before.db, before, world, at, runtimes, services, blocks, made);
      }
    }

    lemma WasApplied(before: World, at: Instant, runtimes: Runtimes, services: seq<DesiredService>, blocks: seq<DesiredBlocks>,
                     made: seq<Call>)
      requires Running() && CycleOk(before) && TodoOk(before) && OrphanRowsOk(before.db) && InCycle(before, world)
      requires Servable(before.db, services, blocks, runtimes) && PluginsSettled(world.db, at, runtimes)
      requires AskedWhatIsDue(before.db, services, blocks, made, runtimes) && EachOnce(made)
      requires if before.db.generation > 0 then before.cycle == Some(at) && Lists(before, services, blocks) && Covers(before)
               else services == [] && blocks == []
      ensures AskedWhatWasDue(before.db, world.db, made, runtimes)
    {
      CycleIsSafe();
      if before.db.generation > 0 {
        DueWasAsked(before.db, before, world, at, runtimes, services, blocks, made);
      } else {
        assert AskedServices(made) == {} && AskedBlocks(made) == {};
      }
    }

    lemma SettlePlugins(before: World, at: Instant, runtimes: Runtimes)
      requires Running() && before.cycle == Some(at) && before.db.generation > 0 && Covers(before)
      requires InCycle(before, world) && Handed(world, runtimes)
      ensures PluginsSettled(world.db, at, runtimes)
    {
      IsSafe();
      CoversStays(before, world);
      AllDone(world, at, runtimes);
    }

    // The two loops.
    method Distribute(services: seq<DesiredService>, blocks: seq<DesiredBlocks>, runtimes: Runtimes,
                      serviceAnswers: Answers, blockAnswers: Answers) returns (ok: bool, ghost made: seq<Call>)
      requires Valid()
      requires if world.db.generation > 0 then world.cycle.Some? && Lists(world, services, blocks) else services == [] && blocks == []
      modifies this, store`db
      ensures Valid() && old(acts) <= acts && calls == old(calls) + made
      ensures HandsOut(old(world), world, services, blocks, made, runtimes, serviceAnswers, blockAnswers, ok)
    {
      ghost var start := world;
      var servicesOk, blocksOk;
      ghost var forServices, forBlocks;
      servicesOk, forServices := ApplyServices(services, runtimes, serviceAnswers);
      ghost var middle := world;
      blocksOk, forBlocks := ApplyBlockSets(blocks, runtimes, blockAnswers);
      ok, made := servicesOk && blocksOk, forServices + forBlocks;
      LoopsTogether(start, middle, world, services, blocks, forServices, forBlocks, runtimes,
                    serviceAnswers, blockAnswers, servicesOk, blocksOk);
    }

    // ---- RefreshStatuses ----

    method UpdateStatuses(at: Instant, runtimes: Runtimes) returns (ok: bool)
      requires Valid() && NoReturningPair(world, at)
      modifies this`acts, this`trace, this`world, store`db
      ensures Valid() && old(acts) <= acts
      ensures store.db.generation == old(store.db.generation)
      ensures world.log == old(world.log) && world.statusLog == old(world.statusLog)
      ensures TrafficSettled(old(store.db), at) ==> TrafficSettled(store.db, at)
      ensures TrafficSettled(old(store.db), at) && PluginsSettled(old(store.db), at, runtimes) ==>
                PluginsSettled(store.db, at, runtimes)
      ensures Kept(old(store.db), store.db) && SameRecords(old(store.db), store.db)
      ensures StatusesPossible(old(store.db), at) ==> ok
      ensures ok ==> StatusesCurrent(store.db, at, runtimes)
      ensures Settled(old(store.db), at, runtimes) ==> ok && store.db == old(store.db)
    {
      ghost var before := store.db;
      if IsFresh(before, at) { RefreshIsIdle(before, at); }
      if Settled(before, at, runtimes) && before.generation > 0 { StatusesAreIdle(before, at, runtimes, |before.policies|); }
      var r := store.RefreshStatuses(at, Instances(runtimes));
      ok := r.Ok?;
      RefreshSucceeds(before, at);
      if Refreshed(before, at).Ok? {
        RefreshedIsFresh(before, at);
        RefreshUpToKeeps(before, at, |before.policies|);
        ghost var clean := Refreshed(before, at).value;
        StatusesAreApartFromPlugins(clean, store.db, at, runtimes);
        if StatusesPossible(before, at) { RefreshedStatusesArePossible(before, clean, at, Instances(runtimes)); }
        if ok { RefreshedStatusesAreCurrent(clean, at, runtimes); }
        TakeStatuses(at, Instances(runtimes), ok);
      }
    }

    // A refresh that changes nothing is no step of its own: the instant of the cycle stays.
    ghost method TakeStatuses(at: Instant, instances: map<Id, Id>, ok: bool)
      requires Running() && NoReturningPair(world, at) && Refreshed(world.db, at).Ok?
      requires var clean := Refreshed(world.db, at).value;
               HasLedgers(clean) && IsFresh(clean, at) && ok == StatusesTx(clean, at, instances).Ok?
      modifies this`acts, this`trace, this`world
      ensures Running() && old(acts) <= acts
      ensures var clean := Refreshed(old(world.db), at).value;
              world.db == if ok then StatusesTx(clean, at, instances).value else clean
      ensures world.log == old(world.log) && world.statusLog == old(world.statusLog)
    {
      if world.db != Refreshed(world.db, at).value { TakeRefresh(at); }
      if ok { Take(RefreshStatuses(at, instances)); }
    }

    // ---- queueStatuses ----

    method QueueStatus(e: StatusEvent, accepted: bool) returns (ok: bool)
      requires Valid() && e.authorization in store.db.statuses && store.db.statuses[e.authorization].event == e
      modifies this`acts, this`trace, this`world, store`db
      ensures Valid() && old(acts) <= acts && ok == accepted
      ensures world.log == old(world.log)
      ensures store.db == if ok then StatusQueued(old(store.db), e) else old(store.db)
    {
      if !accepted { return false; }
      Take(EnqueueStatus(e));
      store.MarkStatusQueued(e);
      Take(MarkStatus(e));
      return true;
    }

    method QueueStatuses(accepts: Answers) returns (ok: bool)
      requires Valid()
      modifies this`acts, this`trace, this`world, store`db
      ensures Valid() && old(acts) <= acts
      ensures world.log == old(world.log)
      ensures store.db == old(store.db).(statuses := store.db.statuses) && SameEvents(old(store.db.statuses), store.db.statuses)
      ensures ok ==> forall id :: id in store.db.statuses ==> store.db.statuses[id].queued
      ensures AllYes(accepts) ==> ok
      ensures (forall id :: id in old(store.db.statuses) ==> old(store.db.statuses)[id].queued) ==>
                ok && store.db == old(store.db) && world == old(world)
    {
      ghost var before := store.db;
      var list := store.PendingStatuses();
      ok := QueueList(list, accepts);
      if forall id :: id in before.statuses ==> before.statuses[id].queued { NoneListed(before.statuses, list); }
    }

    method QueueList(list: seq<StatusEvent>, accepts: Answers) returns (ok: bool)
      requires Valid()
      requires forall e :: e in list ==>
                e.authorization in store.db.statuses && store.db.statuses[e.authorization].event == e
      requires forall id :: id in store.db.statuses && !store.db.statuses[id].queued ==>
                store.db.statuses[id].event in list
      modifies this`acts, this`trace, this`world, store`db
      ensures Valid() && old(acts) <= acts
      ensures world.log == old(world.log)
      ensures store.db == old(store.db).(statuses := store.db.statuses) && SameEvents(old(store.db.statuses), store.db.statuses)
      ensures ok ==> forall id :: id in store.db.statuses ==> store.db.statuses[id].queued
      ensures ok <==> forall i :: 0 <= i < |list| ==> accepts(i)
      ensures list == [] ==> ok && store.db == old(store.db) && world == old(world)
    {
      for i := 0 to |list|
        invariant forall j :: 0 <= j < i ==> accepts(j)
        invariant Valid() && old(acts) <= acts && world.log == old(world.log)
        invariant store.db == old(store.db).(statuses := store.db.statuses) && SameEvents(old(store.db.statuses), store.db.statuses)
        invariant forall id :: id in store.db.statuses && !store.db.statuses[id].queued ==>
                  store.db.statuses[id].event in list[i..]
        invariant list == [] ==> store.db == old(store.db) && world == old(world)
      {
        assert list[i] in list && list[i..] == [list[i]] + list[i + 1..];
        ok := QueueStatus(list[i], accepts(i));
        if !ok { return false; }
      }
      return true;
    }

    // ---- applyAndPublish ----

    // One evaluation, which goes on past errors: no phase depends on another, nor one plugin's
    // calls on another's. Without an error it leaves nothing to do, and
    // where there is nothing to do it does nothing: no call, no event, no change. It is without
    // error where periods, revisions and counts allow, the plugins can serve and answer, and
    // the queue accepts; then each record that was due was asked for, once, and nothing else.
    method ApplyAndPublish(at: Instant, runtimes: Runtimes, traffic: Answers, services: Answers, blocks: Answers, statuses: Answers)
      returns (ok: bool, ghost made: seq<Call>)
      requires Valid() && NoReturningPair(world, at)
      modifies this, store`db
      ensures Valid() && old(acts) <= acts && calls == old(calls) + made
      ensures Kept(old(store.db), store.db)
      ensures EachPhaseIsDone(old(store.db), store.db, at, runtimes, made, traffic, statuses)
      ensures ok ==> Settled(store.db, at, runtimes)
      ensures Settled(old(store.db), at, runtimes) ==>
                ok && store.db == old(store.db) && made == []
                && world.log == old(world.log) && world.statusLog == old(world.statusLog)
      ensures Evaluable(old(store.db), at, runtimes)
              && AllYes(traffic) && AllYes(services) && AllYes(blocks) && AllYes(statuses) ==>
                ok && AskedWhatWasDue(old(store.db), store.db, made, runtimes)
    {
      ghost var start := store.db;
      var trafficOk := QueueTraffic(at, traffic);
      ghost var queued := store.db;
      var desiredOk;
      desiredOk, made := ApplyDesired(at, runtimes, services, blocks);
      ghost var applied := store.db;
      var statusesOk := PublishStatuses(at, runtimes, statuses);
      ok := trafficOk && desiredOk && statusesOk;
      PhasesTogether(start, queued, applied, store.db, at, runtimes, made, traffic, statuses);
    }

    // Both phases for statuses.
    method PublishStatuses(at: Instant, runtimes: Runtimes, accepts: Answers) returns (ok: bool)
      requires Valid() && NoReturningPair(world, at)
      modifies this`acts, this`trace, this`world, store`db
      ensures Valid() && old(acts) <= acts && world.log == old(world.log)
      ensures Kept(old(store.db), store.db) && SameRecords(old(store.db), store.db)
      ensures TrafficSettled(old(store.db), at) ==> TrafficSettled(store.db, at)
      ensures ok && TrafficSettled(old(store.db), at) && PluginsSettled(old(store.db), at, runtimes) ==> Settled(store.db, at, runtimes)
      ensures StatusesPossible(old(store.db), at) && AllYes(accepts) ==> ok && StatusesSettled(store.db, at, runtimes)
      ensures Settled(old(store.db), at, runtimes) ==> ok && store.db == old(store.db) && world.statusLog == old(world.statusLog)
    {
      var refreshed := UpdateStatuses(at, runtimes);
      ghost var before := store.db;
      var queued := QueueStatuses(accepts);
      ok := refreshed && queued;
      EndsSettled(before, store.db, at, runtimes);
    }

    // ---- Execute ----

    // A policy.reconcile command. A running plugin that lacks a capability comes first, then an
    // older or conflicting snapshot; neither changes anything. Otherwise the snapshot is
    // stored, and success means that it is in force everywhere. It is reached where the
    // plugins run and the evaluation has what it needs.
    method Execute(generation: u64, snapshot: seq<Policy>, at: Instant, runtimes: Runtimes,
                   traffic: Answers, services: Answers, blocks: Answers, statuses: Answers) returns (outcome: Outcome)
      requires Valid() && DistinctIds(snapshot)
      requires Reconciled(store.db, generation, snapshot).Ok? ==>
                NoReturningPair(Adopted(world, generation, snapshot), at)
      modifies this, store`db
      ensures Valid() && old(acts) <= acts
      ensures outcome == Unsupported <==> SomeLacks(snapshot, runtimes)
      ensures outcome == Conflict <==> !SomeLacks(snapshot, runtimes) && !IsTaken(old(store.db), generation, snapshot)
      ensures outcome == Unsupported || outcome == Conflict ==> store.db == old(store.db)
      ensures outcome == Applied || outcome == Unavailable ==>
                store.db.generation == generation && store.db.snapshot == Some(snapshot) && SamePolicies(snapshot, store.db.policies)
      ensures outcome == Applied ==>
                Settled(store.db, at, runtimes) && forall k :: k in BoundKeys(snapshot) ==> k.plugin in runtimes
      ensures !SomeLacks(snapshot, runtimes) && IsTaken(old(store.db), generation, snapshot)
              && (forall k :: k in BoundKeys(snapshot) ==> k.plugin in runtimes)
              && Evaluable(Reconciled(old(store.db), generation, snapshot).value, at, runtimes)
              && AllYes(traffic) && AllYes(services) && AllYes(blocks) && AllYes(statuses) ==>
                outcome == Applied
    {
      var missing, lacking := ValidateCapabilities(snapshot, runtimes);
      if lacking { return Unsupported; }
      IsInForce();
      ghost var before := store.db;
      var reconciled := store.Reconcile(generation, snapshot);
      if reconciled.Err? { return Conflict; }
      TakeReconcile(generation, snapshot);
      IsInForce();
      if missing { return Unavailable; }
      var ok, _ := ApplyAndPublish(at, runtimes, traffic, services, blocks, statuses);
      return if ok then Applied else Unavailable;
    }

    lemma IsInForce()
      requires Running()
      ensures PolicyTheorems.SnapshotInForce(world.db)
    {
      TraceIsLegal(trace, acts);
      PolicyTheorems.StoredSnapshotIsInForce(trace[0], acts);
    }

    ghost method TakeReconcile(generation: u64, snapshot: seq<Policy>)
      requires Running() && DistinctIds(snapshot) && Reconciled(world.db, generation, snapshot).Ok?
      modifies this`acts, this`trace, this`world
      ensures Running() && old(acts) <= acts && world == Adopted(old(world), generation, snapshot)
      ensures world.db.generation == generation
    {
      Take(Reconcile(generation, snapshot));
    }
  }

  // Queueing statuses leaves what was settled before.
  lemma EndsSettled(before: Db, end: Db, at: Instant, runtimes: Runtimes)
    requires end == before.(statuses := end.statuses) && SameEvents(before.statuses, end.statuses)
    ensures Kept(before, end) && SameRecords(before, end)
    ensures TrafficSettled(before, at) ==> TrafficSettled(end, at)
    ensures PluginsSettled(before, at, runtimes) ==> PluginsSettled(end, at, runtimes)
    ensures StatusesCurrent(before, at, runtimes) && (forall id :: id in end.statuses ==> end.statuses[id].queued) ==>
              StatusesSettled(end, at, runtimes)
  {
    StatusesAreApartFromPlugins(before, end, at, runtimes);
    if StatusesCurrent(before, at, runtimes) {
      QueueingKeepsCurrent(before, end, at, runtimes);
    }
  }

  lemma AsAskedFrom(start: Db, before: Db, after: Db, made: seq<Call>, runtimes: Runtimes)
    requires before.generation == start.generation && SameAcknowledged(start, before)
    ensures AskedWhatWasDue(before, after, made, runtimes) ==> AskedWhatWasDue(start, after, made, runtimes)
    ensures AskedWhereServed(before, after, made, runtimes) ==> AskedWhereServed(start, after, made, runtimes)
  {
    if AskedWhatWasDue(before, after, made, runtimes) { AskedDependsOn(start, before, after, after, made, runtimes); }
    if AskedWhereServed(before, after, made, runtimes) { WhereServedDependsOn(start, before, after, after, made, runtimes); }
  }

  // What each phase of an evaluation achieves, whatever becomes of the others: traffic is
  // queued, what can be served is asked for, and statuses are written and queued.
  ghost predicate EachPhaseIsDone(start: Db, end: Db, at: Instant, runtimes: Runtimes, made: seq<Call>, traffic: Answers, statuses: Answers) {
    && (PeriodsKnown(start, at) && AllYes(traffic) ==> TrafficSettled(end, at))
    && (IsDesirable(start, at) ==> AskedWhereServed(start, end, made, runtimes))
    && (StatusesPossible(start, at) && AllYes(statuses) ==> StatusesSettled(end, at, runtimes))
  }

  // From phase to phase of an evaluation.
  lemma PhasesTogether(start: Db, queued: Db, applied: Db, end: Db, at: Instant, runtimes: Runtimes, made: seq<Call>,
                       traffic: Answers, statuses: Answers)
    requires Kept(start, queued) && SameRecords(start, queued) && Kept(queued, applied) && Kept(applied, end) && SameRecords(applied, end)
    requires PeriodsKnown(start, at) && AllYes(traffic) ==> TrafficSettled(end, at)
    requires IsDesirable(queued, at) ==> AskedWhereServed(queued, applied, made, runtimes)
    requires StatusesPossible(applied, at) && AllYes(statuses) ==> StatusesSettled(end, at, runtimes)
    ensures Kept(start, end) && EachPhaseIsDone(start, end, at, runtimes, made, traffic, statuses)
    ensures Evaluable(start, at, runtimes) ==> Evaluable(queued, at, runtimes) && StatusesPossible(applied, at)
    ensures AskedWhatWasDue(queued, applied, made, runtimes) ==> AskedWhatWasDue(start, end, made, runtimes)
  {
    KeptOn(start, queued, applied);
    KeptOn(start, applied, end);
    if Evaluable(start, at, runtimes) { StaysEvaluable(start, queued, at, runtimes); }
    if AskedWhatWasDue(queued, applied, made, runtimes) { AskedDependsOn(start, queued, applied, end, made, runtimes); }
    if IsDesirable(start, at) {
      StaysDesirable(start, queued, at);
      WhereServedDependsOn(start, queued, applied, end, made, runtimes);
    }
    if StatusesPossible(start, at) { StatusesStayPossible(start, applied, at); }
  }

  datatype Outcome = Applied | Unsupported | Conflict | Unavailable

  // The state after a snapshot has been stored.
  ghost function Adopted(w: World, generation: u64, snapshot: seq<Policy>): World
    requires Reconciled(w.db, generation, snapshot).Ok?
  {
    Forgotten(w).(db := Reconciled(w.db, generation, snapshot).value)
  }

  predicate Lacks(policies: seq<Policy>, runtimes: Runtimes, i: nat, j: nat)
    requires i < |policies| && j < |policies[i].bindings|
  {
    var plugin := policies[i].bindings[j].plugin;
    plugin in runtimes && !Capable(policies[i], runtimes[plugin])
  }

  ghost predicate SomeLacks(policies: seq<Policy>, runtimes: Runtimes) {
    exists i, j :: 0 <= i < |policies| && 0 <= j < |policies[i].bindings| && Lacks(policies, runtimes, i, j)
  }

  // validateCapabilities: whether a plugin that runs lacks a capability, and otherwise
  // whether one does not run.
  method ValidateCapabilities(policies: seq<Policy>, runtimes: Runtimes) returns (missing: bool, lacking: bool)
    ensures lacking <==> SomeLacks(policies, runtimes)
    ensures !lacking ==> (missing <==> exists k :: k in BoundKeys(policies) && k.plugin !in runtimes)
  {
    missing := false;
    for i := 0 to |policies|
      invariant forall a, b :: 0 <= a < i && 0 <= b < |policies[a].bindings| ==> !Lacks(policies, runtimes, a, b)
      invariant missing <==> exists k :: k in BoundKeys(policies[..i]) && k.plugin !in runtimes
    {
      var p := policies[i];
      BoundKeysOfMore(policies, i);
      for j := 0 to |p.bindings|
        invariant forall b :: 0 <= b < j ==> !Lacks(policies, runtimes, i, b)
        invariant missing <==> exists k :: k in BoundKeys(policies[..i]) + KeysOf(p, j) && k.plugin !in runtimes
      {
        var plugin := p.bindings[j].plugin;
        assert KeysOf(p, j + 1) == KeysOf(p, j) + {KeyOf(p, p.bindings[j])};
        if plugin !in runtimes {
          missing := true;
          assert KeyOf(p, p.bindings[j]).plugin !in runtimes;
        } else if !Capable(p, runtimes[plugin]) {
          assert Lacks(policies, runtimes, i, j);
          return missing, true;
        }
      }
    }
    assert policies[..|policies|] == policies;
    return missing, false;
  }

  // Everything that was handed out is done.
  ghost predicate Handed(w: World, runtimes: Runtimes) {
    (forall s :: s in w.todo ==> ServiceDone(w.db, s, runtimes)) && (forall b :: b in w.todoBlocks ==> BlocksDone(w.db, b, runtimes))
  }

  // The block loop leaves the services as they are.
  lemma StillDone(w: World, w': World, services: seq<DesiredService>, runtimes: Runtimes)
    requires InCycle(w, w') && w'.db.services == w.db.services && w'.db.appliedServices == w.db.appliedServices
    requires forall s :: s in services ==> ServiceDone(w.db, s, runtimes)
    ensures forall s :: s in services ==> ServiceDone(w'.db, s, runtimes)
  {
  }

  // What is handed out for an orphan says so.
  lemma OrphansAreHandedAsSuch(w: World)
    requires CycleOk(w) && TodoOk(w) && w.cycle.Some? && w.db.generation > 0 && Covers(w)
    ensures forall k :: k in w.db.orphans ==> exists s :: s in w.todo && s.key == k && s.row.payload.orphan
  {
    forall k | k in w.db.orphans
      ensures exists s :: s in w.todo && s.key == k && s.row.payload.orphan
    {
      assert Meets(w.db.services, Want(k, OrphanState(w.db)));
      var s :| s in w.todo && s.key == k;
    }
  }

  lemma CoversStays(w: World, w': World)
    requires Covers(w) && InCycle(w, w')
    ensures Covers(w')
  {
    assert BlockPlugins(w'.db) == BlockPlugins(w.db);
  }

  // Then the plugins are settled.
  lemma AllDone(w: World, at: Instant, runtimes: Runtimes)
    requires Inv(w) && w.cycle == Some(at) && w.db.generation > 0 && Covers(w) && Handed(w, runtimes)
    ensures PluginsSettled(w.db, at, runtimes)
  {
    OrphansAreHandedAsSuch(w);
    assert w.db.orphans == {};
    forall k | k in BoundKeys(w.db.policies)
      ensures ServiceSettled(w.db, k, runtimes)
    {
      var i, j :| 0 <= i < |w.db.policies| && 0 <= j < |w.db.policies[i].bindings|
                  && k == KeyOf(w.db.policies[i], w.db.policies[i].bindings[j]);
      assert BindingIsDesired(w.db, i, j, at.now);
      var s :| s in w.todo && s.key == k;
      assert ServiceDone(w.db, s, runtimes);
    }
    forall p | p in BlockPlugins(w.db)
      ensures BlocksSettled(w.db, p, runtimes)
    {
      assert BlocksAreDesired(w.db, p, at.now);
      var b :| b in w.todoBlocks && b.key == p;
      assert BlocksDone(w.db, b, runtimes);
    }
  }

  lemma NoneListed(statuses: map<Id, StatusState>, list: seq<StatusEvent>)
    requires forall e :: e in list <==> exists id :: id in statuses && !statuses[id].queued && statuses[id].event == e
    ensures (forall id :: id in statuses ==> statuses[id].queued) ==> list == []
  {
    if list != [] {
      assert list[0] in list;
    }
  }

  ghost predicate AllIdle(db: Db, services: seq<DesiredService>, blocks: seq<DesiredBlocks>, runtimes: Runtimes) {
    (forall s :: s in services ==> ServiceIdle(db, s, runtimes)) && (forall b :: b in blocks ==> BlocksDone(db, b, runtimes))
  }

  // From a settled database, Desired succeeds, and no plugin needs a call.
  lemma ListedIsIdle(db: Db, at: Instant, runtimes: Runtimes, orphanOrder: seq<ServiceKey>, pluginOrder: seq<Id>,
                     services: seq<DesiredService>, blocks: seq<DesiredBlocks>)
    requires Settled(db, at, runtimes) && BindingsOk(db) && HasLedgers(db)
    requires (forall k :: k in orphanOrder ==> k in db.orphans) && (forall p :: p in pluginOrder ==> p in BlockPlugins(db))
    ensures DesiredTx(db, at, orphanOrder, pluginOrder) == Ok(db)
    ensures db.generation > 0 && WellListed(db, at, orphanOrder, pluginOrder, services, blocks) ==>
              AllIdle(db, services, blocks, runtimes)
  {
    SettledIsQuiescent(db, at, runtimes, orphanOrder, pluginOrder);
    if db.generation > 0 && WellListed(db, at, orphanOrder, pluginOrder, services, blocks) {
      DesiredIsIdle(db, at, orphanOrder, pluginOrder);
      ServicesAreTodo(db, at.now, orphanOrder);
      BlocksAreTodo(db, at.now, pluginOrder);
      var wants, blockWants := ServiceWants(db, at.now, orphanOrder), BlockWants(db, at.now, pluginOrder);
      BlockWantsAre(db, at.now, pluginOrder);
      forall s | s in services
        ensures ServiceIdle(db, s, runtimes)
      {
        assert s in Todo(db.(services := db.services), wants);
        var want :| want in wants && want.key in db.services.rows && s == Entry(want.key, db.services.rows[want.key]);
        assert ServiceSettled(db, want.key, runtimes);
      }
      forall b | b in blocks
        ensures BlocksDone(db, b, runtimes)
      {
        assert b in TodoBlocks(db.(blocks := db.blocks), pluginOrder);
        assert BlocksSettled(db, b.key, runtimes);
      }
    }
  }

  lemma ResultIsIdle(before: Db, at: Instant, runtimes: Runtimes, ok: bool, after: Db,
                     services: seq<DesiredService>, blocks: seq<DesiredBlocks>,
                     orphanOrder: seq<ServiceKey>, pluginOrder: seq<Id>)
    requires Settled(before, at, runtimes) && BindingsOk(before)
    requires DesiredResult(before, at, ok, after, services, blocks, orphanOrder, pluginOrder)
    ensures ok && after == before && AllIdle(after, services, blocks, runtimes)
  {
    RefreshIsIdle(before, at);
    ListedIsIdle(before, at, runtimes, orphanOrder, pluginOrder, services, blocks);
  }

  // What Desired hands out is recorded, and is for what is bound, an orphan or blocked.
  ghost predicate IsListed(db: Db, services: seq<DesiredService>, blocks: seq<DesiredBlocks>) {
    && (forall s :: s in services ==> s.key in db.services.rows && s.key in BoundKeys(db.policies) + db.orphans)
    && (forall b :: b in blocks ==> b.key in db.blocks.rows && b.key in BlockPlugins(db))
  }

  // It can be delivered, too.
  ghost predicate Servable(db: Db, services: seq<DesiredService>, blocks: seq<DesiredBlocks>, runtimes: Runtimes) {
    && IsListed(db, services, blocks)
    && (forall s :: s in services ==> CanServe(db, s, runtimes))
    && (forall b :: b in blocks ==> CanBlock(b.key, runtimes))
  }

  lemma WellListedIsListed(db: Db, at: Instant, after: Db, services: seq<DesiredService>, blocks: seq<DesiredBlocks>,
                           orphanOrder: seq<ServiceKey>, pluginOrder: seq<Id>)
    requires BindingsOk(db) && HasLedgers(db) && db.generation > 0
    requires WellListed(db, at, orphanOrder, pluginOrder, services, blocks)
    requires DesiredTx(db, at, orphanOrder, pluginOrder) == Ok(after)
    ensures IsListed(after, services, blocks)
  {
    var wants, blockWants := ServiceWants(db, at.now, orphanOrder), BlockWants(db, at.now, pluginOrder);
    WantsAreConsistent(db, at.now, orphanOrder);
    EnsureAllMeets(db.services, wants);
    forall s | s in services
      ensures s.key in after.services.rows && s.key in BoundKeys(after.policies) + after.orphans
    {
      RecordedIsCurrent(db.services, wants, s);
    }
    BlockWantsAre(db, at.now, pluginOrder);
    forall b | b in blocks
      ensures b.key in after.blocks.rows && b.key in BlockPlugins(after)
    {
      RecordedIsCurrent(db.blocks, blockWants, b);
      assert b.key in BlockPlugins(db);
    }
  }

  lemma ListedIsServable(db: Db, at: Instant, runtimes: Runtimes, after: Db, services: seq<DesiredService>, blocks: seq<DesiredBlocks>,
                         orphanOrder: seq<ServiceKey>, pluginOrder: seq<Id>)
    requires BindingsOk(db) && HasLedgers(db) && db.generation > 0 && PluginsServe(db, runtimes)
    requires WellListed(db, at, orphanOrder, pluginOrder, services, blocks)
    requires DesiredTx(db, at, orphanOrder, pluginOrder) == Ok(after)
    ensures Servable(after, services, blocks, runtimes)
  {
    var wants, blockWants := ServiceWants(db, at.now, orphanOrder), BlockWants(db, at.now, pluginOrder);
    WellListedIsListed(db, at, after, services, blocks, orphanOrder, pluginOrder);
    WantsAreConsistent(db, at.now, orphanOrder);
    forall s | s in services
      ensures CanServe(after, s, runtimes)
    {
      RecordedIsCurrent(db.services, wants, s);
      var want :| want in wants && want.key in after.services.rows && s == Entry(want.key, after.services.rows[want.key]);
      EnsureAllMeets(db.services, wants);
      WantIsServed(db, at.now, orphanOrder, want, s.row, runtimes);
    }
    BlockWantsAre(db, at.now, pluginOrder);
    forall b | b in blocks
      ensures CanBlock(b.key, runtimes)
    {
      RecordedIsCurrent(db.blocks, blockWants, b);
      assert b.key in BlockPlugins(db);
    }
  }

  lemma ResultIsListed(before: Db, at: Instant, ok: bool, after: Db, services: seq<DesiredService>, blocks: seq<DesiredBlocks>,
                       orphanOrder: seq<ServiceKey>, pluginOrder: seq<Id>)
    requires BindingsOk(before) && IsDesirable(before, at)
    requires DesiredResult(before, at, ok, after, services, blocks, orphanOrder, pluginOrder)
    ensures ok && IsListed(after, services, blocks)
  {
    RefreshSucceeds(before, at);
    var clean := Refreshed(before, at).value;
    RefreshUpToKeeps(before, at, |before.policies|);
    SameBindings(before.policies, clean.policies);
    StaysDesirable(before, clean, at);
    DesiredSucceeds(clean, at, orphanOrder, pluginOrder);
    if clean.generation > 0 {
      WellListedIsListed(clean, at, after, services, blocks, orphanOrder, pluginOrder);
    }
  }

  lemma ResultIsServable(before: Db, at: Instant, runtimes: Runtimes, ok: bool, after: Db,
                         services: seq<DesiredService>, blocks: seq<DesiredBlocks>,
                         orphanOrder: seq<ServiceKey>, pluginOrder: seq<Id>)
    requires BindingsOk(before) && Evaluable(before, at, runtimes)
    requires DesiredResult(before, at, ok, after, services, blocks, orphanOrder, pluginOrder)
    ensures ok && Servable(after, services, blocks, runtimes)
  {
    ResultIsListed(before, at, ok, after, services, blocks, orphanOrder, pluginOrder);
    RefreshSucceeds(before, at);
    var clean := Refreshed(before, at).value;
    RefreshUpToKeeps(before, at, |before.policies|);
    SameBindings(before.policies, clean.policies);
    StaysEvaluable(before, clean, at, runtimes);
    if clean.generation > 0 {
      ListedIsServable(clean, at, runtimes, after, services, blocks, orphanOrder, pluginOrder);
    }
  }

  // Whatever fails, what is due and can be served is asked for.
  lemma DueIsAskedWhereServed(before: Db, w: World, w': World, at: Instant, runtimes: Runtimes,
                              services: seq<DesiredService>, blocks: seq<DesiredBlocks>, made: seq<Call>)
    requires CycleOk(w) && TodoOk(w) && OrphanRowsOk(w.db) && w.cycle == Some(at) && w.db.generation > 0
    requires CycleOk(w') && TodoOk(w') && InCycle(w, w')
    requires Lists(w, services, blocks) && Covers(w) && IsListed(w.db, services, blocks)
    requires AskedWhatIsDue(w.db, services, blocks, made, runtimes)
    requires SameAcknowledged(before, w.db) && before.generation == w.db.generation
    ensures AskedWhereServed(before, w'.db, made, runtimes)
  {
    forall k | k in BoundKeys(w'.db.policies)
      ensures k in w'.db.services.rows
      ensures var s := Entry(k, w'.db.services.rows[k]);
              s in AskedServices(made) <==>
                CanServe(w'.db, s, runtimes) && NeedsApply(before.appliedServices, k, s.row, runtimes[k.plugin].instance)
    {
      BoundIsRecorded(w', at, k);
      var s :| s in w.todo && s.key == k;
    }
    forall k | k in before.orphans && OrphanIsServed(k, runtimes)
      ensures exists s :: s in AskedServices(made) && s.key == k && !s.row.payload.enabled
    {
      OrphansAreHandedAsSuch(w);
      var s :| s in w.todo && s.key == k && s.row.payload.orphan;
      assert Meets(w.db.services, Want(k, OrphanState(w.db)));
      OrphanNeedsApply(w, s, runtimes[k.plugin].instance);
    }
    assert BlockPlugins(w'.db) == BlockPlugins(w.db);
    forall p | p in BlockPlugins(w'.db)
      ensures p in w'.db.blocks.rows
      ensures var row := w'.db.blocks.rows[p];
              Entry(p, row) in AskedBlocks(made) <==>
                CanBlock(p, runtimes) && NeedsApply(before.appliedBlocks, p, row, runtimes[p].instance)
    {
      assert BlocksAreDesired(w'.db, p, at.now);
      var b :| b in w.todoBlocks && b.key == p;
    }
  }

  lemma BoundIsRecorded(w: World, at: Instant, k: ServiceKey)
    requires CycleOk(w) && w.cycle == Some(at) && w.db.generation > 0 && k in BoundKeys(w.db.policies)
    ensures k in w.db.services.rows
  {
    var i, j :| 0 <= i < |w.db.policies| && 0 <= j < |w.db.policies[i].bindings|
                && k == KeyOf(w.db.policies[i], w.db.policies[i].bindings[j]);
    assert BindingIsDesired(w.db, i, j, at.now);
  }

  // In an evaluation that went without error, what was due before it was asked for: the records
  // of what is bound, ...
  lemma BoundWereAsked(before: Db, w: World, w': World, at: Instant, runtimes: Runtimes,
                       services: seq<DesiredService>, blocks: seq<DesiredBlocks>, made: seq<Call>, k: ServiceKey)
    requires TodoOk(w') && InCycle(w, w') && w'.db.generation > 0
    requires Lists(w, services, blocks) && Covers(w) && Servable(w.db, services, blocks, runtimes)
    requires AskedWhatIsDue(w.db, services, blocks, made, runtimes) && PluginsSettled(w'.db, at, runtimes)
    requires SameAcknowledged(before, w.db) && k in BoundKeys(w'.db.policies)
    ensures k in w'.db.services.rows && k.plugin in runtimes
    ensures Entry(k, w'.db.services.rows[k]) in AskedServices(made) <==>
              NeedsApply(before.appliedServices, k, w'.db.services.rows[k], runtimes[k.plugin].instance)
  {
    assert ServiceSettled(w'.db, k, runtimes);
    var s :| s in w.todo && s.key == k;
  }

  // ... those of the orphans, ...
  lemma OrphansWereAsked(w: World, runtimes: Runtimes, services: seq<DesiredService>, blocks: seq<DesiredBlocks>, made: seq<Call>,
                         k: ServiceKey)
    requires CycleOk(w) && TodoOk(w) && OrphanRowsOk(w.db) && w.cycle.Some? && w.db.generation > 0
    requires Lists(w, services, blocks) && Covers(w) && Servable(w.db, services, blocks, runtimes)
    requires AskedWhatIsDue(w.db, services, blocks, made, runtimes) && k in w.db.orphans
    ensures exists s :: s in AskedServices(made) && s.key == k && !s.row.payload.enabled
  {
    OrphansAreHandedAsSuch(w);
    var s :| s in w.todo && s.key == k && s.row.payload.orphan;
    assert Meets(w.db.services, Want(k, OrphanState(w.db)));
    OrphanNeedsApply(w, s, runtimes[k.plugin].instance);
  }

  // ... and the block sets.
  lemma BlocksWereAskedFor(before: Db, w: World, w': World, at: Instant, runtimes: Runtimes,
                           services: seq<DesiredService>, blocks: seq<DesiredBlocks>, made: seq<Call>, p: Id)
    requires TodoOk(w') && InCycle(w, w') && w'.db.generation > 0
    requires Lists(w, services, blocks) && Covers(w) && Servable(w.db, services, blocks, runtimes)
    requires AskedWhatIsDue(w.db, services, blocks, made, runtimes) && PluginsSettled(w'.db, at, runtimes)
    requires SameAcknowledged(before, w.db) && p in BlockPlugins(w'.db)
    ensures p in w'.db.blocks.rows && p in runtimes
    ensures Entry(p, w'.db.blocks.rows[p]) in AskedBlocks(made) <==>
              NeedsApply(before.appliedBlocks, p, w'.db.blocks.rows[p], runtimes[p].instance)
  {
    assert BlocksSettled(w'.db, p, runtimes);
    assert BlockPlugins(w'.db) == BlockPlugins(w.db);
    var b :| b in w.todoBlocks && b.key == p;
  }

  lemma DueWasAsked(before: Db, w: World, w': World, at: Instant, runtimes: Runtimes,
                    services: seq<DesiredService>, blocks: seq<DesiredBlocks>, made: seq<Call>)
    requires CycleOk(w) && TodoOk(w) && OrphanRowsOk(w.db) && TodoOk(w') && w.cycle == Some(at) && w.db.generation > 0 && InCycle(w, w')
    requires Lists(w, services, blocks) && Covers(w) && Servable(w.db, services, blocks, runtimes)
    requires AskedWhatIsDue(w.db, services, blocks, made, runtimes) && EachOnce(made) && PluginsSettled(w'.db, at, runtimes)
    requires SameAcknowledged(before, w.db) && before.generation == w.db.generation
    ensures AskedWhatWasDue(before, w'.db, made, runtimes)
  {
    forall k | k in BoundKeys(w'.db.policies)
      ensures k in w'.db.services.rows && k.plugin in runtimes
      ensures Entry(k, w'.db.services.rows[k]) in AskedServices(made) <==>
                NeedsApply(before.appliedServices, k, w'.db.services.rows[k], runtimes[k.plugin].instance)
    {
      BoundWereAsked(before, w, w', at, runtimes, services, blocks, made, k);
    }
    forall k | k in before.orphans
      ensures exists s :: s in AskedServices(made) && s.key == k && !s.row.payload.enabled
    {
      OrphansWereAsked(w, runtimes, services, blocks, made, k);
    }
    forall p | p in BlockPlugins(w'.db)
      ensures p in w'.db.blocks.rows && p in runtimes
      ensures Entry(p, w'.db.blocks.rows[p]) in AskedBlocks(made) <==>
                NeedsApply(before.appliedBlocks, p, w'.db.blocks.rows[p], runtimes[p].instance)
    {
      BlocksWereAskedFor(before, w, w', at, runtimes, services, blocks, made, p);
    }
    assert BlockPlugins(w'.db) == BlockPlugins(w.db);
  }

  // ---- What Desired returns ----

  ghost predicate Lists(w: World, services: seq<DesiredService>, blocks: seq<DesiredBlocks>) {
    (forall s :: s in services <==> s in w.todo) && (forall b :: b in blocks <==> b in w.todoBlocks)
  }

  // Every service that is bound or an orphan is handed out, and every plugin's block set.
  ghost predicate Covers(w: World) {
    && (forall k :: k in BoundKeys(w.db.policies) || k in w.db.orphans ==> exists s :: s in w.todo && s.key == k)
    && (forall p :: p in BlockPlugins(w.db) ==> exists b :: b in w.todoBlocks && b.key == p)
  }

  lemma ServicesAreTodo(db: Db, now: int, order: seq<ServiceKey>)
    requires HasLedgers(db) && BindingsOk(db) && Enumerates(order, db.orphans)
    requires EnsureAll(db.services, ServiceWants(db, now, order)).Ok?
    ensures var wants := ServiceWants(db, now, order);
            var todo := Todo(db.(services := EnsureAll(db.services, wants).value), wants);
            && (forall s :: s in Recorded(db.services, wants) <==> s in todo)
            && forall k :: k in BoundKeys(db.policies) || k in db.orphans ==> exists s :: s in todo && s.key == k
  {
    var wants := ServiceWants(db, now, order);
    var t := EnsureAll(db.services, wants).value;
    var todo := Todo(db.(services := t), wants);
    ServiceWantsAre(db, now, order);
    EnsureAllMeets(db.services, wants);
    forall s
      ensures s in Recorded(db.services, wants) <==> s in todo
    {
      RecordedIsCurrent(db.services, wants, s);
    }
    forall k | k in BoundKeys(db.policies) || k in db.orphans
      ensures exists s :: s in todo && s.key == k
    {
      var want := WantFor(db, now, wants, k);
      assert Meets(t, want);
      assert Entry(k, t.rows[k]) in todo;
    }
  }

  lemma WantFor(db: Db, now: int, wants: seq<ServiceWant>, k: ServiceKey) returns (want: ServiceWant)
    requires HasLedgers(db) && WantsAre(db, now, wants) && (k in BoundKeys(db.policies) || k in db.orphans)
    ensures want in wants && want.key == k
  {
    if k in db.orphans {
      want := Want(k, OrphanState(db));
    } else {
      var i, j :| 0 <= i < |db.policies| && 0 <= j < |db.policies[i].bindings| && k == KeyOf(db.policies[i], db.policies[i].bindings[j]);
      want := Want(k, BoundState(db, db.policies[i], now));
      assert WantedAt(db, now, want, i, j);
    }
  }

  lemma BlocksAreTodo(db: Db, now: int, order: seq<Id>)
    requires Enumerates(order, BlockPlugins(db)) && EnsureAll(db.blocks, BlockWants(db, now, order)).Ok?
    ensures var wants := BlockWants(db, now, order);
            var after := db.(blocks := EnsureAll(db.blocks, wants).value);
            && (forall b :: b in Recorded(db.blocks, wants) <==> b in TodoBlocks(after, order))
            && forall p :: p in BlockPlugins(after) ==> exists b :: b in TodoBlocks(after, order) && b.key == p
  {
    var wants := BlockWants(db, now, order);
    var after := db.(blocks := EnsureAll(db.blocks, wants).value);
    BlockWantsAre(db, now, order);
    assert Consistent(wants);
    EnsureAllMeets(db.blocks, wants);
    forall p | p in order
      ensures p in after.blocks.rows && Want(p, BlockState(db.generation, PluginBlocks(db, p, now))) in wants
    {
      assert Meets(after.blocks, Want(p, BlockState(db.generation, PluginBlocks(db, p, now))));
    }
    forall b
      ensures b in Recorded(db.blocks, wants) <==> b in TodoBlocks(after, order)
    {
      RecordedIsCurrent(db.blocks, wants, b);
    }
    forall p | p in BlockPlugins(after)
      ensures exists b :: b in TodoBlocks(after, order) && b.key == p
    {
      if p in after.blocks.rows {
        EnsureAllOrigin(db.blocks, wants, p);
      }
      assert p in BlockPlugins(db);
      assert Entry(p, after.blocks.rows[p]) in TodoBlocks(after, order);
    }
  }

  lemma ListsAreTodo(w: World, at: Instant, orphanOrder: seq<ServiceKey>, pluginOrder: seq<Id>,
                     services: seq<DesiredService>, blocks: seq<DesiredBlocks>)
    requires BindingsOk(w.db) && IsFresh(w.db, at) && HasLedgers(w.db) && w.db.generation > 0
    requires DesiredTx(w.db, at, orphanOrder, pluginOrder).Ok?
    requires WellListed(w.db, at, orphanOrder, pluginOrder, services, blocks)
    ensures var v := Distributed(w, at, orphanOrder, pluginOrder); Lists(v, services, blocks) && Covers(v)
  {
    ServicesAreTodo(w.db, at.now, orphanOrder);
    BlocksAreTodo(w.db, at.now, pluginOrder);
    var v := Distributed(w, at, orphanOrder, pluginOrder);
    var wants, blockWants := ServiceWants(w.db, at.now, orphanOrder), BlockWants(w.db, at.now, pluginOrder);
    assert v.todo == Todo(w.db.(services := v.db.services), wants);
    assert v.todoBlocks == TodoBlocks(w.db.(blocks := v.db.blocks), pluginOrder);
    assert BlockPlugins(v.db) == BlockPlugins(w.db.(blocks := v.db.blocks));
  }

  lemma InCycleIsFresh(w: World, w': World, at: Instant)
    requires InCycle(w, w')
    ensures TrafficSettled(w.db, at) ==> TrafficSettled(w'.db, at)
    ensures NoReturningPair(w, at) ==> NoReturningPair(w', at)
  {
    if TrafficSettled(w.db, at) {
      FreshDependsOn(w.db, w'.db, at);
    }
  }

  lemma InCycleKeeps(start: Db, w: World, w': World)
    requires Kept(start, w.db) && InCycle(w, w')
    ensures Kept(start, w'.db)
  {
  }

  lemma InCycleOn(a: World, b: World, c: World)
    requires InCycle(a, b) && InCycle(b, c)
    ensures InCycle(a, c)
  {
  }

  // ---- What one iteration does to the rest ----

  // Nothing but records of what was applied changes while a cycle hands out its list.
  ghost predicate InCycle(w: World, w': World) {
    && w'.cycle == w.cycle && w'.todo == w.todo && w'.todoBlocks == w.todoBlocks
    && w'.log == w.log && w'.statusLog == w.statusLog && w'.charged == w.charged
    && w'.db == w.db.(appliedServices := w'.db.appliedServices, appliedBlocks := w'.db.appliedBlocks,
                      orphans := w'.db.orphans, services := w'.db.services)
    && w'.db.orphans <= w.db.orphans
  }

  // A service that needed no error: acknowledged by the running instance, or an orphan that
  // is one no more.
  ghost predicate ServiceDone(db: Db, s: DesiredService, runtimes: Runtimes) {
    && CanServe(db, s, runtimes)
    && if s.row.payload.orphan then s.key !in db.orphans
       else !NeedsApply(db.appliedServices, s.key, s.row, runtimes[s.key.plugin].instance)
  }

  ghost predicate ServiceIdle(db: Db, s: DesiredService, runtimes: Runtimes) {
    CanServe(db, s, runtimes) && !NeedsApply(db.appliedServices, s.key, s.row, runtimes[s.key.plugin].instance)
  }

  ghost predicate BlocksDone(db: Db, b: DesiredBlocks, runtimes: Runtimes) {
    CanBlock(b.key, runtimes) && !NeedsApply(db.appliedBlocks, b.key, b.row, runtimes[b.key].instance)
  }

  // What one iteration does: it is without error exactly if the plugin can serve the service
  // and, where the record is due, acknowledges the call for a record that is still there.
  ghost predicate ServiceGoesOn(w: World, w': World, s: DesiredService, runtimes: Runtimes, acknowledged: bool, ok: bool) {
    && InCycle(w, w') && w'.db.appliedBlocks == w.db.appliedBlocks
    && (ok ==> ServiceDone(w'.db, s, runtimes) && !ServiceIsDue(w'.db, s, runtimes))
    && (forall d :: d in w.todo && ServiceDone(w.db, d, runtimes) ==> ServiceDone(w'.db, d, runtimes))
    && OthersStay(w, w'.db, s, runtimes)
    && if ServiceIsDue(w.db, s, runtimes) then ok == (acknowledged && s.key in w.db.services.rows)
       else ok == CanServe(w.db, s, runtimes) && w' == w
  }

  ghost predicate BlocksGoOn(w: World, w': World, b: DesiredBlocks, runtimes: Runtimes, acknowledged: bool, ok: bool) {
    && InCycle(w, w') && w'.db.services == w.db.services && w'.db.appliedServices == w.db.appliedServices
    && (ok ==> BlocksDone(w'.db, b, runtimes))
    && (forall d :: d in w.todoBlocks && BlocksDone(w.db, d, runtimes) ==> BlocksDone(w'.db, d, runtimes))
    && OtherBlocksStay(w, w'.db, b, runtimes)
    && if BlocksAreDue(w.db, b, runtimes) then ok == (acknowledged && b.key in w.db.blocks.rows)
       else ok == CanBlock(b.key, runtimes) && w' == w
  }

  // Everything listed can be served and every call is answered.
  ghost predicate ServicesAnswered(w: World, list: seq<DesiredService>, runtimes: Runtimes, acknowledges: Answers) {
    && (forall s :: s in list ==> CanServe(w.db, s, runtimes)) && AllYes(acknowledges)
    && DueAreRecords(w.db, list, runtimes)
  }

  ghost predicate BlocksAnswered(w: World, list: seq<DesiredBlocks>, runtimes: Runtimes, acknowledges: Answers) {
    && (forall b :: b in list ==> CanBlock(b.key, runtimes) && b.key in w.db.blocks.rows) && AllYes(acknowledges)
  }

  // The loops, after i iterations.
  ghost predicate ServicesSoFar(start: World, w: World, list: seq<DesiredService>, i: nat, made: seq<Call>, runtimes: Runtimes,
                                acknowledges: Answers, ok: bool)
    requires i <= |list|
  {
    && InCycle(start, w) && w.db.appliedBlocks == start.db.appliedBlocks
    && (ok ==> forall j :: 0 <= j < i ==> ServiceDone(w.db, list[j], runtimes))
    && ((forall s :: s in list ==> ServiceIdle(start.db, s, runtimes)) ==> ok && w == start && made == [])
    && AskedSoFar(start.db, w.db, w.todo, list[..i], made, runtimes)
    && (ServicesAnswered(start, list, runtimes, acknowledges) ==>
          ok && AskedOnce(w.db, made, runtimes) && DueAreRecords(w.db, list, runtimes))
  }

  ghost predicate BlocksSoFar(start: World, w: World, list: seq<DesiredBlocks>, i: nat, made: seq<Call>, runtimes: Runtimes,
                              acknowledges: Answers, ok: bool)
    requires i <= |list|
  {
    && InCycle(start, w) && w.db.services == start.db.services && w.db.appliedServices == start.db.appliedServices
    && (ok ==> forall j :: 0 <= j < i ==> BlocksDone(w.db, list[j], runtimes))
    && ((forall b :: b in list ==> BlocksDone(start.db, b, runtimes)) ==> ok && w == start && made == [])
    && BlocksAskedSoFar(start.db, w.db, w.todoBlocks, list[..i], made, runtimes)
    && (BlocksAnswered(start, list, runtimes, acknowledges) ==> ok && BlocksAskedOnce(w.db, made, runtimes))
  }

  lemma NothingSoFar(w: World, services: seq<DesiredService>, blocks: seq<DesiredBlocks>, runtimes: Runtimes, acknowledges: Answers)
    ensures ServicesSoFar(w, w, services, 0, [], runtimes, acknowledges, true)
    ensures BlocksSoFar(w, w, blocks, 0, [], runtimes, acknowledges, true)
  {
  }

  lemma NextService(start: World, w: World, w': World, list: seq<DesiredService>, i: nat, made: seq<Call>, runtimes: Runtimes,
                    acknowledges: Answers, ok: bool, done: bool)
    requires i < |list| && (forall s :: s in list ==> s in w.todo)
    requires ServicesSoFar(start, w, list, i, made, runtimes, acknowledges, ok)
    requires ServiceGoesOn(w, w', list[i], runtimes, acknowledges(i), done)
    ensures ServicesSoFar(start, w', list, i + 1, made + CallFor(w.db, list[i], runtimes, acknowledges(i)), runtimes, acknowledges,
                          ok && done)
  {
    assert list[i] in list && list[..i + 1] == list[..i] + [list[i]];
    ServiceWasAsked(start.db, w, w'.db, list[..i], made, list[i], runtimes, acknowledges(i));
    if ServicesAnswered(start, list, runtimes, acknowledges) {
      assert CanServe(w.db, list[i], runtimes) == CanServe(start.db, list[i], runtimes);
      ServiceWasAskedOnce(start.db, w, w'.db, list, list[..i], made, list[i], runtimes, acknowledges(i));
    }
  }

  lemma NextBlocks(start: World, w: World, w': World, list: seq<DesiredBlocks>, i: nat, made: seq<Call>, runtimes: Runtimes,
                   acknowledges: Answers, ok: bool, done: bool)
    requires i < |list| && (forall b :: b in list ==> b in w.todoBlocks)
    requires BlocksSoFar(start, w, list, i, made, runtimes, acknowledges, ok)
    requires BlocksGoOn(w, w', list[i], runtimes, acknowledges(i), done)
    ensures BlocksSoFar(start, w', list, i + 1, made + CallForBlocks(w.db, list[i], runtimes, acknowledges(i)), runtimes, acknowledges,
                        ok && done)
  {
    assert list[i] in list && list[..i + 1] == list[..i] + [list[i]];
    BlocksWereAsked(start.db, w, w'.db, list[..i], made, list[i], runtimes, acknowledges(i));
    if BlocksAnswered(start, list, runtimes, acknowledges) {
      BlocksWereAskedOnce(start.db, w, w'.db, list[..i], made, list[i], runtimes, acknowledges(i));
    }
  }

  // Of what is handed out, exactly what is due is asked for.
  ghost predicate AskedWhatIsDue(db: Db, services: seq<DesiredService>, blocks: seq<DesiredBlocks>, made: seq<Call>, runtimes: Runtimes) {
    && (forall s :: s in services ==> (s in AskedServices(made) <==> ServiceIsDue(db, s, runtimes)))
    && (forall s :: s in AskedServices(made) ==> s in services)
    && (forall b :: b in blocks ==> (b in AskedBlocks(made) <==> BlocksAreDue(db, b, runtimes)))
    && (forall b :: b in AskedBlocks(made) ==> b in blocks)
  }

  // No call is made twice.
  ghost predicate EachOnce(made: seq<Call>) { |made| == |AskedServices(made)| + |AskedBlocks(made)| }

  // What the two loops do: exactly what is due is asked for, all is done if that went without
  // error, and it does if every plugin can serve and answers.
  ghost predicate HandsOut(w: World, w': World, services: seq<DesiredService>, blocks: seq<DesiredBlocks>, made: seq<Call>,
                           runtimes: Runtimes, serviceAnswers: Answers, blockAnswers: Answers, ok: bool)
  {
    && InCycle(w, w') && AskedWhatIsDue(w.db, services, blocks, made, runtimes)
    && (ok && Lists(w, services, blocks) ==> Handed(w', runtimes))
    && (AllIdle(w.db, services, blocks, runtimes) ==> ok && w' == w && made == [])
    && (ServicesAnswered(w, services, runtimes, serviceAnswers) && BlocksAnswered(w, blocks, runtimes, blockAnswers) ==>
          ok && EachOnce(made))
  }

  lemma LoopsTogether(start: World, middle: World, end: World, services: seq<DesiredService>, blocks: seq<DesiredBlocks>,
                      forServices: seq<Call>, forBlocks: seq<Call>, runtimes: Runtimes,
                      serviceAnswers: Answers, blockAnswers: Answers, servicesOk: bool, blocksOk: bool)
    requires ServicesSoFar(start, middle, services, |services|, forServices, runtimes, serviceAnswers, servicesOk)
    requires BlocksSoFar(middle, end, blocks, |blocks|, forBlocks, runtimes, blockAnswers, blocksOk)
    ensures HandsOut(start, end, services, blocks, forServices + forBlocks, runtimes, serviceAnswers, blockAnswers, servicesOk && blocksOk)
  {
    InCycleOn(start, middle, end);
    assert services[..|services|] == services && blocks[..|blocks|] == blocks;
    AskedTogether(start, middle, end, services, blocks, forServices, forBlocks, runtimes);
    if servicesOk {
      StillDone(middle, end, services, runtimes);
    }
  }

  lemma AskedTogether(start: World, middle: World, end: World, services: seq<DesiredService>, blocks: seq<DesiredBlocks>,
                      forServices: seq<Call>, forBlocks: seq<Call>, runtimes: Runtimes)
    requires middle.db.appliedBlocks == start.db.appliedBlocks && InCycle(start, middle)
    requires AskedSoFar(start.db, middle.db, middle.todo, services, forServices, runtimes)
    requires BlocksAskedSoFar(middle.db, end.db, end.todoBlocks, blocks, forBlocks, runtimes)
    ensures AskedWhatIsDue(start.db, services, blocks, forServices + forBlocks, runtimes)
    ensures AskedOnce(middle.db, forServices, runtimes) && BlocksAskedOnce(end.db, forBlocks, runtimes) ==> EachOnce(forServices + forBlocks)
  {
    var made := forServices + forBlocks;
    assert forall c :: c in made <==> c in forServices || c in forBlocks;
    assert AskedServices(made) == AskedServices(forServices) && AskedBlocks(made) == AskedBlocks(forBlocks);
  }

  // An orphan always needs its disabling applied.
  lemma OrphanNeedsApply(w: World, s: DesiredService, instance: Id)
    requires OrphanRowsOk(w.db) && TodoOk(w) && CycleOk(w) && w.cycle.Some? && w.db.generation > 0
    requires s in w.todo && s.key in w.db.orphans
    ensures NeedsApply(w.db.appliedServices, s.key, s.row, instance)
  {
    assert Meets(w.db.services, Want(s.key, OrphanState(w.db)));
  }

  lemma ServiceMarkedIsDone(w: World, s: DesiredService, runtimes: Runtimes)
    requires TodoOk(w) && s in w.todo && CanServe(w.db, s, runtimes)
    requires w.acking == Some(Acknowledged(runtimes[s.key.plugin].instance, s.key, s.row)) && MarkedService(w).Ok?
    ensures ServiceDone(ServiceMarked(w).db, s, runtimes) && !ServiceIsDue(ServiceMarked(w).db, s, runtimes)
    ensures forall d :: d in w.todo && ServiceDone(w.db, d, runtimes) ==> ServiceDone(ServiceMarked(w).db, d, runtimes)
    ensures OthersStay(w, ServiceMarked(w).db, s, runtimes)
  {
  }

  lemma BlocksMarkedAreDone(w: World, b: DesiredBlocks, runtimes: Runtimes)
    requires TodoOk(w) && b in w.todoBlocks && CanBlock(b.key, runtimes)
    requires w.ackingBlocks == Some(Acknowledged(runtimes[b.key].instance, b.key, b.row)) && MarkedBlocks(w).Ok?
    ensures BlocksDone(BlocksMarked(w).db, b, runtimes)
    ensures forall d :: d in w.todoBlocks && BlocksDone(w.db, d, runtimes) ==>
              BlocksDone(BlocksMarked(w).db, d, runtimes)
    ensures OtherBlocksStay(w, BlocksMarked(w).db, b, runtimes)
  {
  }

  lemma RestWithout<T(!new)>(rest: seq<T>)
    requires rest != [] && NoDuplicates(rest)
    ensures NoDuplicates(rest[1..])
    ensures forall x :: x in rest[1..] <==> x in rest && x != rest[0]
  {
    assert rest == [rest[0]] + rest[1..];
  }

  lemma SomethingWaits(t: Traffic, list: seq<TrafficEvent>)
    requires list != [] && forall e :: e in list <==> Unqueued(t, e)
    ensures !NothingUnqueued(t)
  {
    assert list[0] in list;
  }

  lemma TrafficIsApart(w: World)
    requires TrafficOk(w)
    ensures KeysApart(w.db.traffic)
  {
    forall id | id in w.db.traffic.ledgers
      ensures LedgerKey(id, w.db.traffic.ledgers[id]) !in w.db.traffic.pending
    {
      assert LedgerOk(w.db.traffic, CenterView(w.log), w.charged, id);
    }
  }
}
