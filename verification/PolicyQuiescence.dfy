// When an evaluation of the policy engine has nothing left to do (applyAndPublish in
// internal/policy/engine.go).
module PolicyQuiescence {
  import opened Prelude
  import opened RevisionTable
  import opened PolicyModel
  import opened PolicyTraffic
  import opened PolicyActivity
  import opened PolicyTransactions
  import opened PolicySystem
  import opened PolicyInvariant
  import opened PolicyDistribution

  // What the engine sees of a running plugin.
  datatype Runtime = Runtime(instance: Id, stream: Option<Id>, counters: bool, control: bool, activity: bool, blocking: bool)

  type Runtimes = map<Id, Runtime>

  function Instances(runtimes: Runtimes): map<Id, Id> {
    map p | p in runtimes :: runtimes[p].instance
  }

  // A bound service of a policy with a soft limit needs a plugin that reports activity and
  // blocks addresses.
  function RequiresSoftIP(db: Db, s: DesiredService): bool {
    var p := FindPolicy(db.policies, s.key.authorization);
    !s.row.payload.orphan && p.Some? && p.value.softIPLimit.Some?
  }

  predicate CanServe(db: Db, s: DesiredService, runtimes: Runtimes) {
    && s.key.plugin in runtimes
    && var r := runtimes[s.key.plugin];
       r.counters && r.control && (RequiresSoftIP(db, s) ==> r.activity && r.blocking)
  }

  predicate CanBlock(plugin: Id, runtimes: Runtimes) {
    plugin in runtimes && runtimes[plugin].blocking
  }

  // ---- Settled ----

  ghost predicate ServiceSettled(db: Db, k: ServiceKey, runtimes: Runtimes) {
    && k in db.services.rows
    && CanServe(db, Entry(k, db.services.rows[k]), runtimes)
    && !NeedsApply(db.appliedServices, k, db.services.rows[k], runtimes[k.plugin].instance)
  }

  ghost predicate BlocksSettled(db: Db, plugin: Id, runtimes: Runtimes) {
    && plugin in db.blocks.rows
    && CanBlock(plugin, runtimes)
    && !NeedsApply(db.appliedBlocks, plugin, db.blocks.rows[plugin], runtimes[plugin].instance)
  }

  ghost predicate StatusSettled(db: Db, i: nat, at: Instant, runtimes: Runtimes)
    requires HasLedgers(db) && i < |db.policies|
  {
    var p := db.policies[i];
    AuthorizationApplied(db, p, Instances(runtimes)) ==>
      var e := StatusOf(db, p, at.now);
      e.activeIPs <= MAX_UINT32 && e.blockedIPs <= MAX_UINT32 && p.id in db.statuses && db.statuses[p.id].event == e
  }

  // Every event is queued, every desired record is current and acknowledged by the running
  // instance of its plugin, and every status is current and queued.
  ghost predicate TrafficSettled(db: Db, at: Instant) {
    IsFresh(db, at) && NothingUnqueued(db.traffic)
  }

  ghost predicate PluginsSettled(db: Db, at: Instant, runtimes: Runtimes) {
    db.generation > 0 ==>
      && db.orphans == {}
      && IsDesired(db, at.now)
      && (forall k :: k in BoundKeys(db.policies) ==> ServiceSettled(db, k, runtimes))
      && (forall p :: p in BlockPlugins(db) ==> BlocksSettled(db, p, runtimes))
  }

  ghost predicate StatusesSettled(db: Db, at: Instant, runtimes: Runtimes) {
    && HasLedgers(db)
    && (db.generation > 0 ==> forall i :: 0 <= i < |db.policies| ==> StatusSettled(db, i, at, runtimes))
    && (forall id :: id in db.statuses ==> db.statuses[id].queued)
  }

  ghost predicate Settled(db: Db, at: Instant, runtimes: Runtimes) {
    TrafficSettled(db, at) && PluginsSettled(db, at, runtimes) && StatusesSettled(db, at, runtimes)
  }

  // ---- In a settled database every transaction changes nothing ----

  lemma RefreshIsIdle(db: Db, at: Instant)
    requires IsFresh(db, at)
    ensures Refreshed(db, at) == Ok(db) && HasLedgers(db)
  {
    RefreshIsStable(db, at, |db.policies|);
    forall i | 0 <= i < |db.policies|
      ensures db.policies[i].id in db.traffic.ledgers
    {
      assert PolicyIsFresh(db, db.policies[i], at);
    }
  }

  lemma DesiredIsIdle(db: Db, at: Instant, orphanOrder: seq<ServiceKey>, pluginOrder: seq<Id>)
    requires IsDesired(db, at.now) && BindingsOk(db)
    requires (forall k :: k in orphanOrder ==> k in db.orphans) && (forall p :: p in pluginOrder ==> p in BlockPlugins(db))
    ensures EnsureAll(db.services, ServiceWants(db, at.now, orphanOrder)) == Ok(db.services)
    ensures EnsureAll(db.blocks, BlockWants(db, at.now, pluginOrder)) == Ok(db.blocks)
    ensures DesiredTx(db, at, orphanOrder, pluginOrder) == Ok(db)
  {
    var wants, blockWants := ServiceWants(db, at.now, orphanOrder), BlockWants(db, at.now, pluginOrder);
    BoundWantsAre(db, at.now, |db.policies|);
    OrphanWantsAre(db, orphanOrder);
    BlockWantsAre(db, at.now, pluginOrder);
    forall want | want in wants
      ensures Meets(db.services, want)
    {
      if want in BoundWants(db, at.now, |db.policies|) {
        var i, j := BoundWantAt(db, at.now, want);
        assert BindingIsDesired(db, i, j, at.now);
      }
    }
    EnsureAllStable(db.services, wants);
    forall want | want in blockWants
      ensures Meets(db.blocks, want)
    {
      assert BlocksAreDesired(db, want.key, at.now);
    }
    EnsureAllStable(db.blocks, blockWants);
  }

  lemma {:induction false} StatusesAreIdle(db: Db, at: Instant, runtimes: Runtimes, n: nat)
    requires HasLedgers(db) && n <= |db.policies|
    requires forall i :: 0 <= i < |db.policies| ==> StatusSettled(db, i, at, runtimes)
    ensures StatusesUpTo(db, at, Instances(runtimes), n) == Ok(db.statuses)
  {
    if n > 0 {
      StatusesAreIdle(db, at, runtimes, n - 1);
      assert StatusSettled(db, n - 1, at, runtimes);
    }
  }

  // An evaluation of a settled database has nothing to do, whichever orders it walks in: no
  // transaction changes anything, no event is waiting, and no plugin needs a call.
  lemma SettledIsQuiescent(db: Db, at: Instant, runtimes: Runtimes, orphanOrder: seq<ServiceKey>, pluginOrder: seq<Id>)
    requires Settled(db, at, runtimes) && BindingsOk(db)
    requires (forall k :: k in orphanOrder ==> k in db.orphans) && (forall p :: p in pluginOrder ==> p in BlockPlugins(db))
    ensures Refreshed(db, at) == Ok(db)
    ensures forall e :: !Unqueued(db.traffic, e)
    ensures DesiredTx(db, at, orphanOrder, pluginOrder) == Ok(db)
    ensures db.generation > 0 ==>
              && (forall want :: want in ServiceWants(db, at.now, orphanOrder) ==> ServiceSettled(db, want.key, runtimes))
              && (forall want :: want in BlockWants(db, at.now, pluginOrder) ==> BlocksSettled(db, want.key, runtimes))
    ensures StatusesTx(db, at, Instances(runtimes)) == Ok(db)
    ensures forall id :: id in db.statuses ==> db.statuses[id].queued
  {
    RefreshIsIdle(db, at);
    if db.generation > 0 {
      DesiredIsIdle(db, at, orphanOrder, pluginOrder);
      StatusesAreIdle(db, at, runtimes, |db.policies|);
      BoundWantsAre(db, at.now, |db.policies|);
      OrphanWantsAre(db, orphanOrder);
      BlockWantsAre(db, at.now, pluginOrder);
      forall want | want in ServiceWants(db, at.now, orphanOrder)
        ensures ServiceSettled(db, want.key, runtimes)
      {
        var i, j := BoundWantAt(db, at.now, want);
      }
    }
  }

  // ---- How an evaluation settles ----

  // Neither the traffic's nor the plugins' being settled depends on the statuses.
  lemma StatusesAreApartFromPlugins(db: Db, db': Db, at: Instant, runtimes: Runtimes)
    requires db' == db.(statuses := db'.statuses)
    ensures TrafficSettled(db, at) ==> TrafficSettled(db', at)
    ensures PluginsSettled(db, at, runtimes) ==> PluginsSettled(db', at, runtimes)
  {
    if TrafficSettled(db, at) {
      forall i | 0 <= i < |db'.policies|
        ensures PolicyIsFresh(db', db'.policies[i], at)
      {
        assert PolicyIsFresh(db, db.policies[i], at);
      }
    }
    if db.generation > 0 && PluginsSettled(db, at, runtimes) {
      BlocksStayDesired(db, db', at.now);
      forall i, j | 0 <= i < |db'.policies| && 0 <= j < |db'.policies[i].bindings|
        ensures BindingIsDesired(db', i, j, at.now)
      {
        assert BindingIsDesired(db, i, j, at.now);
      }
      forall k | k in BoundKeys(db'.policies)
        ensures ServiceSettled(db', k, runtimes)
      {
        assert ServiceSettled(db, k, runtimes);
      }
      forall p | p in BlockPlugins(db')
        ensures BlocksSettled(db', p, runtimes)
      {
        assert p in BlockPlugins(db);
        assert BlocksSettled(db, p, runtimes);
      }
    }
  }

  // A status that RefreshStatuses has brought up to date.
  ghost predicate StatusCurrent(db: Db, statuses: map<Id, StatusState>, i: nat, at: Instant, runtimes: Runtimes)
    requires HasLedgers(db) && i < |db.policies|
  {
    AuthorizationApplied(db, db.policies[i], Instances(runtimes)) ==>
      var e := StatusOf(db, db.policies[i], at.now);
      e.activeIPs <= MAX_UINT32 && e.blockedIPs <= MAX_UINT32
      && db.policies[i].id in statuses && statuses[db.policies[i].id].event == e
  }

  lemma {:induction false} StatusesBecomeCurrent(db: Db, at: Instant, runtimes: Runtimes, n: nat)
    requires HasLedgers(db) && DistinctIds(db.policies) && n <= |db.policies|
    requires StatusesUpTo(db, at, Instances(runtimes), n).Ok?
    ensures forall i :: 0 <= i < n ==>
              StatusCurrent(db, StatusesUpTo(db, at, Instances(runtimes), n).value, i, at, runtimes)
  {
    if n > 0 {
      StatusesBecomeCurrent(db, at, runtimes, n - 1);
      var before, after := StatusesUpTo(db, at, Instances(runtimes), n - 1).value, StatusesUpTo(db, at, Instances(runtimes), n).value;
      forall i | 0 <= i < n - 1
        ensures StatusCurrent(db, after, i, at, runtimes)
      {
        assert StatusCurrent(db, before, i, at, runtimes);
        assert db.policies[i].id != db.policies[n - 1].id;
      }
    }
  }

  lemma CurrentIsSettled(db: Db, db': Db, at: Instant, runtimes: Runtimes, i: nat)
    requires HasLedgers(db) && i < |db.policies| && db' == db.(statuses := db'.statuses)
    requires StatusCurrent(db, db'.statuses, i, at, runtimes)
    ensures StatusSettled(db', i, at, runtimes)
  {
    AppliedDependsOn(db, db', db.policies[i], Instances(runtimes));
  }

  lemma AppliedDependsOn(db: Db, db': Db, p: Policy, instances: map<Id, Id>)
    requires db' == db.(statuses := db'.statuses)
    ensures AuthorizationApplied(db', p, instances) <==> AuthorizationApplied(db, p, instances)
  {
    assert forall b :: BindingApplied(db', p, b, instances) <==> BindingApplied(db, p, b, instances);
  }

  // Every status is up to date, queued or not.
  ghost predicate StatusesCurrent(db: Db, at: Instant, runtimes: Runtimes) {
    HasLedgers(db) && (db.generation > 0 ==> forall i :: 0 <= i < |db.policies| ==> StatusSettled(db, i, at, runtimes))
  }

  lemma RefreshedStatusesAreCurrent(db: Db, at: Instant, runtimes: Runtimes)
    requires HasLedgers(db) && DistinctIds(db.policies) && StatusesTx(db, at, Instances(runtimes)).Ok?
    ensures StatusesCurrent(StatusesTx(db, at, Instances(runtimes)).value, at, runtimes)
  {
    if db.generation > 0 {
      var db' := StatusesTx(db, at, Instances(runtimes)).value;
      StatusesBecomeCurrent(db, at, runtimes, |db.policies|);
      forall i | 0 <= i < |db.policies|
        ensures StatusSettled(db', i, at, runtimes)
      {
        assert StatusCurrent(db, db'.statuses, i, at, runtimes);
        CurrentIsSettled(db, db', at, runtimes, i);
      }
    }
  }

  // Queueing a status does not change what it says.
  ghost predicate SameEvents(a: map<Id, StatusState>, b: map<Id, StatusState>) {
    a.Keys == b.Keys && forall id :: id in a ==> a[id].event == b[id].event
  }

  lemma QueueingKeepsCurrent(db: Db, db': Db, at: Instant, runtimes: Runtimes)
    requires StatusesCurrent(db, at, runtimes) && db' == db.(statuses := db'.statuses) && SameEvents(db.statuses, db'.statuses)
    ensures StatusesCurrent(db', at, runtimes)
  {
    if db.generation > 0 {
      forall i | 0 <= i < |db'.policies|
        ensures StatusSettled(db', i, at, runtimes)
      {
        assert StatusSettled(db, i, at, runtimes);
        AppliedDependsOn(db, db', db.policies[i], Instances(runtimes));
      }
    }
  }
}
