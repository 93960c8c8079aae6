// From readings to the center: in every run, the bytes charged to an authorization over all
// its periods are what the plugins reported for its services while they were bound.
module PolicyConservation {
  import opened Prelude
  import opened PolicyModel
  import opened PolicyCounters
  import opened PolicyTraffic
  import opened PolicyTransactions
  import opened PolicySystem
  import opened PolicyInvariant
  import opened PolicyDistribution
  import opened PolicyTheorems

  // ---- What a run delivers ----

  // The readings of one service, in order. Another sequence begins whenever the snapshot
  // drops the authorization, and with it the counter.
  type Episodes = seq<seq<CounterState>>

  function Continued(episodes: Episodes, readings: seq<CounterState>): Episodes
    requires episodes != []
  {
    episodes[..|episodes| - 1] + [episodes[|episodes| - 1] + readings]
  }

  ghost predicate Dropped(w: World, a: Action, id: Id)
    requires Enabled(w, a)
  {
    id in Ids(w.db.policies) && id !in Ids(Step(w, a).db.policies)
  }

  ghost function HeardInStep(w: World, a: Action, episodes: Episodes, key: ServiceKey): (r: Episodes)
    requires Enabled(w, a) && episodes != []
    ensures r != []
  {
    if a.ApplyCounters? then Continued(episodes, ReadingsOf(BoundKeys(w.db.policies), a.plugin, a.list, key))
    else if Dropped(w, a, key.authorization) then episodes + [[]]
    else episodes
  }

  // What the successful calls of a run reported for a service while it was bound.
  ghost function Heard(w: World, acts: seq<Action>, key: ServiceKey): (r: Episodes)
    requires Legal(w, acts)
    ensures r != []
    decreases |acts|
  {
    if acts == [] then [[]]
    else
      var front := acts[..|acts| - 1];
      HeardInStep(After(w, front), acts[|acts| - 1], Heard(w, front, key), key)
  }

  // The sum, over the episodes, of the readings that end their runs.
  function Ends(episodes: Episodes): Bytes
    decreases |episodes|
  {
    if episodes == [] then Bytes(0, 0)
    else
      var last := episodes[|episodes| - 1];
      Add(Ends(episodes[..|episodes| - 1]), RunEnds(last, |last|))
  }

  ghost function EndsOfServices(w: World, acts: seq<Action>, services: seq<ServiceKey>): Bytes
    requires Legal(w, acts)
    decreases |services|
  {
    if services == [] then Bytes(0, 0)
    else Add(EndsOfServices(w, acts, services[..|services| - 1]), Ends(Heard(w, acts, services[|services| - 1])))
  }

  // Every service that was bound at some time.
  ghost function EverBound(w: World, acts: seq<Action>): set<ServiceKey>
    requires Legal(w, acts)
    decreases |acts|
  {
    BoundKeys(After(w, acts).db.policies) + if acts == [] then {} else EverBound(w, acts[..|acts| - 1])
  }

  // A list, without repetition, of services of the authorization, with all that were bound.
  ghost predicate ListsServices(services: seq<ServiceKey>, everBound: set<ServiceKey>, id: Id) {
    && (forall i, j :: 0 <= i < j < |services| ==> services[i] != services[j])
    && (forall k :: k in services ==> k.authorization == id)
    && (forall k :: k in everBound && k.authorization == id ==> k in services)
  }

  // ---- What a run charges ----

  function ChargedIn(charged: Charged, id: Id, periods: seq<Id>): Bytes
    decreases |periods|
  {
    if periods == [] then Bytes(0, 0)
    else Add(ChargedIn(charged, id, periods[..|periods| - 1]), ChargedTo(charged, TrafficKey(id, periods[|periods| - 1])))
  }

  // A list, without repetition, of periods, with all in which the authorization was charged.
  ghost predicate ListsPeriods(periods: seq<Id>, charged: Charged, id: Id) {
    && (forall i, j :: 0 <= i < j < |periods| ==> periods[i] != periods[j])
    && (forall k :: k in charged && k.authorization == id ==> k.period in periods)
  }

  lemma {:induction false} ChargedInSame(charged: Charged, charged': Charged, id: Id, periods: seq<Id>)
    requires forall p :: p in periods ==> ChargedTo(charged', TrafficKey(id, p)) == ChargedTo(charged, TrafficKey(id, p))
    ensures ChargedIn(charged', id, periods) == ChargedIn(charged, id, periods)
    decreases |periods|
  {
    if periods != [] {
      ChargedInSame(charged, charged', id, periods[..|periods| - 1]);
    }
  }

  // Up to one period, two records are charged alike, and that one is charged more.
  ghost predicate ChargedMoreIn(charged: Charged, charged': Charged, id: Id, period: Id, delta: Bytes) {
    forall p :: ChargedTo(charged', TrafficKey(id, p))
                == if p == period then Add(ChargedTo(charged, TrafficKey(id, p)), delta) else ChargedTo(charged, TrafficKey(id, p))
  }

  lemma ChargedInOthers(charged: Charged, charged': Charged, id: Id, periods: seq<Id>, period: Id, delta: Bytes)
    requires ChargedMoreIn(charged, charged', id, period, delta) && period !in periods
    ensures ChargedIn(charged', id, periods) == ChargedIn(charged, id, periods)
  {
    ChargedInSame(charged, charged', id, periods);
  }

  lemma {:induction false} ChargedInOne(charged: Charged, charged': Charged, id: Id, periods: seq<Id>, period: Id, delta: Bytes)
    requires forall i, j :: 0 <= i < j < |periods| ==> periods[i] != periods[j]
    requires period in periods && ChargedMoreIn(charged, charged', id, period, delta)
    ensures ChargedIn(charged', id, periods) == Add(ChargedIn(charged, id, periods), delta)
    decreases |periods|
  {
    var front, last := periods[..|periods| - 1], periods[|periods| - 1];
    var sum, before := ChargedIn(charged, id, front), ChargedTo(charged, TrafficKey(id, last));
    if period == last {
      ChargedInOthers(charged, charged', id, front, period, delta);
      AddAssociative(sum, before, delta);
    } else {
      ChargedInOne(charged, charged', id, front, period, delta);
      AddSwaps(sum, delta, before);
    }
  }

  // A call of ApplyCounters charges an authorization its delta.
  lemma CountersChargeDelta(t: Traffic, view: View, charged: Charged, policies: seq<Policy>, deltas: map<Id, Bytes>,
                            at: Instant, order: seq<Id>, id: Id, periods: seq<Id>)
    requires ChargeAll(t, policies, deltas, at, order).Ok? && TrafficInv(t, view, charged)
    requires Enumerates(order, deltas.Keys)
    requires forall o :: IdMayOpen(t, charged, policies, at, o)
    requires ListsPeriods(periods, ChargedByCounters(t, charged, policies, deltas, at, order), id)
    ensures ChargedIn(ChargedByCounters(t, charged, policies, deltas, at, order), id, periods)
            == Add(ChargedIn(charged, id, periods), Delta(deltas, id))
  {
    var charged' := ChargedByCounters(t, charged, policies, deltas, at, order);
    var delta := Delta(deltas, id);
    forall p
      ensures ChargedTo(charged', TrafficKey(id, p))
              == if id in order && delta != Bytes(0, 0) && IsChargeable(policies, at, TrafficKey(id, p))
                 then Add(ChargedTo(charged, TrafficKey(id, p)), delta) else ChargedTo(charged, TrafficKey(id, p))
    {
      ChargesAreDeltas(t, view, charged, policies, deltas, at, order, TrafficKey(id, p));
    }
    if delta == Bytes(0, 0) {
      ChargedInSame(charged, charged', id, periods);
      AddNothing(ChargedIn(charged, id, periods), delta);
    } else {
      ChargesAreDeltas(t, view, charged, policies, deltas, at, order, TrafficKey(id, 0));
      var period := CurrentPeriod(FindPolicy(policies, id).value, at).value.id;
      assert TrafficKey(id, period) in charged';
      ChargedInOne(charged, charged', id, periods, period, delta);
    }
  }

  lemma StartingChargesNothing(t: Traffic, charged: Charged, id: Id, period: Period, k: TrafficKey)
    requires MayOpen(t, charged, id, period)
    ensures ChargedTo(Started(t, charged, id, period), k) == ChargedTo(charged, k)
  {
  }

  lemma NextMayOpen(db: Db, view: View, charged: Charged, at: Instant, n: nat)
    requires Refreshable(db, view, charged, at, n) && n < |db.policies| && CurrentPeriod(db.policies[n], at).Some?
    ensures MayOpen(db.traffic, charged, db.policies[n].id, CurrentPeriod(db.policies[n], at).value)
  {
    assert MayOpenAt(db, charged, at, n);
  }

  // Refreshing opens ledgers without charging.
  lemma {:induction false} RefreshChargesNothing(db: Db, view: View, charged: Charged, at: Instant, n: nat, k: TrafficKey)
    requires Refreshable(db, view, charged, at, 0) && n <= |db.policies| && RefreshUpTo(db, at, n).Ok?
    ensures ChargedTo(ChargedByRefresh(db, charged, at, n), k) == ChargedTo(charged, k)
  {
    if n > 0 {
      RefreshChargesNothing(db, view, charged, at, n - 1, k);
      RefreshKeepsTraffic(db, view, charged, at, n - 1);
      var before, charged1 := RefreshUpTo(db, at, n - 1).value, ChargedByRefresh(db, charged, at, n - 1);
      NextMayOpen(before, view, charged1, at, n - 1);
      StartingChargesNothing(before.traffic, charged1, before.policies[n - 1].id,
                             CurrentPeriod(before.policies[n - 1], at).value, k);
    }
  }

  // ---- The two sides of one step ----

  lemma ChargedStays(w: World, a: Action)
    requires Enabled(w, a) && !a.ApplyCounters? && !a.Refresh?
    ensures Step(w, a).charged == w.charged
  {
  }

  lemma RefreshStepChargesNothing(w: World, at: Instant, id: Id, periods: seq<Id>)
    requires BindingsOk(w.db) && TrafficOk(w) && NoReturningPair(w, at) && Refreshed(w.db, at).Ok?
    ensures ChargedIn(ChargedByRefresh(w.db, w.charged, at, |w.db.policies|), id, periods) == ChargedIn(w.charged, id, periods)
  {
    forall i | 0 <= i < |w.db.policies|
      ensures MayOpenAt(w.db, w.charged, at, i)
    {
    }
    forall p | p in periods
      ensures ChargedTo(ChargedByRefresh(w.db, w.charged, at, |w.db.policies|), TrafficKey(id, p))
              == ChargedTo(w.charged, TrafficKey(id, p))
    {
      RefreshChargesNothing(w.db, CenterView(w.log), w.charged, at, |w.db.policies|, TrafficKey(id, p));
    }
    ChargedInSame(w.charged, ChargedByRefresh(w.db, w.charged, at, |w.db.policies|), id, periods);
  }

  lemma CountersStepCharges(w: World, a: Action, id: Id, periods: seq<Id>, services: seq<ServiceKey>)
    requires BindingsOk(w.db) && TrafficOk(w) && Enabled(w, a) && a.ApplyCounters?
    requires ListsPeriods(periods, Step(w, a).charged, id)
    requires ServicesOf(services, BoundKeys(w.db.policies), a.plugin, id)
    ensures ChargedIn(Step(w, a).charged, id, periods)
            == Add(ChargedIn(w.charged, id, periods),
                   ChargesTo(w.db.counters, BoundKeys(w.db.policies), a.plugin, a.list, services))
  {
    AllMayOpen(w, a.at);
    CountersChargeDelta(w.db.traffic, CenterView(w.log), w.charged, w.db.policies, Deltas(w.db, a.plugin, a.list),
                        a.at, a.order, id, periods);
    DeltaIsTotal(Tally(w.db.counters, map[]), BoundKeys(w.db.policies), a.plugin, a.list, id, services);
  }

  // ---- Counters ----

  lemma {:induction false} UnboundIsUnread(bound: set<ServiceKey>, plugin: Id, list: seq<Option<Reading>>, key: ServiceKey)
    requires key !in bound
    ensures ReadingsOf(bound, plugin, list, key) == []
    decreases |list|
  {
    if list != [] {
      UnboundIsUnread(bound, plugin, list[..|list| - 1], key);
    }
  }

  // A counter holds the last reading of the current episode, which is empty while the
  // authorization is not in the snapshot.
  ghost predicate CounterOk(db: Db, episodes: Episodes, key: ServiceKey) {
    && episodes != []
    && Stored(db.counters, key) == Latest(None, episodes[|episodes| - 1])
    && (key.authorization !in Ids(db.policies) ==> episodes[|episodes| - 1] == [])
  }

  lemma CountersKeepCounterOk(db: Db, db': Db, episodes: Episodes, plugin: Id, list: seq<Option<Reading>>, key: ServiceKey)
    requires CounterOk(db, episodes, key) && db'.policies == db.policies
    requires var tally := CountAll(Tally(db.counters, map[]), BoundKeys(db.policies), plugin, list);
             tally.Ok? && db'.counters == tally.value.counters
    ensures CounterOk(db', Continued(episodes, ReadingsOf(BoundKeys(db.policies), plugin, list, key)), key)
  {
    CountersHoldLatest(Tally(db.counters, map[]), BoundKeys(db.policies), plugin, list, key);
    ContinuedIsOk(db, episodes, BoundKeys(db.policies), plugin, list, key);
  }

  lemma ContinuedIsOk(db: Db, episodes: Episodes, bound: set<ServiceKey>, plugin: Id, list: seq<Option<Reading>>, key: ServiceKey)
    requires CounterOk(db, episodes, key) && bound == BoundKeys(db.policies)
    ensures var readings := ReadingsOf(bound, plugin, list, key);
            var more := Continued(episodes, readings);
            && Latest(Stored(db.counters, key), readings) == Latest(None, more[|more| - 1])
            && (key.authorization !in Ids(db.policies) ==> more[|more| - 1] == [])
  {
    if key.authorization !in Ids(db.policies) {
      NotListedIsUnread(db.policies, plugin, list, key);
    }
  }

  lemma NotListedIsUnread(policies: seq<Policy>, plugin: Id, list: seq<Option<Reading>>, key: ServiceKey)
    requires key.authorization !in Ids(policies)
    ensures ReadingsOf(BoundKeys(policies), plugin, list, key) == []
  {
    UnboundIsUnread(BoundKeys(policies), plugin, list, key);
  }

  lemma ReconcileKeepsCounterOk(db: Db, db': Db, episodes: Episodes, generation: u64, snapshot: seq<Policy>, key: ServiceKey)
    requires CounterOk(db, episodes, key) && Reconciled(db, generation, snapshot) == Ok(db')
    ensures var dropped := key.authorization in Ids(db.policies) && key.authorization !in Ids(db'.policies);
            CounterOk(db', if dropped then episodes + [[]] else episodes, key)
  {
  }

  lemma SameIds(a: seq<Policy>, b: seq<Policy>)
    requires SamePolicies(a, b)
    ensures Ids(a) == Ids(b)
  {
    forall i | 0 <= i < |a|
      ensures a[i].id == b[i].id
    {
    }
  }

  lemma RefreshKeepsCounterOk(db: Db, at: Instant, episodes: Episodes, key: ServiceKey)
    requires DistinctIds(db.policies) && Refreshed(db, at).Ok? && CounterOk(db, episodes, key)
    ensures Ids(Refreshed(db, at).value.policies) == Ids(db.policies)
    ensures CounterOk(Refreshed(db, at).value, episodes, key)
  {
    RefreshUpToIsFresh(db, at, |db.policies|);
    SameIds(db.policies, Refreshed(db, at).value.policies);
  }

  lemma CountersStay(w: World, a: Action)
    requires Enabled(w, a) && !a.Reconcile? && !a.ApplyCounters? && !a.Refresh?
    ensures Step(w, a).db.counters == w.db.counters
  {
    match a
    case Desired(at, orphanOrder, pluginOrder) => DistributedKeepsCounters(w, at, orphanOrder, pluginOrder);
    case MarkService => ServiceMarkedKeepsCounters(w);
    case MarkBlocks =>
    case _ =>
  }

  lemma DistributedKeepsCounters(w: World, at: Instant, orphanOrder: seq<ServiceKey>, pluginOrder: seq<Id>)
    requires IsFresh(w.db, at) && DesiredTx(w.db, at, orphanOrder, pluginOrder).Ok?
    ensures Distributed(w, at, orphanOrder, pluginOrder).db.counters == w.db.counters
  {
  }

  lemma ServiceMarkedKeepsCounters(w: World)
    requires w.acking.Some? && MarkedService(w).Ok?
    ensures ServiceMarked(w).db.counters == w.db.counters
  {
  }

  lemma StepKeepsCounterOk(w: World, a: Action, episodes: Episodes, key: ServiceKey)
    requires DistinctIds(w.db.policies) && Enabled(w, a) && CounterOk(w.db, episodes, key)
    ensures CounterOk(Step(w, a).db, HeardInStep(w, a, episodes, key), key)
  {
    if a.ApplyCounters? {
      CountersKeepCounterOk(w.db, Step(w, a).db, episodes, a.plugin, a.list, key);
    } else if a.Reconcile? {
      ReconcileKeepsCounterOk(w.db, Step(w, a).db, episodes, a.generation, a.snapshot, key);
    } else if a.Refresh? {
      RefreshKeepsCounterOk(w.db, a.at, episodes, key);
    } else {
      CountersStay(w, a);
      PoliciesStay(w, a);
    }
  }

  lemma {:induction false} RunKeepsCounterOk(w: World, acts: seq<Action>, key: ServiceKey)
    requires Init(w) && Legal(w, acts)
    ensures CounterOk(After(w, acts).db, Heard(w, acts, key), key)
    decreases |acts|
  {
    if acts != [] {
      var front := acts[..|acts| - 1];
      RunKeepsCounterOk(w, front, key);
      ReachableIsSafe(w, front);
      StepKeepsCounterOk(After(w, front), acts[|acts| - 1], Heard(w, front, key), key);
    }
  }

  // ---- Sums over services ----

  lemma ContinuedEnds(episodes: Episodes, readings: seq<CounterState>)
    requires episodes != []
    ensures Ends(Continued(episodes, readings))
            == Add(Ends(episodes), Total(Latest(None, episodes[|episodes| - 1]), readings))
  {
    var last, more := episodes[|episodes| - 1], Continued(episodes, readings);
    assert more[..|more| - 1] == episodes[..|episodes| - 1];
    ClosedForm(last);
    ClosedForm(last + readings);
    TotalOfConcatenation(None, last, readings);
    AddAssociative(Ends(episodes[..|episodes| - 1]), Total(None, last), Total(Latest(None, last), readings));
  }

  lemma EmptyEpisodeEndsNothing(episodes: Episodes)
    ensures Ends(episodes + [[]]) == Ends(episodes)
  {
    assert (episodes + [[]])[..|episodes|] == episodes;
    AddNothing(Ends(episodes), RunEnds([], 0));
  }

  // What a step adds for one service.
  lemma StepEnds(w: World, acts: seq<Action>, key: ServiceKey)
    requires Init(w) && Legal(w, acts) && acts != []
    ensures var front, a := acts[..|acts| - 1], acts[|acts| - 1];
            var db := After(w, front).db;
            Ends(Heard(w, acts, key))
            == if a.ApplyCounters?
               then Add(Ends(Heard(w, front, key)),
                        Total(Stored(db.counters, key), ReadingsOf(BoundKeys(db.policies), a.plugin, a.list, key)))
               else Ends(Heard(w, front, key))
  {
    var front, a := acts[..|acts| - 1], acts[|acts| - 1];
    var db := After(w, front).db;
    RunKeepsCounterOk(w, front, key);
    if a.ApplyCounters? {
      ContinuedEnds(Heard(w, front, key), ReadingsOf(BoundKeys(db.policies), a.plugin, a.list, key));
    } else {
      EmptyEpisodeEndsNothing(Heard(w, front, key));
    }
  }

  lemma AddPairs(a: Bytes, b: Bytes, c: Bytes, d: Bytes)
    ensures Add(Add(a, b), Add(c, d)) == Add(Add(a, c), Add(b, d))
  {
  }

  lemma {:induction false} StepEndsOfServices(w: World, acts: seq<Action>, services: seq<ServiceKey>)
    requires Init(w) && Legal(w, acts) && acts != []
    ensures var front, a := acts[..|acts| - 1], acts[|acts| - 1];
            var db := After(w, front).db;
            EndsOfServices(w, acts, services)
            == if a.ApplyCounters?
               then Add(EndsOfServices(w, front, services),
                        ChargesTo(db.counters, BoundKeys(db.policies), a.plugin, a.list, services))
               else EndsOfServices(w, front, services)
    decreases |services|
  {
    if services == [] {
    } else {
      var front, a := acts[..|acts| - 1], acts[|acts| - 1];
      var db := After(w, front).db;
      var others, key := services[..|services| - 1], services[|services| - 1];
      StepEndsOfServices(w, acts, others);
      StepEnds(w, acts, key);
      if a.ApplyCounters? {
        AddPairs(EndsOfServices(w, front, others), ChargesTo(db.counters, BoundKeys(db.policies), a.plugin, a.list, others),
                 Ends(Heard(w, front, key)),
                 Total(Stored(db.counters, key), ReadingsOf(BoundKeys(db.policies), a.plugin, a.list, key)));
      }
    }
  }

  lemma {:induction false} NothingHeard(w: World, services: seq<ServiceKey>)
    ensures EndsOfServices(w, [], services) == Bytes(0, 0)
    decreases |services|
  {
    if services != [] {
      NothingHeard(w, services[..|services| - 1]);
      EmptyEpisodeEndsNothing([]);
      AddNothing(EndsOfServices(w, [], services[..|services| - 1]), Ends([[]]));
    }
  }

  lemma {:induction false} NothingCharged(charged: Charged, id: Id, periods: seq<Id>)
    requires charged == map[]
    ensures ChargedIn(charged, id, periods) == Bytes(0, 0)
    decreases |periods|
  {
    if periods != [] {
      NothingCharged(charged, id, periods[..|periods| - 1]);
    }
  }

  // ---- Conservation ----

  // In every run, with snapshots, refreshes, calls for other plugins and crashes in between,
  // an authorization is charged, over all its periods, exactly the closed form of the
  // readings its services delivered while bound.
  lemma {:induction false} ChargesAreConserved(w: World, acts: seq<Action>, id: Id, periods: seq<Id>, services: seq<ServiceKey>)
    requires Init(w) && Legal(w, acts)
    requires ListsPeriods(periods, After(w, acts).charged, id)
    requires ListsServices(services, EverBound(w, acts), id)
    ensures ChargedIn(After(w, acts).charged, id, periods) == EndsOfServices(w, acts, services)
    decreases |acts|
  {
    if acts == [] {
      NothingHeard(w, services);
      NothingCharged(w.charged, id, periods);
    } else {
      var front, a := acts[..|acts| - 1], acts[|acts| - 1];
      var v := After(w, front);
      ReachableIsSafe(w, front);
      StepKeeps(v, a);
      ChargesAreConserved(w, front, id, periods, services);
      StepEndsOfServices(w, acts, services);
      if a.ApplyCounters? {
        assert ServicesOf(services, BoundKeys(v.db.policies), a.plugin, id);
        CountersStepCharges(v, a, id, periods, services);
      } else if a.Refresh? {
        RefreshStepChargesNothing(v, a.at, id, periods);
      } else {
        ChargedStays(v, a);
      }
    }
  }

  // What the center adds up to.
  function CenterBytes(view: View): Charged {
    map k | k in view :: Bytes(view[k].up, view[k].down)
  }

  // Whenever nothing is left to queue, the snapshots that the center keeps of an
  // authorization add up to exactly what its services delivered while bound.
  lemma CenterReceivesWhatWasDelivered(w: World, acts: seq<Action>, id: Id, periods: seq<Id>, services: seq<ServiceKey>)
    requires Init(w) && Legal(w, acts) && NothingUnqueued(After(w, acts).db.traffic)
    requires ListsPeriods(periods, CenterBytes(CenterView(After(w, acts).log)), id)
    requires ListsServices(services, EverBound(w, acts), id)
    ensures ChargedIn(CenterBytes(CenterView(After(w, acts).log)), id, periods) == EndsOfServices(w, acts, services)
  {
    TrafficConverges(w, acts);
    assert CenterBytes(CenterView(After(w, acts).log)) == After(w, acts).charged;
    ChargesAreConserved(w, acts, id, periods, services);
  }

  // The snapshot never dropped the authorization.
  ghost predicate Retained(w: World, acts: seq<Action>, id: Id)
    requires Legal(w, acts)
    decreases |acts|
  {
    acts != [] ==>
      && Retained(w, acts[..|acts| - 1], id)
      && !Dropped(After(w, acts[..|acts| - 1]), acts[|acts| - 1], id)
  }

  lemma {:induction false} HeardOnce(w: World, acts: seq<Action>, key: ServiceKey)
    requires Legal(w, acts) && Retained(w, acts, key.authorization)
    ensures |Heard(w, acts, key)| == 1
    decreases |acts|
  {
    if acts != [] {
      HeardOnce(w, acts[..|acts| - 1], key);
    }
  }

  // As long as it does not, the readings of a service make one sequence, however they are
  // grouped into calls and whatever else happens in between.
  lemma RetainedIsOneEpisode(w: World, acts: seq<Action>, key: ServiceKey)
    requires Legal(w, acts) && Retained(w, acts, key.authorization)
    ensures var heard := Heard(w, acts, key);
            |heard| == 1 && Ends(heard) == RunEnds(heard[0], |heard[0]|)
  {
    HeardOnce(w, acts, key);
    OneEpisodeEnds(Heard(w, acts, key));
  }

  lemma OneEpisodeEnds(episodes: Episodes)
    requires |episodes| == 1
    ensures Ends(episodes) == RunEnds(episodes[0], |episodes[0]|)
  {
    assert Ends(episodes[..0]) == Bytes(0, 0);
  }
}
