// When ApplyCounters refuses what a plugin reports (internal/policy/store.go).
module PolicyCapacity {
  import opened Prelude
  import opened PolicyModel
  import opened PolicyCounters
  import opened PolicyTraffic
  import opened PolicyTransactions
  import opened PolicySystem

  // ---- Counting ----

  predicate ReadingFits(entry: Option<Reading>) {
    entry.Some? ==> entry.value.up <= MAX_INT64 && entry.value.down <= MAX_INT64
  }

  // What the services of an authorization have grown by, without a bound.
  function Growth(counters: map<ServiceKey, CounterState>, bound: set<ServiceKey>, plugin: Id, list: seq<Option<Reading>>, id: Id): Bytes
    decreases |list|
  {
    if list == [] then Bytes(0, 0)
    else
      var front, last := list[..|list| - 1], list[|list| - 1];
      var before := Growth(counters, bound, plugin, front, id);
      if last == None || last.value.authorization != id || KeyFor(plugin, last.value) !in bound then before
      else
        var key := KeyFor(plugin, last.value);
        Add(before, Charge(Latest(Stored(counters, key), ReadingsOf(bound, plugin, front, key)), StateOf(last.value)))
  }

  predicate FitsUnsigned(b: Bytes) { b.up <= MAX_UINT64 && b.down <= MAX_UINT64 }

  ghost predicate GrowthFits(counters: map<ServiceKey, CounterState>, bound: set<ServiceKey>, plugin: Id, list: seq<Option<Reading>>) {
    forall id :: FitsUnsigned(Growth(counters, bound, plugin, list, id))
  }

  // The deltas of a counted list are the growth.
  lemma {:induction false} DeltasAreGrowth(counters: map<ServiceKey, CounterState>, bound: set<ServiceKey>, plugin: Id,
                                           list: seq<Option<Reading>>, id: Id)
    requires CountAll(Tally(counters, map[]), bound, plugin, list).Ok?
    ensures Delta(CountAll(Tally(counters, map[]), bound, plugin, list).value.deltas, id) == Growth(counters, bound, plugin, list, id)
    decreases |list|
  {
    if list != [] {
      var front, last := list[..|list| - 1], list[|list| - 1];
      DeltasAreGrowth(counters, bound, plugin, front, id);
      if last.Some? {
        CountersHoldLatest(Tally(counters, map[]), bound, plugin, front, KeyFor(plugin, last.value));
      }
    }
  }

  lemma {:induction false} CountedFits(counters: map<ServiceKey, CounterState>, bound: set<ServiceKey>, plugin: Id,
                                       list: seq<Option<Reading>>)
    requires CountAll(Tally(counters, map[]), bound, plugin, list).Ok?
    ensures forall entry :: entry in list ==> ReadingFits(entry)
    ensures GrowthFits(counters, bound, plugin, list)
    decreases |list|
  {
    if list != [] {
      var front, last := list[..|list| - 1], list[|list| - 1];
      CountedFits(counters, bound, plugin, front);
      assert forall entry :: entry in list <==> entry in front || entry == last;
      forall id
        ensures FitsUnsigned(Growth(counters, bound, plugin, list, id))
      {
        DeltasAreGrowth(counters, bound, plugin, front, id);
        DeltasAreGrowth(counters, bound, plugin, list, id);
        assert FitsUnsigned(Growth(counters, bound, plugin, front, id));
      }
    }
  }

  lemma FrontFits(counters: map<ServiceKey, CounterState>, bound: set<ServiceKey>, plugin: Id, list: seq<Option<Reading>>)
    requires list != [] && GrowthFits(counters, bound, plugin, list)
    ensures GrowthFits(counters, bound, plugin, list[..|list| - 1])
  {
    var front := list[..|list| - 1];
    forall id
      ensures FitsUnsigned(Growth(counters, bound, plugin, front, id))
    {
      assert FitsUnsigned(Growth(counters, bound, plugin, list, id));
    }
  }

  lemma LastFits(counters: map<ServiceKey, CounterState>, bound: set<ServiceKey>, plugin: Id, list: seq<Option<Reading>>)
    requires list != [] && GrowthFits(counters, bound, plugin, list) && ReadingFits(list[|list| - 1])
    requires CountAll(Tally(counters, map[]), bound, plugin, list[..|list| - 1]).Ok?
    ensures CountAll(Tally(counters, map[]), bound, plugin, list).Ok?
  {
    var front, last := list[..|list| - 1], list[|list| - 1];
    if last.Some? {
      CountersHoldLatest(Tally(counters, map[]), bound, plugin, front, KeyFor(plugin, last.value));
      DeltasAreGrowth(counters, bound, plugin, front, last.value.authorization);
      assert FitsUnsigned(Growth(counters, bound, plugin, list, last.value.authorization));
    }
  }

  // Counting fails just for a counter beyond a signed number or a growth beyond an unsigned one.
  lemma {:induction false} CountSucceeds(counters: map<ServiceKey, CounterState>, bound: set<ServiceKey>, plugin: Id,
                                         list: seq<Option<Reading>>)
    requires forall entry :: entry in list ==> ReadingFits(entry)
    requires GrowthFits(counters, bound, plugin, list)
    ensures CountAll(Tally(counters, map[]), bound, plugin, list).Ok?
    decreases |list|
  {
    if list != [] {
      FrontFits(counters, bound, plugin, list);
      CountSucceeds(counters, bound, plugin, list[..|list| - 1]);
      LastFits(counters, bound, plugin, list);
    }
  }

  // ---- Charging ----

  // The ledger of the current period, which may still have to be opened, takes the delta.
  predicate LedgerTakes(t: Traffic, policies: seq<Policy>, at: Instant, id: Id, delta: Bytes) {
    delta == Bytes(0, 0)
    || (var p := FindPolicy(policies, id);
        && p.Some? && CurrentPeriod(p.value, at).Some?
        && var period := CurrentPeriod(p.value, at).value;
           var l := if HasLedger(t, id, period) then t.ledgers[id] else Ledger(period, 1, 0, 0, 0);
           l.up + delta.up <= MAX_INT64 && l.down + delta.down <= MAX_INT64 && l.revision < MAX_INT64)
  }

  lemma {:induction false} OthersKeepLedgers(t: Traffic, policies: seq<Policy>, deltas: map<Id, Bytes>, at: Instant, order: seq<Id>,
                                             id: Id)
    requires ChargeAll(t, policies, deltas, at, order).Ok? && id !in order
    ensures var t' := ChargeAll(t, policies, deltas, at, order).value;
            (id in t'.ledgers <==> id in t.ledgers) && (id in t.ledgers ==> t'.ledgers[id] == t.ledgers[id])
    decreases |order|
  {
    if order != [] {
      var front, last := order[..|order| - 1], order[|order| - 1];
      assert last in order && forall o :: o in front ==> o in order;
      OthersKeepLedgers(t, policies, deltas, at, front, id);
    }
  }

  lemma {:induction false} ChargingSucceeds(t: Traffic, policies: seq<Policy>, deltas: map<Id, Bytes>, at: Instant, order: seq<Id>)
    requires forall i, j :: 0 <= i < j < |order| ==> order[i] != order[j]
    ensures ChargeAll(t, policies, deltas, at, order).Ok? <==>
            forall id :: id in order ==> LedgerTakes(t, policies, at, id, Delta(deltas, id))
    decreases |order|
  {
    if order != [] {
      var front, last := order[..|order| - 1], order[|order| - 1];
      ChargingSucceeds(t, policies, deltas, at, front);
      assert forall id :: id in order <==> id in front || id == last;
      if ChargeAll(t, policies, deltas, at, front).Ok? {
        OthersKeepLedgers(t, policies, deltas, at, front, last);
        LastCharged(t, ChargeAll(t, policies, deltas, at, front).value, policies, Delta(deltas, last), at, last);
      }
    }
  }

  lemma LastCharged(t: Traffic, t': Traffic, policies: seq<Policy>, delta: Bytes, at: Instant, id: Id)
    requires (id in t'.ledgers <==> id in t.ledgers) && (id in t.ledgers ==> t'.ledgers[id] == t.ledgers[id])
    ensures ChargeNext(t', policies, delta, at, id).Ok? <==> LedgerTakes(t, policies, at, id, delta)
  {
  }

  // ---- ApplyCounters ----

  // What a plugin reports is in range, and every ledger it adds to can take it.
  ghost predicate CountersFit(db: Db, plugin: Id, list: seq<Option<Reading>>, at: Instant) {
    && (forall entry :: entry in list ==> ReadingFits(entry))
    && (forall id :: LedgerTakes(db.traffic, db.policies, at, id, Growth(db.counters, BoundKeys(db.policies), plugin, list, id)))
  }

  // Then, and only then, the call succeeds, in whatever order it charges.
  lemma CountersSucceed(db: Db, plugin: Id, list: seq<Option<Reading>>, at: Instant, order: seq<Id>)
    requires forall i, j :: 0 <= i < j < |order| ==> order[i] != order[j]
    ensures CountersFit(db, plugin, list, at) ==> CountersApplied(db, plugin, list, at, order).Ok?
    ensures CountersApplied(db, plugin, list, at, order).Ok? && (forall id :: id in Deltas(db, plugin, list) ==> id in order) ==>
              CountersFit(db, plugin, list, at)
  {
    var bound := BoundKeys(db.policies);
    var tally := CountAll(Tally(db.counters, map[]), bound, plugin, list);
    if CountersFit(db, plugin, list, at) {
      forall id
        ensures FitsUnsigned(Growth(db.counters, bound, plugin, list, id))
      {
        assert LedgerTakes(db.traffic, db.policies, at, id, Growth(db.counters, bound, plugin, list, id));
      }
      CountSucceeds(db.counters, bound, plugin, list);
    }
    if tally.Ok? {
      CountedFits(db.counters, bound, plugin, list);
      ChargingSucceeds(db.traffic, db.policies, tally.value.deltas, at, order);
      forall id
        ensures Delta(tally.value.deltas, id) == Growth(db.counters, bound, plugin, list, id)
      {
        DeltasAreGrowth(db.counters, bound, plugin, list, id);
      }
    }
  }
}
