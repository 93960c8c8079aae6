// The loops of the policy store's transactions, each proved to compute what the transaction as
// a function says (internal/policy/store.go).
module PolicyBuckets {
  import opened Prelude
  import opened PolicyModel
  import opened PolicyCounters
  import opened PolicyTraffic
  import opened PolicyActivity
  import opened PolicyTransactions
  import opened RevisionTable

  // ---- Walks over buckets ----

  // deleteMatching, and the other cursor walks that delete as they go.
  method DeleteMatching<K(==), V>(bucket: map<K, V>, remove: (K, V) -> bool) returns (kept: map<K, V>)
    ensures kept == map k | k in bucket && !remove(k, bucket[k]) :: bucket[k]
  {
    kept := bucket;
    var todo := bucket.Keys;
    while todo != {}
      invariant todo <= bucket.Keys
      invariant kept == map k | k in bucket && (k in todo || !remove(k, bucket[k])) :: bucket[k]
      decreases |todo|
    {
      var key := Pick(todo);
      todo := todo - {key};
      if remove(key, bucket[key]) { kept := kept - {key}; }
    }
  }

  // cleanAuthorizationActivity
  method CleanActivity(a: Activity, p: Policy, now: int) returns (c: Activity)
    ensures c == Cleaned(a, p, now)
  {
    var cutoff := now - p.activityWindow;
    var slots := DeleteMatching(a.slots, (k: ActivityKey, seenAt: int) => k.authorization == p.id && seenAt <= cutoff);
    var blocks := DeleteMatching(a.blocks, (k: ActivityKey, expiresAt: int) => k.authorization == p.id && expiresAt <= now);
    c := Activity(slots, blocks);
    assert c.slots == Cleaned(a, p, now).slots;
    assert c.blocks == Cleaned(a, p, now).blocks;
  }

  // The key is that of an unqueued ledger of one of these authorizations.
  predicate UnqueuedKey(t: Traffic, ids: set<Id>, k: TrafficKey) {
    && k.authorization in ids && k.authorization in t.ledgers
    && t.ledgers[k.authorization].queued < t.ledgers[k.authorization].revision
    && k == LedgerKey(k.authorization, t.ledgers[k.authorization])
  }

  ghost predicate AllPreserved(t: Traffic, ids: set<Id>, pending: map<TrafficKey, TrafficEvent>) {
    forall k ::
      && (k in pending <==> k in t.pending || UnqueuedKey(t, ids, k))
      && (k in pending ==> pending[k] == if UnqueuedKey(t, ids, k) then LedgerEvent(k.authorization, t.ledgers[k.authorization]) else t.pending[k])
  }

  lemma PreservedIsDropped(t: Traffic, retained: set<Id>, pending: map<TrafficKey, TrafficEvent>)
    requires AllPreserved(t, t.ledgers.Keys - retained, pending)
    ensures pending == DropLedgers(t, retained).pending
  {
    var dropped := DropLedgers(t, retained).pending;
    forall k
      ensures k in pending <==> k in dropped
      ensures k in pending ==> pending[k] == dropped[k]
    {
      assert UnqueuedKey(t, t.ledgers.Keys - retained, k) || k in t.pending <==> k in dropped;
    }
  }

  // What the ledger walk of deleteRemovedAuthorizationState preserves ...
  method PreserveRemoved(t: Traffic, retained: set<Id>) returns (pending: map<TrafficKey, TrafficEvent>)
    ensures pending == DropLedgers(t, retained).pending
  {
    pending := t.pending;
    var todo := t.ledgers.Keys;
    ghost var dropped: set<Id> := {};
    while todo != {}
      invariant todo <= t.ledgers.Keys && dropped == t.ledgers.Keys - todo - retained
      invariant AllPreserved(t, dropped, pending)
      decreases |todo|
    {
      var id := Pick(todo);
      todo := todo - {id};
      if id !in retained {
        var l := t.ledgers[id];
        if l.queued < l.revision { pending := pending[LedgerKey(id, l) := LedgerEvent(id, l)]; }
        dropped := dropped + {id};
      }
    }
    assert dropped == t.ledgers.Keys - retained;
    PreservedIsDropped(t, retained, pending);
  }

  // ... and deletes.
  method DropRemovedLedgers(t: Traffic, retained: set<Id>) returns (r: Traffic)
    ensures r == DropLedgers(t, retained)
  {
    var pending := PreserveRemoved(t, retained);
    var ledgers := DeleteMatching(t.ledgers, (id: Id, l: Ledger) => id !in retained);
    r := Traffic(ledgers, pending);
    assert r.ledgers == DropLedgers(t, retained).ledgers;
  }

  // The other walks of deleteRemovedAuthorizationState.
  method DropRemovedStatuses(statuses: map<Id, StatusState>, retained: set<Id>) returns (r: map<Id, StatusState>)
    ensures r == RetainedStatuses(statuses, retained)
  {
    r := DeleteMatching(statuses, (id: Id, s: StatusState) => id !in retained);
  }

  method DropRemovedActivity(a: Activity, retained: set<Id>) returns (r: Activity)
    ensures r == RetainedActivity(a, retained)
  {
    var slots := DeleteMatching(a.slots, (k: ActivityKey, seenAt: int) => k.authorization !in retained);
    var blocks := DeleteMatching(a.blocks, (k: ActivityKey, expiresAt: int) => k.authorization !in retained);
    r := Activity(slots, blocks);
    assert slots == RetainedActivity(a, retained).slots && blocks == RetainedActivity(a, retained).blocks;
  }

  method DropRemovedCounters(counters: map<ServiceKey, CounterState>, retained: set<Id>)
    returns (r: map<ServiceKey, CounterState>)
    ensures r == RetainedCounters(counters, retained)
  {
    r := DeleteMatching(counters, (k: ServiceKey, c: CounterState) => k.authorization !in retained);
  }

  lemma BoundKeysOfMore(policies: seq<Policy>, n: nat)
    requires n < |policies|
    ensures BoundKeys(policies[..n + 1]) == BoundKeys(policies[..n]) + KeysOf(policies[n], |policies[n].bindings|)
  {
    forall k | k in BoundKeys(policies[..n])
      ensures k in BoundKeys(policies[..n + 1])
    {
      var i, j :| 0 <= i < n && 0 <= j < |policies[i].bindings| && k == KeyOf(policies[i], policies[i].bindings[j]);
      assert policies[..n + 1][i] == policies[i];
    }
    forall k | k in KeysOf(policies[n], |policies[n].bindings|)
      ensures k in BoundKeys(policies[..n + 1])
    {
      assert policies[..n + 1][n] == policies[n];
    }
  }

  function KeysOf(p: Policy, n: nat): set<ServiceKey>
    requires n <= |p.bindings|
  {
    set j | 0 <= j < n :: KeyOf(p, p.bindings[j])
  }

  // The services bound by a snapshot.
  method Bindings(policies: seq<Policy>) returns (bound: set<ServiceKey>)
    ensures bound == BoundKeys(policies)
  {
    bound := {};
    for i := 0 to |policies|
      invariant bound == BoundKeys(policies[..i])
    {
      var p := policies[i];
      for j := 0 to |p.bindings|
        invariant bound == BoundKeys(policies[..i]) + KeysOf(p, j)
      {
        bound := bound + {KeyOf(p, p.bindings[j])};
      }
      BoundKeysOfMore(policies, i);
    }
    assert policies[..|policies|] == policies;
  }

  method Authorizations(policies: seq<Policy>) returns (ids: set<Id>)
    ensures ids == Ids(policies)
  {
    ids := {};
    for i := 0 to |policies|
      invariant ids == Ids(policies[..i])
    {
      assert Ids(policies[..i + 1]) == Ids(policies[..i]) + {policies[i].id} by {
        assert forall k :: 0 <= k < i ==> policies[..i + 1][k] == policies[..i][k];
        assert policies[..i + 1][i] == policies[i];
      }
      ids := ids + {policies[i].id};
    }
    assert policies[..|policies|] == policies;
  }

  // The orphan list of Reconcile: what is bound again leaves it, what is bound no more
  // joins it.
  method Unbind(orphans: set<ServiceKey>, policies: seq<Policy>, bound: set<ServiceKey>) returns (r: set<ServiceKey>)
    ensures r == orphans - bound + (BoundKeys(policies) - bound)
  {
    r := orphans;
    var todo := bound;
    while todo != {}
      invariant todo <= bound && r == orphans - (bound - todo)
      decreases |todo|
    {
      var key := Pick(todo);
      todo := todo - {key};
      r := r - {key};
    }
    assert r == orphans - bound;
    for i := 0 to |policies|
      invariant r == orphans - bound + (BoundKeys(policies[..i]) - bound)
    {
      var p := policies[i];
      for j := 0 to |p.bindings|
        invariant r == orphans - bound + (BoundKeys(policies[..i]) + KeysOf(p, j) - bound)
      {
        var key := KeyOf(p, p.bindings[j]);
        assert KeysOf(p, j + 1) == KeysOf(p, j) + {key};
        if key !in bound { r := r + {key}; }
      }
      BoundKeysOfMore(policies, i);
    }
    assert policies[..|policies|] == policies;
  }

  method CountOf(slots: map<ActivityKey, int>, id: Id) returns (count: nat)
    ensures count == |set k | k in slots && k.authorization == id|
  {
    count := 0;
    var todo := slots.Keys;
    ghost var seen: set<ActivityKey> := {};
    while todo != {}
      invariant todo <= slots.Keys
      invariant seen == set k | k in slots && k !in todo && k.authorization == id
      invariant count == |seen|
      decreases |todo|
    {
      var key := Pick(todo);
      todo := todo - {key};
      if key.authorization == id {
        count := count + 1;
        seen := seen + {key};
      }
    }
    assert seen == set k | k in slots && k.authorization == id;
  }

  // A refresh that failed part of the way has failed.
  lemma {:induction false} RefreshStaysFailed(db: Db, at: Instant, n: nat, m: nat)
    requires n <= m <= |db.policies| && RefreshUpTo(db, at, n) == Err(Failed)
    ensures RefreshUpTo(db, at, m) == Err(Failed)
    decreases m - n
  {
    if n < m {
      RefreshStaysFailed(db, at, n, m - 1);
    }
  }

  lemma {:induction false} CountStaysFailed(t: Tally, bound: set<ServiceKey>, plugin: Id, list: seq<Option<Reading>>, n: nat, m: nat)
    requires n <= m <= |list| && CountAll(t, bound, plugin, list[..n]) == Err(Failed)
    ensures CountAll(t, bound, plugin, list[..m]) == Err(Failed)
    decreases m - n
  {
    if n < m {
      CountStaysFailed(t, bound, plugin, list, n, m - 1);
      assert list[..m][..m - 1] == list[..m - 1];
    }
  }

  predicate DeltasFit(deltas: map<Id, Bytes>) {
    forall id :: id in deltas ==> deltas[id].up <= MAX_UINT64 && deltas[id].down <= MAX_UINT64
  }

  // Ledgers are within their capacity, and pending events are stored under their own keys.
  ghost predicate LedgersFit(t: Traffic) {
    && (forall id :: id in t.ledgers ==> t.ledgers[id].up <= MAX_INT64 && t.ledgers[id].down <= MAX_INT64)
    && (forall k :: k in t.pending ==> KeyOfEvent(t.pending[k]) == k)
  }

  // Counts one reading, in the source's 64-bit arithmetic: no sum or difference wraps.
  method CountReading(t: Tally, bound: set<ServiceKey>, plugin: Id, entry: Option<Reading>)
    returns (r: Result<Tally, StoreError>)
    requires DeltasFit(t.deltas)
    ensures r.Ok? ==> DeltasFit(r.value.deltas)
    ensures r == CountOne(t, bound, plugin, entry)
  {
    if entry == None { return Ok(t); }
    var counter := entry.value;
    if counter.up > MAX_INT64 || counter.down > MAX_INT64 { return Err(Failed); }
    var key := KeyFor(plugin, counter);
    if key !in bound { return Ok(t); }
    var up: u64, down: u64 := counter.up, counter.down;
    if key in t.counters {
      var previous := t.counters[key];
      if previous.epoch == counter.epoch && counter.up >= previous.up && counter.down >= previous.down {
        up := counter.up - previous.up;
        down := counter.down - previous.down;
      }
    }
    var current := Delta(t.deltas, counter.authorization);
    var roomUp: u64, roomDown: u64 := MAX_UINT64 - current.up, MAX_UINT64 - current.down;
    if roomUp < up || roomDown < down { return Err(Failed); }
    var newUp: u64, newDown: u64 := current.up + up, current.down + down;
    return Ok(Tally(t.counters[key := CounterState(counter.epoch, counter.up, counter.down)],
                    t.deltas[counter.authorization := Bytes(newUp, newDown)]));
  }

  method Count(t: Tally, bound: set<ServiceKey>, plugin: Id, list: seq<Option<Reading>>)
    returns (r: Result<Tally, StoreError>)
    requires DeltasFit(t.deltas)
    ensures r == CountAll(t, bound, plugin, list)
  {
    var tally := t;
    assert list[..|list|] == list;
    for i := 0 to |list|
      invariant CountAll(t, bound, plugin, list[..i]) == Ok(tally) && DeltasFit(tally.deltas)
    {
      assert list[..i + 1][..i] == list[..i];
      var counted := CountReading(tally, bound, plugin, list[i]);
      if counted.Err? {
        CountStaysFailed(t, bound, plugin, list, i + 1, |list|);
        return Err(Failed);
      }
      tally := counted.value;
    }
    return Ok(tally);
  }

  // Adds to one ledger, opening it if it is not that of the period.
  method ChargeOne(t: Traffic, id: Id, period: Period, delta: Bytes) returns (r: Result<Traffic, StoreError>)
    requires LedgersFit(t)
    ensures r == ChargeLedger(t, id, period, delta)
    ensures r.Ok? ==> LedgersFit(r.value)
  {
    var traffic := EnsureLedger(t, id, period);
    var l := traffic.ledgers[id];
    var roomUp: u64, roomDown: u64 := MAX_INT64 - l.up, MAX_INT64 - l.down;
    if roomUp < delta.up || roomDown < delta.down { return Err(Failed); }
    if l.revision >= MAX_INT64 { return Err(Failed); }
    var up: u64, down: u64, revision: u64 := l.up + delta.up, l.down + delta.down, l.revision + 1;
    return Ok(traffic.(ledgers := traffic.ledgers[id := l.(up := up, down := down, revision := revision)]));
  }

  method ChargeAuthorization(t: Traffic, policies: seq<Policy>, delta: Bytes, at: Instant, id: Id)
    returns (r: Result<Traffic, StoreError>)
    requires LedgersFit(t)
    ensures r == ChargeNext(t, policies, delta, at, id)
    ensures r.Ok? ==> LedgersFit(r.value)
  {
    if delta.up == 0 && delta.down == 0 { return Ok(t); }
    var p := FindPolicy(policies, id);
    if p == None { return Err(Failed); }
    var period := CurrentPeriod(p.value, at);
    if period == None { return Err(Failed); }
    r := ChargeOne(t, id, period.value, delta);
  }

  lemma EnumeratesMore<T(!new)>(order: seq<T>, s: set<T>, x: T)
    requires Enumerates(order, s) && x !in s
    ensures Enumerates(order + [x], s + {x})
  {
  }

  // One more element of a walk over a set.
  lemma WalksMore<T(!new)>(order: seq<T>, all: set<T>, todo: set<T>, x: T)
    requires Enumerates(order, all - todo) && todo <= all && x in todo
    ensures Enumerates(order + [x], all - (todo - {x}))
  {
    EnumeratesMore(order, all - todo, x);
    assert all - (todo - {x}) == all - todo + {x};
  }

  lemma WalkIsOver<T(!new)>(order: seq<T>, all: set<T>, todo: set<T>)
    requires Enumerates(order, all - todo) && todo == {}
    ensures Enumerates(order, all)
  {
    assert all - todo == all;
  }

  lemma ChargeAllMore(t: Traffic, policies: seq<Policy>, deltas: map<Id, Bytes>, at: Instant, order: seq<Id>, id: Id)
    requires ChargeAll(t, policies, deltas, at, order).Ok?
    ensures ChargeAll(t, policies, deltas, at, order + [id])
            == ChargeNext(ChargeAll(t, policies, deltas, at, order).value, policies, Delta(deltas, id), at, id)
  {
    assert (order + [id])[..|order|] == order;
  }

  // Charges the deltas to the ledgers, in whatever order they are walked; `order` is that
  // order, as far as the walk came.
  method ChargeLedgers(t: Traffic, policies: seq<Policy>, deltas: map<Id, Bytes>, at: Instant)
    returns (r: Result<Traffic, StoreError>, ghost order: seq<Id>)
    requires LedgersFit(t)
    ensures r == ChargeAll(t, policies, deltas, at, order)
    ensures r.Ok? ==> Enumerates(order, deltas.Keys) && LedgersFit(r.value)
    ensures forall i, j :: 0 <= i < j < |order| ==> order[i] != order[j]
  {
    var traffic, todo := t, deltas.Keys;
    order := [];
    while todo != {}
      invariant todo <= deltas.Keys && Enumerates(order, deltas.Keys - todo)
      invariant ChargeAll(t, policies, deltas, at, order) == Ok(traffic) && LedgersFit(traffic)
      decreases |todo|
    {
      var id := Pick(todo);
      WalksMore(order, deltas.Keys, todo, id);
      ChargeAllMore(t, policies, deltas, at, order, id);
      todo, order := todo - {id}, order + [id];
      var charged := ChargeAuthorization(traffic, policies, deltas[id], at, id);
      if charged.Err? { return Err(charged.error), order; }
      traffic := charged.value;
    }
    WalkIsOver(order, deltas.Keys, todo);
    return Ok(traffic), order;
  }

  // ---- What is waiting to be queued ----

  predicate IsUnqueuedLedger(t: Traffic, e: TrafficEvent) {
    && e.authorization in t.ledgers && t.ledgers[e.authorization].queued < t.ledgers[e.authorization].revision
    && e == LedgerEvent(e.authorization, t.ledgers[e.authorization])
  }

  // No event waits both as pending and with a ledger.
  ghost predicate KeysApart(t: Traffic) {
    forall id :: id in t.ledgers ==> LedgerKey(id, t.ledgers[id]) !in t.pending
  }

  ghost predicate NoDuplicates<T(!new)>(s: seq<T>) {
    forall i, j :: 0 <= i < j < |s| ==> s[i] != s[j]
  }

  lemma NoDuplicatesMore<T(!new)>(s: seq<T>, x: T)
    requires NoDuplicates(s) && x !in s
    ensures NoDuplicates(s + [x])
  {
  }

  // The order in which waiting events are queued: authorizations apart, the earliest period
  // first.
  predicate InOrder(a: TrafficEvent, b: TrafficEvent) {
    || a.authorization < b.authorization
    || (a.authorization == b.authorization && a.period.startsAt <= b.period.startsAt)
  }

  ghost predicate Sorted(s: seq<TrafficEvent>) {
    forall i, j :: 0 <= i < j < |s| ==> InOrder(s[i], s[j])
  }

  method Insert(s: seq<TrafficEvent>, e: TrafficEvent) returns (r: seq<TrafficEvent>)
    requires Sorted(s)
    ensures Sorted(r) && forall x :: x in r <==> x in s || x == e
    ensures NoDuplicates(s) && e !in s ==> NoDuplicates(r)
  {
    var n := |s|;
    while n > 0 && !InOrder(s[n - 1], e)
      invariant 0 <= n <= |s|
      invariant forall i :: n <= i < |s| ==> InOrder(e, s[i])
    {
      n := n - 1;
    }
    r := s[..n] + [e] + s[n..];
    InsertedIsSorted(s, n, e);
    assert s == s[..n] + s[n..];
  }

  lemma InsertedIsSorted(s: seq<TrafficEvent>, n: nat, e: TrafficEvent)
    requires Sorted(s) && n <= |s|
    requires n > 0 ==> InOrder(s[n - 1], e)
    requires forall i :: n <= i < |s| ==> InOrder(e, s[i])
    ensures Sorted(s[..n] + [e] + s[n..])
    ensures NoDuplicates(s) && e !in s ==> NoDuplicates(s[..n] + [e] + s[n..])
  {
    forall i | 0 <= i < n
      ensures InOrder(s[i], e)
    {
      assert i < n - 1 ==> InOrder(s[i], s[n - 1]);
    }
  }

  // PendingTrafficSnapshots without its refresh: collects what waits, in bucket order, and
  // sorts it.
  method SortedUnqueued(t: Traffic) returns (list: seq<TrafficEvent>)
    requires LedgersFit(t)
    ensures forall e :: e in list <==> Unqueued(t, e)
    ensures Sorted(list) && (KeysApart(t) ==> NoDuplicates(list))
  {
    var unsorted := ListUnqueued(t);
    list := [];
    for i := 0 to |unsorted|
      invariant forall e :: e in list <==> e in unsorted[..i]
      invariant Sorted(list) && (KeysApart(t) ==> NoDuplicates(list))
    {
      assert unsorted[..i + 1] == unsorted[..i] + [unsorted[i]];
      list := Insert(list, unsorted[i]);
    }
    assert unsorted[..|unsorted|] == unsorted;
  }

  method ListUnqueued(t: Traffic) returns (list: seq<TrafficEvent>)
    requires LedgersFit(t)
    ensures forall e :: e in list <==> Unqueued(t, e)
    ensures KeysApart(t) ==> NoDuplicates(list)
  {
    list := [];
    var todo := t.pending.Keys;
    while todo != {}
      invariant todo <= t.pending.Keys
      invariant forall e :: e in list <==> KeyOfEvent(e) in t.pending && KeyOfEvent(e) !in todo && t.pending[KeyOfEvent(e)] == e
      invariant NoDuplicates(list)
      decreases |todo|
    {
      var k := Pick(todo);
      NoDuplicatesMore(list, t.pending[k]);
      todo := todo - {k};
      list := list + [t.pending[k]];
    }
    var ids := t.ledgers.Keys;
    while ids != {}
      invariant ids <= t.ledgers.Keys
      invariant forall e :: e in list <==>
                  || (KeyOfEvent(e) in t.pending && t.pending[KeyOfEvent(e)] == e)
                  || (e.authorization !in ids && IsUnqueuedLedger(t, e))
      invariant KeysApart(t) ==> NoDuplicates(list)
      decreases |ids|
    {
      var id := Pick(ids);
      if t.ledgers[id].queued < t.ledgers[id].revision {
        var e := LedgerEvent(id, t.ledgers[id]);
        if KeysApart(t) { NoDuplicatesMore(list, e); }
        list := list + [e];
      }
      ids := ids - {id};
    }
  }

  // PendingStatuses, whose order is left open.
  method ListStatuses(statuses: map<Id, StatusState>) returns (list: seq<StatusEvent>)
    ensures forall e :: e in list <==> exists id :: id in statuses && !statuses[id].queued && statuses[id].event == e
  {
    list := [];
    var todo := statuses.Keys;
    while todo != {}
      invariant todo <= statuses.Keys
      invariant forall e :: e in list <==> exists id :: id in statuses && id !in todo && !statuses[id].queued && statuses[id].event == e
      decreases |todo|
    {
      var id := Pick(todo);
      todo := todo - {id};
      if !statuses[id].queued { list := list + [statuses[id].event]; }
    }
  }

  // ---- RefreshStatuses ----

  method OrphansOf(orphans: set<ServiceKey>, id: Id) returns (found: bool)
    ensures found <==> exists k :: k in orphans && k.authorization == id
  {
    found := false;
    var todo := orphans;
    while todo != {}
      invariant todo <= orphans
      invariant found <==> exists k :: k in orphans && k !in todo && k.authorization == id
      decreases |todo|
    {
      var k := Pick(todo);
      todo := todo - {k};
      if k.authorization == id { found := true; }
    }
  }

  predicate PluginBlocksApplied(db: Db, plugin: Id, instances: map<Id, Id>) {
    plugin in instances && (plugin in db.blocks.rows ==> !NeedsApply(db.appliedBlocks, plugin, db.blocks.rows[plugin], instances[plugin]))
  }

  // authorizationApplied
  method CheckApplied(db: Db, p: Policy, instances: map<Id, Id>) returns (applied: bool)
    ensures applied <==> AuthorizationApplied(db, p, instances)
  {
    var orphaned := OrphansOf(db.orphans, p.id);
    if orphaned { return false; }
    var checked: set<Id> := {};
    for j := 0 to |p.bindings|
      invariant forall i :: 0 <= i < j ==> BindingApplied(db, p, p.bindings[i], instances)
      invariant forall plugin :: plugin in checked ==> PluginBlocksApplied(db, plugin, instances)
    {
      var b := p.bindings[j];
      if b.plugin !in instances { return false; }
      var instance, key := instances[b.plugin], KeyOf(p, b);
      if key !in db.services.rows { return false; }
      if key !in db.appliedServices || db.appliedServices[key].instance != instance
         || db.appliedServices[key].row != db.services.rows[key] {
        assert !BindingApplied(db, p, p.bindings[j], instances);
        return false;
      }
      if b.plugin !in checked {
        checked := checked + {b.plugin};
        if b.plugin in db.blocks.rows {
          if b.plugin !in db.appliedBlocks || db.appliedBlocks[b.plugin].instance != instance
             || db.appliedBlocks[b.plugin].row != db.blocks.rows[b.plugin] {
            assert !BindingApplied(db, p, p.bindings[j], instances);
            return false;
          }
        }
      }
    }
    return true;
  }
}
