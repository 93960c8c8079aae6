// From plugin byte counters to charges (ApplyCounters in internal/policy/store.go).
module PolicyCounters {
  import opened Prelude
  import opened PolicyModel

  // One counter as a plugin reports it; the list a plugin returns may hold nil entries.
  datatype Reading = Reading(authorization: Id, service: Id, epoch: Id, up: u64, down: u64)

  lemma AddAssociative(a: Bytes, b: Bytes, c: Bytes)
    ensures Add(Add(a, b), c) == Add(a, Add(b, c))
  {
  }

  lemma AddSwaps(a: Bytes, b: Bytes, c: Bytes)
    ensures Add(Add(a, b), c) == Add(Add(a, c), b)
  {
  }

  // ---- One counter ----

  predicate Continues(a: CounterState, b: CounterState) {
    a.epoch == b.epoch && a.up <= b.up && a.down <= b.down
  }

  // What a reading adds to the ledger: the growth since the previous reading, or all of it
  // when the counter was restarted.
  function Charge(previous: Option<CounterState>, c: CounterState): (b: Bytes)
    ensures b.up <= c.up && b.down <= c.down
  {
    if previous.Some? && Continues(previous.value, c)
    then Bytes(c.up - previous.value.up, c.down - previous.value.down)
    else Bytes(c.up, c.down)
  }

  // The sum of the charges of successive readings of one counter.
  function Total(previous: Option<CounterState>, cs: seq<CounterState>): Bytes
    decreases |cs|
  {
    if cs == [] then Bytes(0, 0)
    else Add(Total(previous, cs[..|cs| - 1]), Charge(Latest(previous, cs[..|cs| - 1]), cs[|cs| - 1]))
  }

  function Latest(previous: Option<CounterState>, cs: seq<CounterState>): Option<CounterState> {
    if cs == [] then previous else Some(cs[|cs| - 1])
  }

  // A reading ends a run when the counter does not continue after it.
  predicate EndsRun(cs: seq<CounterState>, i: nat)
    requires i < |cs|
  {
    i == |cs| - 1 || !Continues(cs[i], cs[i + 1])
  }

  // The sum of the readings, among the first n, that end a maximal run of non-decreasing
  // readings of one epoch.
  function RunEnds(cs: seq<CounterState>, n: nat): Bytes
    requires n <= |cs|
  {
    if n == 0 then Bytes(0, 0)
    else if EndsRun(cs, n - 1) then Add(RunEnds(cs, n - 1), Bytes(cs[n - 1].up, cs[n - 1].down))
    else RunEnds(cs, n - 1)
  }

  // The closed form: what is charged for a counter is the sum of the last readings of its
  // maximal runs.
  lemma {:induction false} ClosedForm(cs: seq<CounterState>)
    ensures Total(None, cs) == RunEnds(cs, |cs|)
    decreases |cs|
  {
    if cs != [] {
      var front := cs[..|cs| - 1];
      ClosedForm(front);
      if front != [] {
        RunEndsOfFront(cs, |front| - 1);
      }
    }
  }

  lemma {:induction false} RunEndsOfFront(cs: seq<CounterState>, n: nat)
    requires n + 1 < |cs|
    ensures RunEnds(cs, n) == RunEnds(cs[..|cs| - 1], n)
    decreases n
  {
    if n > 0 {
      RunEndsOfFront(cs, n - 1);
      assert cs[..|cs| - 1][n - 1] == cs[n - 1] && cs[..|cs| - 1][n] == cs[n];
    }
  }

  // Reading a counter twice charges nothing the second time.
  lemma DuplicateReadingIsFree(previous: Option<CounterState>, cs: seq<CounterState>)
    requires cs != []
    ensures Total(previous, cs + [cs[|cs| - 1]]) == Total(previous, cs)
  {
    assert (cs + [cs[|cs| - 1]])[..|cs|] == cs;
  }

  // ---- A whole list of counters ----

  datatype Tally = Tally(counters: map<ServiceKey, CounterState>, deltas: map<Id, Bytes>)

  function Delta(deltas: map<Id, Bytes>, id: Id): Bytes {
    if id in deltas then deltas[id] else Bytes(0, 0)
  }

  function Stored(counters: map<ServiceKey, CounterState>, key: ServiceKey): Option<CounterState> {
    if key in counters then Some(counters[key]) else None
  }

  function StateOf(r: Reading): CounterState { CounterState(r.epoch, r.up, r.down) }

  function KeyFor(plugin: Id, r: Reading): ServiceKey { ServiceKey(plugin, r.authorization, r.service) }

  function CountOne(t: Tally, bound: set<ServiceKey>, plugin: Id, entry: Option<Reading>): Result<Tally, StoreError> {
    if entry == None then Ok(t)
    else
      var r := entry.value;
      var key := KeyFor(plugin, r);
      if r.up > MAX_INT64 || r.down > MAX_INT64 then Err(Failed)
      else if key !in bound then Ok(t)
      else
        var charge := Charge(Stored(t.counters, key), StateOf(r));
        var delta := Delta(t.deltas, r.authorization);
        if MAX_UINT64 - delta.up < charge.up || MAX_UINT64 - delta.down < charge.down then Err(Failed)
        else Ok(Tally(t.counters[key := StateOf(r)], t.deltas[r.authorization := Add(delta, charge)]))
  }

  function CountAll(t: Tally, bound: set<ServiceKey>, plugin: Id, list: seq<Option<Reading>>): Result<Tally, StoreError>
    decreases |list|
  {
    if list == [] then Ok(t)
    else
      var r := CountAll(t, bound, plugin, list[..|list| - 1]);
      if r.Err? then r else CountOne(r.value, bound, plugin, list[|list| - 1])
  }

  // The readings of one bound service within a list.
  function ReadingsOf(bound: set<ServiceKey>, plugin: Id, list: seq<Option<Reading>>, key: ServiceKey): seq<CounterState>
    decreases |list|
  {
    if list == [] then []
    else
      var rest := ReadingsOf(bound, plugin, list[..|list| - 1], key);
      var last := list[|list| - 1];
      if last.Some? && key in bound && KeyFor(plugin, last.value) == key then rest + [StateOf(last.value)] else rest
  }

  // The charges made for the services of one authorization, taken service by service.
  function ChargesTo(counters: map<ServiceKey, CounterState>, bound: set<ServiceKey>, plugin: Id,
                     list: seq<Option<Reading>>, keys: seq<ServiceKey>): Bytes
    decreases |keys|
  {
    if keys == [] then Bytes(0, 0)
    else
      var key := keys[|keys| - 1];
      Add(ChargesTo(counters, bound, plugin, list, keys[..|keys| - 1]),
          Total(Stored(counters, key), ReadingsOf(bound, plugin, list, key)))
  }

  // Services of one authorization, among them all that are bound on the plugin.
  ghost predicate ServicesOf(keys: seq<ServiceKey>, bound: set<ServiceKey>, plugin: Id, authorization: Id) {
    && (forall i, j :: 0 <= i < j < |keys| ==> keys[i] != keys[j])
    && (forall k :: k in keys ==> k.authorization == authorization)
    && (forall k :: k in bound && k.plugin == plugin && k.authorization == authorization ==> k in keys)
  }

  // After a list has been counted, each counter holds the last reading of its service.
  lemma {:induction false} CountersHoldLatest(t: Tally, bound: set<ServiceKey>, plugin: Id, list: seq<Option<Reading>>, key: ServiceKey)
    requires CountAll(t, bound, plugin, list).Ok?
    ensures Stored(CountAll(t, bound, plugin, list).value.counters, key)
            == Latest(Stored(t.counters, key), ReadingsOf(bound, plugin, list, key))
    decreases |list|
  {
    if list != [] {
      CountersHoldLatest(t, bound, plugin, list[..|list| - 1], key);
    }
  }

  // The last entry of a list is a reading of this bound service.
  predicate LastIsFor(bound: set<ServiceKey>, plugin: Id, list: seq<Option<Reading>>, key: ServiceKey)
    requires list != []
  {
    var last := list[|list| - 1];
    last.Some? && key in bound && KeyFor(plugin, last.value) == key
  }

  // The charge that reading makes.
  function LastCharge(counters: map<ServiceKey, CounterState>, bound: set<ServiceKey>, plugin: Id,
                      list: seq<Option<Reading>>, key: ServiceKey): Bytes
    requires list != [] && LastIsFor(bound, plugin, list, key)
  {
    Charge(Latest(Stored(counters, key), ReadingsOf(bound, plugin, list[..|list| - 1], key)),
           StateOf(list[|list| - 1].value))
  }

  // A reading of none of the services adds nothing to their charges.
  lemma {:induction false} ChargesToOthers(counters: map<ServiceKey, CounterState>, bound: set<ServiceKey>, plugin: Id,
                                           list: seq<Option<Reading>>, keys: seq<ServiceKey>)
    requires list != [] && forall k :: k in keys ==> !LastIsFor(bound, plugin, list, k)
    ensures ChargesTo(counters, bound, plugin, list, keys) == ChargesTo(counters, bound, plugin, list[..|list| - 1], keys)
    decreases |keys|
  {
    if keys != [] {
      ChargesToOthers(counters, bound, plugin, list, keys[..|keys| - 1]);
      assert !LastIsFor(bound, plugin, list, keys[|keys| - 1]);
    }
  }

  // A reading of one of the services adds its charge once.
  lemma {:induction false} ChargesToOne(counters: map<ServiceKey, CounterState>, bound: set<ServiceKey>, plugin: Id,
                                        list: seq<Option<Reading>>, keys: seq<ServiceKey>, key: ServiceKey)
    requires list != [] && forall i, j :: 0 <= i < j < |keys| ==> keys[i] != keys[j]
    requires key in keys && LastIsFor(bound, plugin, list, key)
    ensures ChargesTo(counters, bound, plugin, list, keys)
            == Add(ChargesTo(counters, bound, plugin, list[..|list| - 1], keys),
                   LastCharge(counters, bound, plugin, list, key))
    decreases |keys|
  {
    var front, last := keys[..|keys| - 1], keys[|keys| - 1];
    var readings := ReadingsOf(bound, plugin, list, last);
    var sum := ChargesTo(counters, bound, plugin, list[..|list| - 1], front);
    var before := Total(Stored(counters, last), ReadingsOf(bound, plugin, list[..|list| - 1], last));
    var charge := LastCharge(counters, bound, plugin, list, key);
    if key == last {
      ChargesToOthers(counters, bound, plugin, list, front);
      assert readings[..|readings| - 1] == ReadingsOf(bound, plugin, list[..|list| - 1], last);
      AddAssociative(sum, before, charge);
    } else {
      ChargesToOne(counters, bound, plugin, list, front, key);
      assert Total(Stored(counters, last), readings) == before;
      AddSwaps(sum, charge, before);
    }
  }

  lemma CountedFor(t: Tally, bound: set<ServiceKey>, plugin: Id, r: Reading)
    requires CountOne(t, bound, plugin, Some(r)).Ok? && KeyFor(plugin, r) in bound
    ensures Delta(CountOne(t, bound, plugin, Some(r)).value.deltas, r.authorization)
            == Add(Delta(t.deltas, r.authorization), Charge(Stored(t.counters, KeyFor(plugin, r)), StateOf(r)))
  {
  }

  lemma CountedForOther(t: Tally, bound: set<ServiceKey>, plugin: Id, entry: Option<Reading>, authorization: Id)
    requires CountOne(t, bound, plugin, entry).Ok?
    requires entry.Some? && KeyFor(plugin, entry.value) in bound ==> entry.value.authorization != authorization
    ensures Delta(CountOne(t, bound, plugin, entry).value.deltas, authorization) == Delta(t.deltas, authorization)
  {
  }

  // What a successful call adds for an authorization is, summed over its services, the
  // total of their charges.
  lemma {:induction false} DeltaIsTotal(t: Tally, bound: set<ServiceKey>, plugin: Id, list: seq<Option<Reading>>,
                                        authorization: Id, keys: seq<ServiceKey>)
    requires CountAll(t, bound, plugin, list).Ok?
    requires ServicesOf(keys, bound, plugin, authorization)
    requires authorization !in t.deltas
    ensures Delta(CountAll(t, bound, plugin, list).value.deltas, authorization)
            == ChargesTo(t.counters, bound, plugin, list, keys)
    decreases |list|
  {
    if list == [] {
      NoReadingsNoCharges(t.counters, bound, plugin, list, keys);
    } else {
      var front, last := list[..|list| - 1], list[|list| - 1];
      var before := CountAll(t, bound, plugin, front).value;
      DeltaIsTotal(t, bound, plugin, front, authorization, keys);
      if last.Some? && last.value.authorization == authorization && KeyFor(plugin, last.value) in bound {
        var key := KeyFor(plugin, last.value);
        CountersHoldLatest(t, bound, plugin, front, key);
        ChargesToOne(t.counters, bound, plugin, list, keys, key);
        CountedFor(before, bound, plugin, last.value);
      } else {
        CountedForOther(before, bound, plugin, last, authorization);
        ChargesToOthers(t.counters, bound, plugin, list, keys);
      }
    }
  }

  lemma {:induction false} NoReadingsNoCharges(counters: map<ServiceKey, CounterState>, bound: set<ServiceKey>, plugin: Id,
                                               list: seq<Option<Reading>>, keys: seq<ServiceKey>)
    requires list == []
    ensures ChargesTo(counters, bound, plugin, list, keys) == Bytes(0, 0)
    decreases |keys|
  {
    if keys != [] {
      NoReadingsNoCharges(counters, bound, plugin, list, keys[..|keys| - 1]);
      assert ReadingsOf(bound, plugin, list, keys[|keys| - 1]) == [];
    }
  }

  // ---- Several calls ----

  // A call of ApplyCounters: the services bound when it is made, the plugin that answered,
  // and what it reported.
  datatype Call = Call(bound: set<ServiceKey>, plugin: Id, list: seq<Option<Reading>>)

  // A counter and the bytes charged for it over several successful calls, whatever
  // plugins they are for and whatever becomes bound or unbound between them.
  function AfterCalls(counters: map<ServiceKey, CounterState>, calls: seq<Call>): Result<map<ServiceKey, CounterState>, StoreError>
    decreases |calls|
  {
    if calls == [] then Ok(counters)
    else
      var before, call := AfterCalls(counters, calls[..|calls| - 1]), calls[|calls| - 1];
      if before.Err? then Err(before.error)
      else
        var r := CountAll(Tally(before.value, map[]), call.bound, call.plugin, call.list);
        if r.Err? then Err(r.error) else Ok(r.value.counters)
  }

  function ChargedInCalls(counters: map<ServiceKey, CounterState>, calls: seq<Call>, key: ServiceKey): Bytes
    requires AfterCalls(counters, calls).Ok?
    decreases |calls|
  {
    if calls == [] then Bytes(0, 0)
    else
      var before, call := AfterCalls(counters, calls[..|calls| - 1]).value, calls[|calls| - 1];
      Add(ChargedInCalls(counters, calls[..|calls| - 1], key),
          Total(Stored(before, key), ReadingsOf(call.bound, call.plugin, call.list, key)))
  }

  function AllReadings(calls: seq<Call>, key: ServiceKey): seq<CounterState>
    decreases |calls|
  {
    if calls == [] then []
    else
      var call := calls[|calls| - 1];
      AllReadings(calls[..|calls| - 1], key) + ReadingsOf(call.bound, call.plugin, call.list, key)
  }

  lemma {:induction false} TotalOfConcatenation(previous: Option<CounterState>, a: seq<CounterState>, b: seq<CounterState>)
    ensures Total(previous, a + b) == Add(Total(previous, a), Total(Latest(previous, a), b))
    ensures Latest(previous, a + b) == Latest(Latest(previous, a), b)
    decreases |b|
  {
    if b == [] {
      assert a + b == a;
    } else {
      var front := b[..|b| - 1];
      var ab := a + b;
      TotalOfConcatenation(previous, a, front);
      assert ab[..|ab| - 1] == a + front && ab[|ab| - 1] == b[|b| - 1];
      assert Latest(previous, a + front) == Latest(Latest(previous, a), front);
      assert Total(previous, ab) == Add(Total(previous, a + front), Charge(Latest(previous, a + front), ab[|ab| - 1]));
    }
  }

  // However the readings of a service are grouped into calls, whatever is bound and whichever
  // plugins are asked in between, what is charged for it is the closed form of all the
  // readings made while it was bound, in order.
  lemma {:induction false} GroupingIsIrrelevant(counters: map<ServiceKey, CounterState>, calls: seq<Call>, key: ServiceKey)
    requires key !in counters
    requires AfterCalls(counters, calls).Ok?
    ensures var cs := AllReadings(calls, key);
            && ChargedInCalls(counters, calls, key) == RunEnds(cs, |cs|)
            && Stored(AfterCalls(counters, calls).value, key) == Latest(None, cs)
    decreases |calls|
  {
    if calls != [] {
      var front, call := calls[..|calls| - 1], calls[|calls| - 1];
      var before := AfterCalls(counters, front).value;
      GroupingIsIrrelevant(counters, front, key);
      ClosedForm(AllReadings(front, key));
      CountersHoldLatest(Tally(before, map[]), call.bound, call.plugin, call.list, key);
      TotalOfConcatenation(None, AllReadings(front, key), ReadingsOf(call.bound, call.plugin, call.list, key));
      ClosedForm(AllReadings(calls, key));
    }
  }
}
