// Ledgers, traffic snapshots and their convergence at the center
// (ensureLedger, preservePendingTraffic, ApplyCounters, MarkTrafficQueued and
// deleteRemovedAuthorizationState in internal/policy/store.go).
module PolicyTraffic {
  import opened Prelude
  import opened PolicyModel

  function LedgerEvent(id: Id, l: Ledger): TrafficEvent {
    TrafficEvent(id, l.period, l.revision, l.up, l.down)
  }

  function KeyOfEvent(e: TrafficEvent): TrafficKey { TrafficKey(e.authorization, e.period.id) }

  function LedgerKey(id: Id, l: Ledger): TrafficKey { TrafficKey(id, l.period.id) }

  // preservePendingTraffic
  function Preserve(t: Traffic, id: Id): map<TrafficKey, TrafficEvent>
    requires id in t.ledgers
  {
    var l := t.ledgers[id];
    if l.queued >= l.revision then t.pending else t.pending[LedgerKey(id, l) := LedgerEvent(id, l)]
  }

  predicate HasLedger(t: Traffic, id: Id, period: Period) {
    id in t.ledgers && t.ledgers[id].period.id == period.id
  }

  function EnsureLedger(t: Traffic, id: Id, period: Period): Traffic {
    if HasLedger(t, id, period) then t
    else Traffic(t.ledgers[id := Ledger(period, 1, 0, 0, 0)],
                 if id in t.ledgers then Preserve(t, id) else t.pending)
  }

  // The part of ApplyCounters that adds one authorization's traffic to its ledger.
  function ChargeLedger(t: Traffic, id: Id, period: Period, delta: Bytes): Result<Traffic, StoreError> {
    var t1 := EnsureLedger(t, id, period);
    var l := t1.ledgers[id];
    if MAX_INT64 - l.up < delta.up || MAX_INT64 - l.down < delta.down || l.revision >= MAX_INT64 then Err(Failed)
    else Ok(t1.(ledgers := t1.ledgers[id := l.(up := l.up + delta.up, down := l.down + delta.down, revision := l.revision + 1)]))
  }

  // Ledgers of authorizations that are no longer in the snapshot are dropped, but what
  // they have not yet queued stays pending.
  function DropLedgers(t: Traffic, retained: set<Id>): Traffic {
    var unqueued := set id | id in t.ledgers && id !in retained && t.ledgers[id].queued < t.ledgers[id].revision
                      :: LedgerKey(id, t.ledgers[id]);
    Traffic(map id | id in t.ledgers && id in retained :: t.ledgers[id],
            t.pending + map k | k in unqueued :: LedgerEvent(k.authorization, t.ledgers[k.authorization]))
  }

  function MarkQueued(t: Traffic, e: TrafficEvent): Result<Traffic, StoreError> {
    var key := KeyOfEvent(e);
    if key in t.pending then
      if t.pending[key] != e then Err(Failed) else Ok(t.(pending := t.pending - {key}))
    else if e.authorization !in t.ledgers then Err(Failed)
    else
      var l := t.ledgers[e.authorization];
      if l.period.id != e.period.id || l.revision < e.revision then Err(Failed)
      else if l.revision == e.revision && l.up == e.up && l.down == e.down then
        Ok(t.(ledgers := t.ledgers[e.authorization := l.(queued := e.revision)]))
      else Ok(t)
  }

  // What PendingTrafficSnapshots returns, as a set.
  predicate Unqueued(t: Traffic, e: TrafficEvent) {
    || (KeyOfEvent(e) in t.pending && t.pending[KeyOfEvent(e)] == e)
    || (e.authorization in t.ledgers && t.ledgers[e.authorization].queued < t.ledgers[e.authorization].revision
        && e == LedgerEvent(e.authorization, t.ledgers[e.authorization]))
  }

  ghost predicate NothingUnqueued(t: Traffic) {
    t.pending == map[] && forall id :: id in t.ledgers ==> t.ledgers[id].queued == t.ledgers[id].revision
  }

  // ---- The center's side ----

  // The center keeps, for each authorization and period, the event of the highest revision.
  function CenterView(log: seq<TrafficEvent>): map<TrafficKey, TrafficEvent>
    decreases |log|
  {
    if log == [] then map[]
    else
      var view := CenterView(log[..|log| - 1]);
      var e := log[|log| - 1];
      if KeyOfEvent(e) in view && view[KeyOfEvent(e)].revision >= e.revision then view
      else view[KeyOfEvent(e) := e]
  }

  lemma {:induction false} CenterViewIsHighest(log: seq<TrafficEvent>)
    ensures forall k :: k in CenterView(log) ==>
              && CenterView(log)[k] in log && KeyOfEvent(CenterView(log)[k]) == k
              && forall e :: e in log && KeyOfEvent(e) == k ==> e.revision <= CenterView(log)[k].revision
    ensures forall e :: e in log ==> KeyOfEvent(e) in CenterView(log)
    decreases |log|
  {
    if log != [] {
      CenterViewIsHighest(log[..|log| - 1]);
      assert forall e :: e in log <==> e in log[..|log| - 1] || e == log[|log| - 1];
    }
  }

  // ---- The invariant ----

  type View = map<TrafficKey, TrafficEvent>

  // Every byte ever charged to an authorization in a period.
  type Charged = map<TrafficKey, Bytes>

  ghost predicate IsCurrent(t: Traffic, k: TrafficKey) {
    k.authorization in t.ledgers && t.ledgers[k.authorization].period.id == k.period
  }

  // `e` is at least as recent as what the center has for its key, and the same event if it
  // is not more recent.
  ghost predicate Newest(view: View, e: TrafficEvent) {
    KeyOfEvent(e) in view ==>
      view[KeyOfEvent(e)].revision < e.revision || view[KeyOfEvent(e)] == e
  }

  ghost predicate Carries(e: TrafficEvent, b: Bytes) { e.up == b.up && e.down == b.down }

  ghost predicate LedgerOk(t: Traffic, view: View, charged: Charged, id: Id)
    requires id in t.ledgers
  {
    var l := t.ledgers[id];
    var k := LedgerKey(id, l);
    && k in charged && charged[k] == Bytes(l.up, l.down)
    && k !in t.pending
    && Newest(view, LedgerEvent(id, l))
    && l.queued <= l.revision && (l.queued == l.revision ==> k in view && view[k] == LedgerEvent(id, l))
    && 1 <= l.revision <= MAX_INT64 && l.up <= MAX_INT64 && l.down <= MAX_INT64
  }

  ghost predicate PendingOk(t: Traffic, view: View, charged: Charged, k: TrafficKey)
    requires k in t.pending
  {
    var e := t.pending[k];
    KeyOfEvent(e) == k && k in charged && Carries(e, charged[k]) && Newest(view, e)
  }

  // A retired key is one whose period is over or whose authorization is gone, with nothing
  // left to queue.
  ghost predicate RetiredOk(view: View, charged: Charged, k: TrafficKey)
    requires k in charged
  {
    k in view && Carries(view[k], charged[k])
  }

  ghost predicate TrafficInv(t: Traffic, view: View, charged: Charged) {
    && (forall id :: id in t.ledgers ==> LedgerOk(t, view, charged, id))
    && (forall k :: k in t.pending ==> PendingOk(t, view, charged, k))
    && (forall k :: k in charged && !IsCurrent(t, k) && k !in t.pending ==> RetiredOk(view, charged, k))
    && view.Keys <= charged.Keys
  }

  // The effect of opening a ledger on the record of charges.
  function Started(t: Traffic, charged: Charged, id: Id, period: Period): Charged {
    if HasLedger(t, id, period) then charged else charged[TrafficKey(id, period.id) := Bytes(0, 0)]
  }

  // The effect of charging a ledger.
  function ChargedMore(t: Traffic, charged: Charged, id: Id, period: Period, delta: Bytes): Charged {
    var k := TrafficKey(id, period.id);
    var started := Started(t, charged, id, period);
    if k in started then started[k := Add(started[k], delta)] else started
  }

  // A retired pair of authorization and period does not return.
  ghost predicate MayOpen(t: Traffic, charged: Charged, id: Id, period: Period) {
    HasLedger(t, id, period) || TrafficKey(id, period.id) !in charged
  }

  lemma EnsureLedgerKeeps(t: Traffic, view: View, charged: Charged, id: Id, period: Period)
    requires TrafficInv(t, view, charged) && MayOpen(t, charged, id, period)
    ensures TrafficInv(EnsureLedger(t, id, period), view, Started(t, charged, id, period))
  {
    var t' := EnsureLedger(t, id, period);
    var charged' := Started(t, charged, id, period);
    forall k | k in charged' && !IsCurrent(t', k) && k !in t'.pending
      ensures RetiredOk(view, charged', k)
    {
      if IsCurrent(t, k) {
        assert LedgerOk(t, view, charged, k.authorization);
      }
    }
  }

  // Adding to an existing ledger.
  lemma AddToLedgerKeeps(t: Traffic, view: View, charged: Charged, id: Id, l': Ledger, b': Bytes)
    requires TrafficInv(t, view, charged) && id in t.ledgers
    requires l'.period == t.ledgers[id].period && l'.queued == t.ledgers[id].queued
    requires l'.revision == t.ledgers[id].revision + 1 <= MAX_INT64 && l'.up <= MAX_INT64 && l'.down <= MAX_INT64
    requires b' == Bytes(l'.up, l'.down)
    ensures TrafficInv(t.(ledgers := t.ledgers[id := l']), view, charged[LedgerKey(id, l') := b'])
  {
    assert LedgerOk(t, view, charged, id);
    var t', charged' := t.(ledgers := t.ledgers[id := l']), charged[LedgerKey(id, l') := b'];
    forall k | k in charged' && !IsCurrent(t', k) && k !in t'.pending
      ensures RetiredOk(view, charged', k)
    {
      assert RetiredOk(view, charged, k);
    }
  }

  lemma ChargeLedgerKeeps(t: Traffic, view: View, charged: Charged, id: Id, period: Period, delta: Bytes)
    requires TrafficInv(t, view, charged) && MayOpen(t, charged, id, period)
    requires ChargeLedger(t, id, period, delta).Ok?
    ensures TrafficInv(ChargeLedger(t, id, period, delta).value, view, ChargedMore(t, charged, id, period, delta))
    ensures TrafficKey(id, period.id) in Started(t, charged, id, period)
  {
    EnsureLedgerKeeps(t, view, charged, id, period);
    var t1 := EnsureLedger(t, id, period);
    var l := t1.ledgers[id];
    var l' := ChargeLedger(t, id, period, delta).value.ledgers[id];
    var started := Started(t, charged, id, period);
    StartedHasLedger(t, view, charged, id, period);
    AddToLedgerKeeps(t1, view, started, id, l', Add(Bytes(l.up, l.down), delta));
  }

  lemma StartedHasLedger(t: Traffic, view: View, charged: Charged, id: Id, period: Period)
    requires TrafficInv(t, view, charged)
    ensures var started, l := Started(t, charged, id, period), EnsureLedger(t, id, period).ledgers[id];
            TrafficKey(id, period.id) in started && started[TrafficKey(id, period.id)] == Bytes(l.up, l.down)
  {
    if HasLedger(t, id, period) {
      assert LedgerOk(t, view, charged, id);
    }
  }

  lemma DropLedgersKeeps(t: Traffic, view: View, charged: Charged, retained: set<Id>)
    requires TrafficInv(t, view, charged)
    ensures TrafficInv(DropLedgers(t, retained), view, charged)
  {
    var t' := DropLedgers(t, retained);
    forall k | k in t'.pending
      ensures PendingOk(t', view, charged, k)
    {
      if k !in t.pending {
        assert LedgerOk(t, view, charged, k.authorization);
      } else {
        assert PendingOk(t, view, charged, k);
        if IsCurrent(t, k) {
          assert LedgerOk(t, view, charged, k.authorization);
        }
      }
    }
    forall k | k in charged && !IsCurrent(t', k) && k !in t'.pending
      ensures RetiredOk(view, charged, k)
    {
      if IsCurrent(t, k) {
        assert LedgerOk(t, view, charged, k.authorization);
      }
    }
  }

  lemma EnqueueKeeps(t: Traffic, log: seq<TrafficEvent>, charged: Charged, e: TrafficEvent)
    requires TrafficInv(t, CenterView(log), charged) && Unqueued(t, e)
    ensures TrafficInv(t, CenterView(log + [e]), charged)
  {
    var view := CenterView(log);
    var key := KeyOfEvent(e);
    assert (log + [e])[..|log|] == log;
    if key in t.pending {
      assert PendingOk(t, view, charged, key);
    }
    if e.authorization in t.ledgers {
      assert LedgerOk(t, view, charged, e.authorization);
    }
  }

  lemma MarkQueuedKeeps(t: Traffic, log: seq<TrafficEvent>, charged: Charged, e: TrafficEvent)
    requires TrafficInv(t, CenterView(log), charged) && e in log && MarkQueued(t, e).Ok?
    ensures TrafficInv(MarkQueued(t, e).value, CenterView(log), charged)
  {
    CenterViewIsHighest(log);
    var view := CenterView(log);
    var key := KeyOfEvent(e);
    assert key in view && view[key].revision >= e.revision;
    if key in t.pending {
      assert PendingOk(t, view, charged, key);
    } else {
      assert LedgerOk(t, view, charged, e.authorization);
    }
  }

  // An event that is waiting can be marked, and then just that event no longer waits.
  lemma MarkedOne(t: Traffic, view: View, charged: Charged, e: TrafficEvent)
    requires TrafficInv(t, view, charged) && Unqueued(t, e)
    ensures MarkQueued(t, e).Ok?
    ensures forall o :: Unqueued(MarkQueued(t, e).value, o) <==> Unqueued(t, o) && o != e
    ensures forall id, period :: HasLedger(MarkQueued(t, e).value, id, period) == HasLedger(t, id, period)
  {
    if e.authorization in t.ledgers {
      assert LedgerOk(t, view, charged, e.authorization);
    }
    if KeyOfEvent(e) in t.pending {
      assert PendingOk(t, view, charged, KeyOfEvent(e));
    }
  }

  // When nothing waits, every ledger is queued at its revision.
  lemma NoneWaiting(t: Traffic, view: View, charged: Charged)
    requires TrafficInv(t, view, charged) && forall e :: !Unqueued(t, e)
    ensures NothingUnqueued(t)
  {
    forall id | id in t.ledgers
      ensures t.ledgers[id].queued == t.ledgers[id].revision
    {
      assert LedgerOk(t, view, charged, id);
      assert !Unqueued(t, LedgerEvent(id, t.ledgers[id]));
    }
    forall k | k in t.pending
      ensures false
    {
      assert PendingOk(t, view, charged, k);
      assert Unqueued(t, t.pending[k]);
    }
  }

  // ---- Convergence ----

  // Whenever nothing is left to queue, what the center keeps is, for every authorization
  // and period ever charged, exactly the bytes charged.
  lemma Converged(t: Traffic, log: seq<TrafficEvent>, charged: Charged)
    requires TrafficInv(t, CenterView(log), charged) && NothingUnqueued(t)
    ensures CenterView(log).Keys == charged.Keys
    ensures forall k :: k in charged ==> Carries(CenterView(log)[k], charged[k])
  {
    var view := CenterView(log);
    forall k | k in charged
      ensures k in view && Carries(view[k], charged[k])
    {
      if IsCurrent(t, k) {
        assert LedgerOk(t, view, charged, k.authorization);
      }
    }
  }

  // The assumption that a retired pair does not return is needed. An authorization that is
  // removed and added again within its period starts over at revision 1 with no bytes: the
  // center keeps the older, higher revision.
  lemma ReturningPairDiverges(id: Id, period: Period, delta: Bytes)
    requires 0 < delta.up <= MAX_INT64 && delta.down <= MAX_INT64
    ensures var t0 := Traffic(map[], map[]);
            var charged := ChargeLedger(t0, id, period, delta);
            && charged.Ok?
            && var e := LedgerEvent(id, charged.value.ledgers[id]);
               var queued := MarkQueued(charged.value, e);
               && queued.Ok?
               && var t := EnsureLedger(DropLedgers(queued.value, {}), id, period);
                  var again := LedgerEvent(id, t.ledgers[id]);
                  var settled := MarkQueued(t, again);
                  && settled.Ok? && NothingUnqueued(settled.value)
                  && t.ledgers[id].up == 0
                  && CenterView([e, again])[TrafficKey(id, period.id)].up == delta.up
  {
    var t0 := Traffic(map[], map[]);
    var e := LedgerEvent(id, ChargeLedger(t0, id, period, delta).value.ledgers[id]);
    var t := DropLedgers(MarkQueued(ChargeLedger(t0, id, period, delta).value, e).value, {});
    assert t.ledgers == map[] && t.pending == map[];
    var again := TrafficEvent(id, period, 1, 0, 0);
    assert [e, again][..1] == [e] && [e][..0] == [];
    assert CenterView([e]) == map[TrafficKey(id, period.id) := e];
  }
}
