// Soft IP limits: slots for recently seen addresses and temporary blocks
// (ObserveActivity and cleanAuthorizationActivity in internal/policy/store.go).
module PolicyActivity {
  import opened Prelude
  import opened PolicyModel

  predicate SlotExpired(p: Policy, seenAt: int, now: int) { seenAt <= now - p.activityWindow }

  predicate BlockExpired(expiresAt: int, now: int) { expiresAt <= now }

  // cleanAuthorizationActivity
  function Cleaned(a: Activity, p: Policy, now: int): Activity {
    Activity(
      map k | k in a.slots && !(k.authorization == p.id && SlotExpired(p, a.slots[k], now)) :: a.slots[k],
      map k | k in a.blocks && !(k.authorization == p.id && BlockExpired(a.blocks[k], now)) :: a.blocks[k])
  }

  function SlotsOf(a: Activity, id: Id): set<ActivityKey> {
    set k | k in a.slots && k.authorization == id
  }

  function BlocksOf(a: Activity, id: Id): set<ActivityKey> {
    set k | k in a.blocks && k.authorization == id
  }

  // ObserveActivity for a policy with a soft limit: the new state, and whether the address
  // is blocked. Observation times may come in any order.
  function Observed(a: Activity, p: Policy, address: Id, at: int): (r: (Activity, bool))
    requires p.softIPLimit.Some?
  {
    var c := Cleaned(a, p, at);
    var key := ActivityKey(p.id, address);
    if key in c.blocks && c.blocks[key] > at then (c, true)
    else if key in c.slots then
      (if at > c.slots[key] then c.(slots := c.slots[key := at]) else c, false)
    else if |SlotsOf(c, p.id)| < p.softIPLimit.value then (c.(slots := c.slots[key := at]), false)
    else (c.(blocks := c.blocks[key := at + p.blockDuration]), true)
  }

  // ---- Invariants ----

  // No address holds both a slot and a block.
  ghost predicate ActivityInv(a: Activity) { a.slots.Keys !! a.blocks.Keys }

  // Every observation and every clean-up keeps slots and blocks apart.
  lemma SlotsAndBlocksStayApart(a: Activity, p: Policy, address: Id, at: int)
    requires ActivityInv(a)
    ensures ActivityInv(Cleaned(a, p, at))
    ensures p.softIPLimit.Some? ==> ActivityInv(Observed(a, p, address, at).0)
  {
  }

  // One authorization's activity does not touch another's.
  lemma OthersAreUntouched(a: Activity, p: Policy, address: Id, at: int, k: ActivityKey)
    requires k.authorization != p.id
    ensures var c := Cleaned(a, p, at);
            && (k in c.slots <==> k in a.slots) && (k in a.slots ==> c.slots[k] == a.slots[k])
            && (k in c.blocks <==> k in a.blocks) && (k in a.blocks ==> c.blocks[k] == a.blocks[k])
    ensures p.softIPLimit.Some? ==>
              var c := Observed(a, p, address, at).0;
              && (k in c.slots <==> k in a.slots) && (k in a.slots ==> c.slots[k] == a.slots[k])
              && (k in c.blocks <==> k in a.blocks) && (k in a.blocks ==> c.blocks[k] == a.blocks[k])
  {
  }

  lemma SubsetSize<T>(a: set<T>, b: set<T>)
    requires a <= b
    ensures |a| <= |b|
  {
    if a != b {
      var x :| x in b && x !in a;
      SubsetSize(a, b - {x});
    }
  }

  // An observation takes a slot only below the limit, so the number of slots never grows
  // past it; one that was lowered below the number of slots in use only lets it shrink.
  lemma SlotCountIsLimited(a: Activity, p: Policy, address: Id, at: int)
    requires p.softIPLimit.Some?
    ensures var before, after := |SlotsOf(a, p.id)|, |SlotsOf(Observed(a, p, address, at).0, p.id)|;
            after <= before || after <= p.softIPLimit.value
  {
    var c := Cleaned(a, p, at);
    var key := ActivityKey(p.id, address);
    var d := Observed(a, p, address, at).0;
    SubsetSize(SlotsOf(c, p.id), SlotsOf(a, p.id));
    if d.slots.Keys == c.slots.Keys {
      assert SlotsOf(d, p.id) == SlotsOf(c, p.id);
    } else {
      assert SlotsOf(d, p.id) == SlotsOf(c, p.id) + {key};
    }
  }

  // The addresses of an authorization seen within its window before an observation.
  function SeenBefore(a: Activity, p: Policy, at: int): set<ActivityKey> {
    set k | k in a.slots && k.authorization == p.id && a.slots[k] > at - p.activityWindow
  }

  // What an observation decides: the address is blocked exactly when it has an unexpired
  // block, or is not among those seen in the window and these fill the limit. Otherwise it
  // holds a slot, and no other address gains or loses one by it except by running out of
  // its window.
  lemma ObservationDecides(a: Activity, p: Policy, address: Id, at: int)
    requires p.softIPLimit.Some? && ActivityInv(a)
    ensures var key := ActivityKey(p.id, address);
            var seen := SeenBefore(a, p, at);
            var (b, blocked) := Observed(a, p, address, at);
            && (blocked <==> (key in a.blocks && a.blocks[key] > at) || (key !in seen && |seen| >= p.softIPLimit.value))
            && (blocked ==> key in b.blocks && SlotsOf(b, p.id) == seen)
            && (blocked && !(key in a.blocks && a.blocks[key] > at) ==> b.blocks[key] == at + p.blockDuration)
            && (!blocked ==> SlotsOf(b, p.id) == seen + {key} && b.slots[key] >= at)
  {
    var c := Cleaned(a, p, at);
    assert SlotsOf(c, p.id) == SeenBefore(a, p, at);
  }

  // ---- Runs under one snapshot ----

  datatype Op = Observe(address: Id, at: int) | Cleanup(at: int)

  function Apply(a: Activity, p: Policy, op: Op): Activity {
    match op
    case Observe(address, at) => if p.softIPLimit.Some? then Observed(a, p, address, at).0 else a
    case Cleanup(at) => Cleaned(a, p, at)
  }

  function ApplyAll(a: Activity, p: Policy, ops: seq<Op>): Activity
    decreases |ops|
  {
    if ops == [] then a else Apply(ApplyAll(a, p, ops[..|ops| - 1]), p, ops[|ops| - 1])
  }

  // The slot limit holds in every state reached under one snapshot.
  lemma {:induction false} SlotLimitHolds(a: Activity, p: Policy, ops: seq<Op>)
    requires p.softIPLimit.Some? && |SlotsOf(a, p.id)| <= p.softIPLimit.value && ActivityInv(a)
    ensures |SlotsOf(ApplyAll(a, p, ops), p.id)| <= p.softIPLimit.value
    ensures ActivityInv(ApplyAll(a, p, ops))
    decreases |ops|
  {
    if ops != [] {
      var before := ApplyAll(a, p, ops[..|ops| - 1]);
      SlotLimitHolds(a, p, ops[..|ops| - 1]);
      match ops[|ops| - 1]
      case Observe(address, at) =>
        SlotsAndBlocksStayApart(before, p, address, at);
        SlotCountIsLimited(before, p, address, at);
      case Cleanup(at) =>
        SlotsAndBlocksStayApart(before, p, 0, at);
        SubsetSize(SlotsOf(Cleaned(before, p, at), p.id), SlotsOf(before, p.id));
    }
  }

  // When an address was last seen, given when its slot was last seen before the run.
  function LastSeen(start: int, ops: seq<Op>, address: Id): int
    decreases |ops|
  {
    if ops == [] then start
    else
      var before := LastSeen(start, ops[..|ops| - 1], address);
      match ops[|ops| - 1]
      case Observe(other, at) => if other == address && at > before then at else before
      case Cleanup(_) => before
  }

  // At every step, the address was seen within the activity window.
  ghost predicate SeenInTime(start: int, p: Policy, ops: seq<Op>, address: Id) {
    forall i :: 0 <= i < |ops| ==> ops[i].at - p.activityWindow < LastSeen(start, ops[..i], address)
  }

  // One step of it: a slot inside its window survives, at the latest time seen.
  lemma SlotSurvives(a: Activity, p: Policy, op: Op, address: Id)
    requires p.softIPLimit.Some? && ActivityInv(a)
    requires ActivityKey(p.id, address) in a.slots
    requires op.at - p.activityWindow < a.slots[ActivityKey(p.id, address)]
    ensures var key := ActivityKey(p.id, address);
            var b := Apply(a, p, op);
            && ActivityInv(b) && key in b.slots
            && b.slots[key] == if op.Observe? && op.address == address && op.at > a.slots[key] then op.at else a.slots[key]
    ensures op.Observe? && op.address == address ==> !Observed(a, p, address, op.at).1
  {
    if op.Observe? {
      SlotsAndBlocksStayApart(a, p, op.address, op.at);
    }
  }

  // An address that holds a slot and is seen again each time before its window ends keeps
  // that slot and is never blocked, however many other addresses are seen in between.
  lemma {:induction false} ActiveAddressIsNeverBlocked(a: Activity, p: Policy, ops: seq<Op>, address: Id)
    requires p.softIPLimit.Some? && ActivityInv(a)
    requires ActivityKey(p.id, address) in a.slots
    requires SeenInTime(a.slots[ActivityKey(p.id, address)], p, ops, address)
    ensures var key := ActivityKey(p.id, address);
            var b := ApplyAll(a, p, ops);
            && ActivityInv(b)
            && key in b.slots && b.slots[key] == LastSeen(a.slots[key], ops, address)
            && key !in b.blocks
    ensures ops != [] && ops[|ops| - 1].Observe? && ops[|ops| - 1].address == address ==>
              !Observed(ApplyAll(a, p, ops[..|ops| - 1]), p, address, ops[|ops| - 1].at).1
    decreases |ops|
  {
    if ops != [] {
      var front, op := ops[..|ops| - 1], ops[|ops| - 1];
      assert forall i :: 0 <= i < |front| ==> front[..i] == ops[..i];
      ActiveAddressIsNeverBlocked(a, p, front, address);
      SlotSurvives(ApplyAll(a, p, front), p, op, address);
    }
  }

  // A block is neither lifted nor prolonged before it expires.
  lemma BlockLastsUntilItExpires(a: Activity, p: Policy, address: Id, other: Id, at: int)
    requires p.softIPLimit.Some? && ActivityInv(a)
    requires ActivityKey(p.id, address) in a.blocks && at < a.blocks[ActivityKey(p.id, address)]
    ensures var key := ActivityKey(p.id, address);
            var b := Observed(a, p, other, at).0;
            && key in b.blocks && b.blocks[key] == a.blocks[key]
            && Observed(a, p, address, at).1
  {
  }
}
