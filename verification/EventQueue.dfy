// The bounded, sequence-numbered event queue (internal/eventqueue/store.go).
module EventQueue {
  import opened Prelude

  // An encoded event.
  type Raw = seq<byte>

  // Capacity of the queue, and the protocol's limits on sequence numbers and batches.
  datatype Limits = Limits(maxBytes: u64, maxEvents: u64, maxSequence: u64, batchEvents: u64, batchBytes: u64)

  ghost predicate ValidLimits(l: Limits) {
    l.maxSequence < MAX_UINT64 && l.batchEvents > 0 && l.batchBytes > 0
  }

  datatype QueueError = Exhausted | Invalid | Full | Empty | WrongStream | NotAssigned | Inconsistent

  datatype EventBatch = EventBatch(stream: Id, first: u64, last: u64, events: seq<Raw>)

  function Size(s: seq<Raw>): nat {
    if s == [] then 0 else Size(s[..|s| - 1]) + |s[|s| - 1]|
  }

  lemma {:induction false} SizeOfConcatenation(a: seq<Raw>, b: seq<Raw>)
    ensures Size(a + b) == Size(a) + Size(b)
    decreases |b|
  {
    if b == [] {
      assert a + b == a;
    } else {
      SizeOfConcatenation(a, b[..|b| - 1]);
      assert (a + b)[..|a + b| - 1] == a + b[..|b| - 1];
    }
  }

  lemma SizeOfRest(s: seq<Raw>, n: nat)
    requires n <= |s|
    ensures Size(s[n..]) <= Size(s)
  {
    SizeOfConcatenation(s[..n], s[n..]);
    assert s[..n] + s[n..] == s;
  }

  // A bucket holds these events, under the sequence numbers that follow `after`.
  ghost predicate Holds(events: map<int, Raw>, after: nat, contents: seq<Raw>) {
    && (forall s :: s in events <==> after < s <= after + |contents|)
    && after + |contents| <= MAX_UINT64
    && forall i :: 0 <= i < |contents| ==> events[after + 1 + i] == contents[i]
  }

  // ---- Batches ----

  // A batch may be sent if it is not empty and keeps to both limits; a single event may
  // exceed the limit on bytes.
  ghost predicate Admissible(pending: seq<Raw>, n: nat, maxEvents: nat, maxBytes: nat) {
    1 <= n <= |pending| && n <= maxEvents && (n == 1 || Size(pending[..n]) <= maxBytes)
  }

  function Extended(pending: seq<Raw>, n: nat, maxEvents: nat, maxBytes: nat): (m: nat)
    requires n <= |pending|
    ensures n <= m <= |pending|
    decreases |pending| - n
  {
    if n < |pending| && n < maxEvents && (n == 0 || Size(pending[..n + 1]) <= maxBytes)
    then Extended(pending, n + 1, maxEvents, maxBytes)
    else n
  }

  function BatchLength(pending: seq<Raw>, maxEvents: nat, maxBytes: nat): nat {
    Extended(pending, 0, maxEvents, maxBytes)
  }

  lemma {:induction false} ExtendedIsLongest(pending: seq<Raw>, n: nat, maxEvents: nat, maxBytes: nat)
    requires maxEvents > 0 && n <= |pending|
    requires n == 0 || Admissible(pending, n, maxEvents, maxBytes)
    ensures var m := Extended(pending, n, maxEvents, maxBytes);
            && (m == 0 || Admissible(pending, m, maxEvents, maxBytes))
            && forall k: nat :: k > m ==> !Admissible(pending, k, maxEvents, maxBytes)
    decreases |pending| - n
  {
    if n < |pending| && n < maxEvents && (n == 0 || Size(pending[..n + 1]) <= maxBytes) {
      ExtendedIsLongest(pending, n + 1, maxEvents, maxBytes);
    } else {
      forall k | n < k <= |pending|
        ensures Size(pending[..n + 1]) <= Size(pending[..k])
      {
        SizeOfConcatenation(pending[..n + 1], pending[n + 1..k]);
        assert pending[..n + 1] + pending[n + 1..k] == pending[..k];
      }
    }
  }

  // What Batch takes is the longest admissible prefix, and is empty only for an empty queue.
  lemma BatchIsLongest(pending: seq<Raw>, maxEvents: nat, maxBytes: nat)
    requires maxEvents > 0
    ensures var n := BatchLength(pending, maxEvents, maxBytes);
            && (pending == [] ==> n == 0)
            && (pending != [] ==> Admissible(pending, n, maxEvents, maxBytes))
            && forall k: nat :: Admissible(pending, k, maxEvents, maxBytes) ==> k <= n
  {
    ExtendedIsLongest(pending, 0, maxEvents, maxBytes);
    if pending != [] {
      assert Admissible(pending, 1, maxEvents, maxBytes);
    }
  }

  lemma FrontOfSlice(all: seq<Raw>, a: nat, e: nat, n: nat)
    requires a <= a + n <= e <= |all|
    ensures all[a..e][..n] == all[a..a + n]
  {
  }

  // A later start, or more events behind it, never makes a batch end earlier.
  lemma BatchEndIsMonotone(all: seq<Raw>, a: nat, e: nat, a': nat, e': nat, maxEvents: nat, maxBytes: nat)
    requires a <= e <= e' <= |all| && a <= a' <= e' && maxEvents > 0
    ensures a + BatchLength(all[a..e], maxEvents, maxBytes) <= a' + BatchLength(all[a'..e'], maxEvents, maxBytes)
  {
    var end := a + BatchLength(all[a..e], maxEvents, maxBytes);
    BatchIsLongest(all[a..e], maxEvents, maxBytes);
    BatchIsLongest(all[a'..e'], maxEvents, maxBytes);
    if end > a' {
      var n, m := end - a, end - a';
      FrontOfSlice(all, a, e, n);
      FrontOfSlice(all, a', e', m);
      assert all[a..a'] + all[a'..end] == all[a..end];
      SizeOfConcatenation(all[a..a'], all[a'..end]);
      assert Admissible(all[a'..e'], m, maxEvents, maxBytes);
    }
  }

  // ---- Walks over the bucket ----

  // The cursor walk of Batch.
  method TakeFirst(events: map<int, Raw>, after: u64, maxEvents: nat, maxBytes: nat, ghost contents: seq<Raw>)
    returns (batch: seq<Raw>)
    requires Holds(events, after, contents)
    ensures batch == contents[..BatchLength(contents, maxEvents, maxBytes)]
  {
    var total: nat, key: nat := 0, after + 1;
    batch := [];
    while key <= MAX_UINT64 && key in events && |batch| < maxEvents
      invariant |batch| <= |contents| && batch == contents[..|batch|] && key == after + 1 + |batch|
      invariant total == Size(batch)
      invariant Extended(contents, |batch|, maxEvents, maxBytes) == BatchLength(contents, maxEvents, maxBytes)
      decreases |contents| - |batch|
    {
      var raw := events[key];
      assert (batch + [raw])[..|batch|] == batch && contents[..|batch| + 1] == batch + [raw];
      if total + |raw| > maxBytes && |batch| > 0 { return; }
      batch := batch + [raw];
      total := total + |raw|;
      key := key + 1;
    }
  }

  lemma FirstOut(events: map<int, Raw>, after: nat, contents: seq<Raw>)
    requires Holds(events, after, contents) && contents != []
    ensures after + 1 in events && events[after + 1] == contents[0]
    ensures Holds(events - {after + 1}, after + 1, contents[1..])
    ensures Size(contents) == |contents[0]| + Size(contents[1..])
  {
    var first := [contents[0]];
    SizeOfConcatenation(first, contents[1..]);
    assert contents == first + contents[1..];
    assert Size(first) == Size(first[..0]) + |first[0]|;
  }

  // A bucket and its counts.
  ghost predicate Counted(events: map<int, Raw>, after: nat, bytes: int, count: int, contents: seq<Raw>) {
    Holds(events, after, contents) && bytes == Size(contents) && count == |contents|
  }

  lemma OneMoreHeld(events: map<int, Raw>, after: nat, bytes: int, count: int, contents: seq<Raw>, raw: Raw)
    requires Counted(events, after, bytes, count, contents) && after + |contents| < MAX_UINT64
    ensures Counted(events[after + |contents| + 1 := raw], after, bytes + |raw|, count + 1, contents + [raw])
  {
    assert (contents + [raw])[..|contents|] == contents;
  }

  // One step of the cursor walk of Acknowledge; it fails on an accounting error.
  method DropOne(events: map<int, Raw>, key: u64, pendingBytes: u64, pendingEvents: u64, ghost contents: seq<Raw>)
    returns (ok: bool, kept: map<int, Raw>, bytes: u64, count: u64)
    requires Counted(events, key, pendingBytes, pendingEvents, contents) && contents != []
    ensures ok && Counted(kept, key + 1, bytes, count, contents[1..])
  {
    FirstOut(events, key, contents);
    var raw := events[key + 1];
    if |raw| > pendingBytes || pendingEvents == 0 { return false, events, pendingBytes, pendingEvents; }
    bytes, count := pendingBytes - |raw|, pendingEvents - 1;
    return true, events - {key + 1}, bytes, count;
  }

  // The walk.
  method DropFirst(events: map<int, Raw>, after: u64, through: u64, pendingBytes: u64, pendingEvents: u64, ghost contents: seq<Raw>)
    returns (ok: bool, kept: map<int, Raw>, bytes: u64, count: u64)
    requires Counted(events, after, pendingBytes, pendingEvents, contents) && after <= through <= after + |contents|
    ensures ok && Counted(kept, through, bytes, count, contents[through - after..])
  {
    kept, bytes, count := events, pendingBytes, pendingEvents;
    var key: u64 := after;
    ghost var rest := contents;
    while key < through && key + 1 in kept
      invariant after <= key <= through && rest == contents[key - after..]
      invariant Counted(kept, key, bytes, count, rest)
      decreases through - key
    {
      ok, kept, bytes, count := DropOne(kept, key, bytes, count, rest);
      if !ok { return; }
      key, rest := key + 1, rest[1..];
    }
    return true, kept, bytes, count;
  }

  // ---- The queue ----

  class Queue {
    const limits: Limits
    var stream: Id
    var nextSequence: u64
    var ackedSequence: u64
    var pendingBytes: u64
    var pendingEvents: u64
    var events: map<int, Raw>
    ghost var contents: seq<Raw>     // the waiting events, oldest first

    // The stored sequences are exactly those assigned and not acknowledged, and the counts
    // are true and within the limits.
    ghost predicate Valid()
      reads this
    {
      && ValidLimits(limits)
      && Counted(events, ackedSequence, pendingBytes, pendingEvents, contents)
      && nextSequence == ackedSequence + |contents| + 1 && nextSequence <= limits.maxSequence + 1
      && pendingEvents <= limits.maxEvents && pendingBytes <= limits.maxBytes
    }

    // A new database; an existing one is opened as it was left.
    constructor (limits: Limits, stream: Id)
      requires ValidLimits(limits)
      ensures Valid() && this.limits == limits && this.stream == stream
      ensures ackedSequence == 0 && contents == []
    {
      this.limits := limits;
      this.stream := stream;
      nextSequence, ackedSequence, pendingBytes, pendingEvents := 1, 0, 0, 0;
      events, contents := map[], [];
    }

    // The encoding of an event depends on its sequence number and can fail.
    method Enqueue(encode: u64 -> Option<Raw>) returns (r: Result<u64, QueueError>)
      requires Valid()
      modifies this
      ensures Valid() && stream == old(stream) && ackedSequence == old(ackedSequence)
      ensures r.Ok? ==> r.value == old(nextSequence) && encode(r.value).Some?
                        && contents == old(contents) + [encode(r.value).value]
      ensures r.Err? ==> nextSequence == old(nextSequence) && contents == old(contents)
      ensures r.Err? ==> r.error.Exhausted? || r.error.Invalid? || r.error.Full?
      ensures r == Err(Exhausted) <==> old(nextSequence) > limits.maxSequence
      ensures r == Err(Invalid) <==> old(nextSequence) <= limits.maxSequence && encode(old(nextSequence)) == None
      ensures r == Err(Full) <==> old(nextSequence) <= limits.maxSequence && encode(old(nextSequence)).Some?
                                  && (old(pendingBytes) + |encode(old(nextSequence)).value| > limits.maxBytes
                                      || old(pendingEvents) >= limits.maxEvents)
    {
      var sequence := nextSequence;
      if sequence > limits.maxSequence { return Err(Exhausted); }
      var encoded := encode(sequence);
      if encoded == None { return Err(Invalid); }
      var raw := encoded.value;
      if |raw| > limits.maxBytes || pendingBytes > limits.maxBytes - |raw| || pendingEvents >= limits.maxEvents {
        return Err(Full);
      }
      OneMoreHeld(events, ackedSequence, pendingBytes, pendingEvents, contents, raw);
      events := events[sequence := raw];
      nextSequence := sequence + 1;
      pendingBytes := pendingBytes + |raw|;
      pendingEvents := pendingEvents + 1;
      contents := contents + [raw];
      return Ok(sequence);
    }

    // Limits out of range stand for the protocol's.
    ghost function Limited(wanted: int, most: u64): nat { if wanted <= 0 || wanted > most then most else wanted }

    method Batch(maxEvents: int, maxBytes: int) returns (r: Result<EventBatch, QueueError>)
      requires Valid()
      ensures r == Err(Empty) <==> contents == []
      ensures r.Ok? ==>
                var n := BatchLength(contents, Limited(maxEvents, limits.batchEvents), Limited(maxBytes, limits.batchBytes));
                        && r.value.stream == stream
                        && r.value.first == ackedSequence + 1 && r.value.last == ackedSequence + n
                        && r.value.events == contents[..n]
      ensures r.Err? ==> r == Err(Empty)
    {
      var most := if maxEvents <= 0 || maxEvents > limits.batchEvents then limits.batchEvents else maxEvents;
      var bytes := if maxBytes <= 0 || maxBytes > limits.batchBytes then limits.batchBytes else maxBytes;
      var batch := TakeFirst(events, ackedSequence, most, bytes, contents);
      BatchIsLongest(contents, most, bytes);
      if batch == [] { return Err(Empty); }
      return Ok(EventBatch(stream, ackedSequence + 1, ackedSequence + |batch|, batch));
    }

    // The accounting errors the source guards against cannot happen.
    method Acknowledge(streamId: Id, sequence: u64) returns (r: Result<(), QueueError>)
      requires Valid()
      modifies this
      ensures Valid() && stream == old(stream) && nextSequence == old(nextSequence)
      ensures r == Err(WrongStream) <==> streamId != old(stream)
      ensures r == Err(NotAssigned) <==> streamId == old(stream) && !(0 < sequence < old(nextSequence))
      ensures r.Err? ==> r.error == WrongStream || r.error == NotAssigned
      ensures r.Ok? ==> ackedSequence == if sequence > old(ackedSequence) then sequence else old(ackedSequence)
      ensures r.Err? ==> ackedSequence == old(ackedSequence)
      ensures ackedSequence == old(ackedSequence) ==> contents == old(contents)
      ensures ackedSequence > old(ackedSequence) ==> contents == old(contents)[ackedSequence - old(ackedSequence)..]
    {
      if streamId != stream { return Err(WrongStream); }
      if sequence == 0 || sequence >= nextSequence { return Err(NotAssigned); }
      if sequence <= ackedSequence { return Ok(()); }
      var ok, kept, bytes, count := DropFirst(events, ackedSequence, sequence, pendingBytes, pendingEvents, contents);
      if !ok { return Err(Inconsistent); }
      ghost var rest := contents[sequence - ackedSequence..];
      SizeOfRest(contents, sequence - ackedSequence);
      ackedSequence := sequence;
      events, pendingBytes, pendingEvents := kept, bytes, count;
      contents := rest;
      return Ok(());
    }
  }
}
