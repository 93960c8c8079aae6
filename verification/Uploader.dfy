// Delivery of events to the center over a channel that loses requests and replies
// (internal/agent/events.go, with the queue of internal/eventqueue/store.go).
module Uploader {
  import opened Prelude
  import opened EventQueue

  // ---- All runs ----

  datatype Request = Request(first: nat, last: nat)

  // Every event ever enqueued, in order, the first with sequence number 1; how many of them
  // are acknowledged and gone from the queue; the upload in progress; every request ever
  // sent, each of which may still reach the center; and what the center has stored.
  datatype World = World(all: seq<Raw>, acked: nat, awaiting: Option<Request>, requests: set<Request>, stored: set<nat>)

  datatype Action =
    | Enqueue(raw: Raw)
    | Send
    | Store(request: Request, sequences: set<nat>)   // the center stores events of a request
    | Reply(ack: nat)                                // a reply arrives, perhaps long after it was sent
    | Lose                                           // the upload fails, or the Agent crashes

  // What the uploader sends next.
  function Next(w: World, l: Limits): Request
    requires w.acked <= |w.all|
  {
    Request(w.acked + 1, w.acked + BatchLength(w.all[w.acked..], l.batchEvents, l.batchBytes))
  }

  // A center acknowledges a sequence only after it has stored everything up to it.
  ghost predicate StoredUpTo(stored: set<nat>, h: nat) {
    forall s :: 1 <= s <= h ==> s in stored
  }

  // What it acknowledges at the time.
  ghost predicate IsHighestContiguous(stored: set<nat>, h: nat) {
    StoredUpTo(stored, h) && h + 1 !in stored
  }

  // The uploader takes an acknowledgement only inside the batch it sent.
  predicate InBatch(r: Request, ack: nat) { r.first <= ack <= r.last }

  ghost predicate Enabled(w: World, l: Limits, a: Action) {
    && w.acked <= |w.all|
    && match a
       case Enqueue(_) => true
       case Send => w.awaiting == None && w.acked < |w.all|
       case Store(r, sequences) => r in w.requests && forall s :: s in sequences ==> r.first <= s <= r.last
       case Reply(ack) => w.awaiting.Some? && StoredUpTo(w.stored, ack)
       case Lose => true
  }

  ghost function Step(w: World, l: Limits, a: Action): World
    requires Enabled(w, l, a)
  {
    match a
    case Enqueue(raw) => w.(all := w.all + [raw])
    case Send => w.(awaiting := Some(Next(w, l)), requests := w.requests + {Next(w, l)})
    case Store(r, sequences) => w.(stored := w.stored + sequences)
    case Reply(ack) => w.(awaiting := None, acked := if InBatch(w.awaiting.value, ack) then ack else w.acked)
    case Lose => w.(awaiting := None)
  }

  ghost predicate Legal(w: World, l: Limits, acts: seq<Action>)
    decreases |acts|, 0
  {
    acts == [] || (Legal(w, l, acts[..|acts| - 1]) && Enabled(After(w, l, acts[..|acts| - 1]), l, acts[|acts| - 1]))
  }

  ghost function After(w: World, l: Limits, acts: seq<Action>): World
    requires Legal(w, l, acts)
    decreases |acts|, 1
  {
    if acts == [] then w else Step(After(w, l, acts[..|acts| - 1]), l, acts[|acts| - 1])
  }

  ghost predicate Init(w: World) {
    w == World([], 0, None, {}, {})
  }

  // No request reaches past what the uploader would send next.
  ghost predicate Inv(w: World, l: Limits) {
    && w.acked <= |w.all|
    && StoredUpTo(w.stored, w.acked)
    && (forall r :: r in w.requests ==> 1 <= r.first && r.last <= Next(w, l).last)
    && (forall s :: s in w.stored ==> exists r :: r in w.requests && r.first <= s <= r.last)
    && (w.awaiting.Some? ==>
          && w.awaiting.value in w.requests
          && w.awaiting.value.first == w.acked + 1 <= w.awaiting.value.last
          && forall r :: r in w.requests ==> r.last <= w.awaiting.value.last)
  }

  lemma NextIsWithin(w: World, l: Limits)
    requires ValidLimits(l) && w.acked <= |w.all|
    ensures Next(w, l).last <= |w.all| && (w.acked < |w.all| ==> Next(w, l).first <= Next(w, l).last)
  {
    BatchIsLongest(w.all[w.acked..], l.batchEvents, l.batchBytes);
  }

  // Enqueueing and acknowledging never move the end of the next request back.
  lemma NextIsMonotone(w: World, w': World, l: Limits)
    requires ValidLimits(l) && w.acked <= w'.acked <= |w'.all| && w.acked <= |w.all| && w.all <= w'.all
    ensures Next(w, l).last <= Next(w', l).last
  {
    var e := |w.all|;
    if w'.acked <= e {
      BatchEndIsMonotone(w'.all, w.acked, e, w'.acked, |w'.all|, l.batchEvents, l.batchBytes);
      assert w'.all[w.acked..e] == w.all[w.acked..] && w'.all[w'.acked..|w'.all|] == w'.all[w'.acked..];
    } else {
      NextIsWithin(w, l);
    }
  }

  lemma StepKeeps(w: World, l: Limits, a: Action)
    requires ValidLimits(l) && Inv(w, l) && Enabled(w, l, a)
    ensures Inv(Step(w, l, a), l)
  {
    NextIsWithin(w, l);
    if a.Reply? {
      ReplyIsWithin(w, l, a.ack);
    }
    NextIsMonotone(w, Step(w, l, a), l);
  }

  // A reply never acknowledges more than was sent.
  lemma ReplyIsWithin(w: World, l: Limits, ack: nat)
    requires ValidLimits(l) && Inv(w, l) && w.awaiting.Some? && StoredUpTo(w.stored, ack)
    ensures ack <= w.awaiting.value.last <= |w.all|
  {
    NextIsWithin(w, l);
    if ack >= 1 {
      assert ack in w.stored;
    }
  }

  lemma {:induction false} RunKeeps(w: World, l: Limits, acts: seq<Action>)
    requires ValidLimits(l) && Inv(w, l) && Legal(w, l, acts)
    ensures Inv(After(w, l, acts), l)
    decreases |acts|
  {
    if acts != [] {
      RunKeeps(w, l, acts[..|acts| - 1]);
      StepKeeps(After(w, l, acts[..|acts| - 1]), l, acts[|acts| - 1]);
    }
  }

  lemma InitIsOk(w: World, l: Limits)
    requires ValidLimits(l) && Init(w)
    ensures Inv(w, l)
  {
  }

  // ---- What holds in every run ----

  // Delivery is at least once: an event leaves the queue only after the center stored it.
  lemma RemovedWasStored(w: World, l: Limits, acts: seq<Action>, s: nat)
    requires ValidLimits(l) && Init(w) && Legal(w, l, acts) && 1 <= s <= After(w, l, acts).acked
    ensures s in After(w, l, acts).stored
  {
    InitIsOk(w, l);
    RunKeeps(w, l, acts);
  }

  // However late a reply is, it is taken exactly when it acknowledges something new, and then
  // just that leaves the queue. A reply with what the center has stored by now is taken
  // exactly when it has stored the first event of the batch.
  lemma ReplyIsTaken(w: World, l: Limits, acts: seq<Action>, ack: nat)
    requires ValidLimits(l) && Init(w) && Legal(w, l, acts) && Enabled(After(w, l, acts), l, Reply(ack))
    ensures var v := After(w, l, acts);
            && (InBatch(v.awaiting.value, ack) <==> ack > v.acked)
            && Step(v, l, Reply(ack)).acked == (if ack > v.acked then ack else v.acked) <= |v.all|
            && (IsHighestContiguous(v.stored, ack) ==> (InBatch(v.awaiting.value, ack) <==> v.acked + 1 in v.stored))
  {
    InitIsOk(w, l);
    RunKeeps(w, l, acts);
    var v := After(w, l, acts);
    ReplyIsWithin(v, l, ack);
    if ack < v.acked {
      assert ack + 1 in v.stored;
    }
  }

  function Waiting(w: World): int { |w.all| - w.acked }

  // The replies taken in a run.
  ghost function Taken(w: World, l: Limits, acts: seq<Action>): nat
    requires Legal(w, l, acts)
    decreases |acts|
  {
    if acts == [] then 0
    else
      var v, a := After(w, l, acts[..|acts| - 1]), acts[|acts| - 1];
      Taken(w, l, acts[..|acts| - 1]) + if a.Reply? && InBatch(v.awaiting.value, a.ack) then 1 else 0
  }

  // Without new events, the queue shrinks by at least one for each reply taken: it is empty
  // after at most as many as it held.
  lemma {:induction false} QueueDrains(w: World, l: Limits, acts: seq<Action>)
    requires ValidLimits(l) && Inv(w, l) && Legal(w, l, acts)
    requires forall i :: 0 <= i < |acts| ==> !acts[i].Enqueue?
    ensures Taken(w, l, acts) <= Waiting(w) - Waiting(After(w, l, acts))
    ensures Taken(w, l, acts) == Waiting(w) ==> After(w, l, acts).acked == |w.all|
    decreases |acts|
  {
    if acts != [] {
      var front, a := acts[..|acts| - 1], acts[|acts| - 1];
      var v := After(w, l, front);
      QueueDrains(w, l, front);
      RunKeeps(w, l, front);
      assert !a.Enqueue?;
      if a.Reply? {
        ReplyIsWithin(v, l, a.ack);
      }
      RunKeeps(w, l, acts);
      AllStays(w, l, acts);
    }
  }

  lemma {:induction false} AllStays(w: World, l: Limits, acts: seq<Action>)
    requires Legal(w, l, acts) && forall i :: 0 <= i < |acts| ==> !acts[i].Enqueue?
    ensures After(w, l, acts).all == w.all
    decreases |acts|
  {
    if acts != [] {
      AllStays(w, l, acts[..|acts| - 1]);
      assert !acts[|acts| - 1].Enqueue?;
    }
  }

  // ---- The uploader ----

  // A failure to reach the center, or the acknowledgement in its reply.
  datatype Answer = Failure | Acked(stream: Id, highest: u64)

  datatype Upload = NothingToSend | Uploaded | Retry | Fatal

  // What waits in a queue: everything after what is acknowledged.
  datatype Backlog = Backlog(acked: nat, contents: seq<Raw>)

  ghost predicate Fits(l: Limits, b: Backlog) {
    ValidLimits(l) && b.acked + |b.contents| <= l.maxSequence
  }

  // The batch that is sent: as much of it, oldest first, as one upload takes.
  ghost function Sent(l: Limits, stream: Id, b: Backlog): (batch: EventBatch)
    requires Fits(l, b) && b.contents != []
    ensures batch.first == b.acked + 1 <= batch.last <= b.acked + |b.contents|
    ensures batch.stream == stream && batch.events == b.contents[..batch.last - b.acked]
  {
    BatchIsLongest(b.contents, l.batchEvents, UploadBytes(l));
    var n := BatchLength(b.contents, l.batchEvents, UploadBytes(l));
    EventBatch(stream, b.acked + 1, b.acked + n, b.contents[..n])
  }

  // An answer acknowledges a batch when it names its stream and one of its events.
  predicate Acknowledges(answer: Answer, batch: EventBatch) {
    answer.Acked? && answer.stream == batch.stream && batch.first <= answer.highest <= batch.last
  }

  // A round succeeds when the center acknowledges what is sent.
  ghost predicate Succeeds(l: Limits, stream: Id, b: Backlog, center: EventBatch -> Answer)
    requires Fits(l, b)
  {
    b.contents != [] && Acknowledges(center(Sent(l, stream, b)), Sent(l, stream, b))
  }

  // Then just what it acknowledges is gone.
  ghost function Left(l: Limits, stream: Id, b: Backlog, center: EventBatch -> Answer): (left: Backlog)
    requires Fits(l, b)
    ensures Fits(l, left) && b.acked <= left.acked && left.acked + |left.contents| == b.acked + |b.contents|
    ensures Succeeds(l, stream, b, center) <==> left.acked > b.acked
  {
    if Succeeds(l, stream, b, center) then
      var highest := center(Sent(l, stream, b)).highest;
      Backlog(highest, b.contents[highest - b.acked..])
    else b
  }

  // uploadOnce, with the center as it answers the batch it is given.
  method UploadOnce(queue: Queue, center: EventBatch -> Answer) returns (r: Upload)
    requires queue.Valid()
    modifies queue
    ensures queue.Valid() && queue.stream == old(queue.stream) && queue.nextSequence == old(queue.nextSequence)
    ensures var b := old(Backlog(queue.ackedSequence, queue.contents));
            && Fits(queue.limits, b)
            && (r == NothingToSend <==> b.contents == [])
            && (r == Uploaded <==> Succeeds(queue.limits, queue.stream, b, center))
            && r != Fatal
            && Backlog(queue.ackedSequence, queue.contents) == Left(queue.limits, queue.stream, b, center)
  {
    ghost var b := Backlog(queue.ackedSequence, queue.contents);
    var read := queue.Batch(queue.limits.batchEvents, UPLOAD_BATCH_BYTES);
    if read.Err? { return NothingToSend; }
    var batch := read.value;
    assert batch == Sent(queue.limits, queue.stream, b);
    var answer := center(batch);
    if answer.Failure? { return Retry; }
    if answer.stream != batch.stream || answer.highest < batch.first || answer.highest > batch.last { return Retry; }
    var done := queue.Acknowledge(answer.stream, answer.highest);
    if done.Err? { return Fatal; }
    return Uploaded;
  }

  // The limits that apply to what is sent.
  ghost function Sending(l: Limits): Limits { l.(batchBytes := UploadBytes(l)) }

  // The queue of the uploader is the one of a run between two uploads.
  ghost predicate Holds(w: World, b: Backlog) {
    w.awaiting == None && w.acked == b.acked <= |w.all| && w.all[b.acked..] == b.contents
  }

  // A call of UploadOnce is three steps of such a run: what it sends is the next request, and
  // what it leaves is what the run leaves, whether the center's answer is taken or not. In
  // between the center may have stored any of the request.
  lemma UploadIsRun(w: World, l: Limits, stream: Id, b: Backlog, got: set<nat>, center: EventBatch -> Answer)
    requires Fits(l, b) && Holds(w, b) && b.contents != []
    requires forall s :: s in got ==> Next(w, Sending(l)).first <= s <= Next(w, Sending(l)).last
    requires var answer := center(Sent(l, stream, b));
             answer.Acked? && answer.stream == stream ==> StoredUpTo(w.stored + got, answer.highest)
    ensures Next(w, Sending(l)) == Request(Sent(l, stream, b).first, Sent(l, stream, b).last)
    ensures var answer := center(Sent(l, stream, b));
            var last := if answer.Acked? && answer.stream == stream then Reply(answer.highest) else Lose;
            var acts := [Send, Store(Next(w, Sending(l)), got), last];
            Legal(w, Sending(l), acts) && Holds(After(w, Sending(l), acts), Left(l, stream, b, center))
  {
    var l' := Sending(l);
    var store := Store(Next(w, l'), got);
    var answer := center(Sent(l, stream, b));
    var last := if answer.Acked? && answer.stream == stream then Reply(answer.highest) else Lose;
    NextIsWithin(w, l');
    assert [Send][..0] == [] && [Send, store][..1] == [Send] && [Send, store, last][..2] == [Send, store];
    assert Legal(w, l', []);
    assert Legal(w, l', [Send]);
    assert Legal(w, l', [Send, store]);
    assert Legal(w, l', [Send, store, last]);
  }

  const UPLOAD_BATCH_BYTES := 524288

  ghost function UploadBytes(l: Limits): nat {
    if UPLOAD_BATCH_BYTES > l.batchBytes then l.batchBytes else UPLOAD_BATCH_BYTES
  }

  const SECOND := 1000
  const MINUTE := 60 * SECOND

  // The delay after some failures in a row.
  function Backoff(failures: nat): nat {
    if failures == 0 then SECOND
    else if 2 * Backoff(failures - 1) > MINUTE then MINUTE
    else 2 * Backoff(failures - 1)
  }

  // ---- Round after round ----

  ghost function LeftAfter(l: Limits, stream: Id, b: Backlog, centers: seq<EventBatch -> Answer>): (left: Backlog)
    requires Fits(l, b)
    ensures Fits(l, left) && left.acked + |left.contents| == b.acked + |b.contents|
    decreases |centers|
  {
    if centers == [] then b
    else Left(l, stream, LeftAfter(l, stream, b, centers[..|centers| - 1]), centers[|centers| - 1])
  }

  // The rounds that succeeded.
  ghost function Successes(l: Limits, stream: Id, b: Backlog, centers: seq<EventBatch -> Answer>): nat
    requires Fits(l, b)
    decreases |centers|
  {
    if centers == [] then 0
    else
      var front, last := centers[..|centers| - 1], centers[|centers| - 1];
      Successes(l, stream, b, front) + if Succeeds(l, stream, LeftAfter(l, stream, b, front), last) then 1 else 0
  }

  // The failed rounds since the last one that succeeded or had nothing to send.
  ghost function FailuresInARow(l: Limits, stream: Id, b: Backlog, centers: seq<EventBatch -> Answer>): nat
    requires Fits(l, b)
    decreases |centers|
  {
    if centers == [] then 0
    else
      var front, last := centers[..|centers| - 1], centers[|centers| - 1];
      var before := LeftAfter(l, stream, b, front);
      if before.contents == [] || Succeeds(l, stream, before, last) then 0 else FailuresInARow(l, stream, b, front) + 1
  }

  // A center that has stored the first event of whatever it is sent.
  ghost predicate Answers(center: EventBatch -> Answer, l: Limits, stream: Id) {
    forall b :: Fits(l, b) && b.contents != [] ==> Acknowledges(center(Sent(l, stream, b)), Sent(l, stream, b))
  }

  // Every success takes at least one event out of the queue, so as many rounds as it holds
  // events empty it if the center answers in each, and no failure is left to back off from.
  lemma {:induction false} RoundsDrain(l: Limits, stream: Id, b: Backlog, centers: seq<EventBatch -> Answer>)
    requires Fits(l, b)
    ensures Successes(l, stream, b, centers) <= LeftAfter(l, stream, b, centers).acked - b.acked
    ensures (forall i :: 0 <= i < |centers| ==> Answers(centers[i], l, stream)) ==>
              && LeftAfter(l, stream, b, centers).acked - b.acked >= (if |centers| < |b.contents| then |centers| else |b.contents|)
              && (|centers| >= |b.contents| ==> LeftAfter(l, stream, b, centers).contents == [])
              && FailuresInARow(l, stream, b, centers) == 0
    decreases |centers|
  {
    if centers != [] {
      var front, last := centers[..|centers| - 1], centers[|centers| - 1];
      RoundsDrain(l, stream, b, front);
      var before := LeftAfter(l, stream, b, front);
      if forall i :: 0 <= i < |centers| ==> Answers(centers[i], l, stream) {
        assert forall i :: 0 <= i < |front| ==> front[i] == centers[i];
        assert Answers(last, l, stream);
        assert before.contents != [] ==> Succeeds(l, stream, before, last);
      }
    }
  }

  // Run, for as many rounds as there are answers: after a failure the delay doubles up to a
  // minute, after any other round it starts again at a second.
  method Run(queue: Queue, centers: seq<EventBatch -> Answer>) returns (backoff: nat, uploads: nat)
    requires queue.Valid()
    modifies queue
    ensures queue.Valid()
    ensures queue.stream == old(queue.stream) && queue.nextSequence == old(queue.nextSequence)
    ensures var b := old(Backlog(queue.ackedSequence, queue.contents));
            && Fits(queue.limits, b)
            && Backlog(queue.ackedSequence, queue.contents) == LeftAfter(queue.limits, queue.stream, b, centers)
            && uploads == Successes(queue.limits, queue.stream, b, centers)
            && backoff == Backoff(FailuresInARow(queue.limits, queue.stream, b, centers))
            && SECOND <= backoff <= MINUTE
  {
    backoff, uploads := SECOND, 0;
    ghost var l, stream, b := queue.limits, queue.stream, Backlog(queue.ackedSequence, queue.contents);
    var round := 0;
    while round < |centers|
      invariant 0 <= round <= |centers|
      invariant queue.Valid() && queue.stream == stream && queue.nextSequence == old(queue.nextSequence)
      invariant Backlog(queue.ackedSequence, queue.contents) == LeftAfter(l, stream, b, centers[..round])
      invariant uploads == Successes(l, stream, b, centers[..round])
      invariant backoff == Backoff(FailuresInARow(l, stream, b, centers[..round])) && SECOND <= backoff <= MINUTE
    {
      var r := UploadOnce(queue, centers[round]);
      assert centers[..round + 1][..round] == centers[..round];
      if r == NothingToSend || r == Uploaded {
        backoff := SECOND;
        uploads := uploads + if r == Uploaded then 1 else 0;
      } else {
        backoff := backoff * 2;
        if backoff > MINUTE { backoff := MINUTE; }
      }
      round := round + 1;
    }
    assert centers[..round] == centers;
  }
}
