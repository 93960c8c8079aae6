// Telemetry cursors: what a plugin reported and which of it has been handed to the event
// queue, with a crash possible between any two steps (collectRuntime in
// internal/policy/engine.go, TelemetryCursor and AdvanceTelemetryCursor in store.go).
module Telemetry {
  import opened Prelude
  import opened PolicyModel

  datatype Cursor = Cursor(stream: Id, sequence: u64)

  // The cursor of a stream is that of the last stream stored for the plugin, or zero.
  function CursorFor(cursors: map<Id, Cursor>, plugin: Id, stream: Id): u64 {
    if plugin in cursors && cursors[plugin].stream == stream then cursors[plugin].sequence else 0
  }

  function Advanced(cursors: map<Id, Cursor>, plugin: Id, stream: Id, previous: u64, next: u64): Result<map<Id, Cursor>, ()> {
    if next < previous || next > MAX_INT64 then Err(())
    else if plugin in cursors && cursors[plugin].stream == stream && cursors[plugin].sequence != previous then Err(())
    else if plugin in cursors && cursors[plugin].stream != stream && previous != 0 then Err(())
    else Ok(cursors[plugin := Cursor(stream, next)])
  }

  // An advance succeeds exactly when it starts from the stored cursor of its stream and
  // does not go back.
  lemma AdvanceStartsFromTheCursor(cursors: map<Id, Cursor>, plugin: Id, stream: Id, previous: u64, next: u64)
    requires plugin in cursors
    ensures Advanced(cursors, plugin, stream, previous, next).Ok? <==>
            previous == CursorFor(cursors, plugin, stream) && previous <= next <= MAX_INT64
  {
  }

  // ---- All runs ----

  // An access event as a plugin reports it on one of its streams.
  datatype Event = Event(plugin: Id, stream: Id, sequence: u64, authorization: Id, service: Id)

  function KeyOfService(e: Event): ServiceKey { ServiceKey(e.plugin, e.authorization, e.service) }

  // A collection in progress: the cursor in memory, what is left of the last page, and
  // whether its first event has been dealt with.
  datatype Session = Session(plugin: Id, stream: Id, cursor: u64, page: seq<Event>, handled: bool)

  datatype World = World(
    cursors: map<Id, Cursor>,
    session: Option<Session>,
    bound: set<ServiceKey>,  // the bindings of the current snapshot
    emitted: set<Event>,
    queued: set<Event>,
    unknown: set<Event>)     // passed over because their binding was not known

  datatype Action =
    | Emit(event: Event)
    | Rebind(bound: set<ServiceKey>)
    | Begin(plugin: Id, stream: Id)
    | Page(events: seq<Event>)
    | Handle                 // the first event of the page: into the queue, if its binding is known
    | Advance
    | End                    // the collection ends, fails, or the Agent crashes

  ghost predicate Increasing(s: seq<Event>) {
    forall i, j :: 0 <= i < j < |s| ==> s[i].sequence < s[j].sequence
  }

  predicate IsOf(e: Event, plugin: Id, stream: Id) { e.plugin == plugin && e.stream == stream }

  // A page holds, in order, every event of the stream after the cursor up to its last one.
  ghost predicate IsPage(emitted: set<Event>, s: Session, page: seq<Event>) {
    && Increasing(page)
    && (forall e :: e in page ==> e in emitted && IsOf(e, s.plugin, s.stream) && e.sequence > s.cursor)
    && (page != [] ==>
          forall e :: e in emitted && IsOf(e, s.plugin, s.stream) && s.cursor < e.sequence <= page[|page| - 1].sequence ==>
            e in page)
  }

  ghost predicate Enabled(w: World, a: Action) {
    match a
    case Emit(e) =>
      && 0 < e.sequence <= MAX_INT64
      && forall o :: o in w.emitted && IsOf(o, e.plugin, e.stream) ==> o.sequence < e.sequence
    case Rebind(bound) => true
    case Begin(plugin, stream) => true
    case Page(page) => w.session.Some? && w.session.value.page == [] && IsPage(w.emitted, w.session.value, page)
    case Handle => w.session.Some? && w.session.value.page != []
    case Advance => w.session.Some? && w.session.value.handled && w.session.value.page != [] && Moved(w).Ok?
    case End => true
  }

  function Moved(w: World): Result<map<Id, Cursor>, ()>
    requires w.session.Some? && w.session.value.page != []
  {
    var s := w.session.value;
    Advanced(w.cursors, s.plugin, s.stream, s.cursor, s.page[0].sequence)
  }

  ghost function Step(w: World, a: Action): World
    requires Enabled(w, a)
  {
    match a
    case Emit(e) => w.(emitted := w.emitted + {e})
    case Rebind(bound) => w.(bound := bound)
    case Begin(plugin, stream) => w.(session := Some(Session(plugin, stream, CursorFor(w.cursors, plugin, stream), [], false)))
    case Page(page) => w.(session := Some(w.session.value.(page := page, handled := false)))
    case Handle =>
      var s := w.session.value;
      var known := KeyOfService(s.page[0]) in w.bound;
      w.(session := Some(s.(handled := true)),
         queued := if known then w.queued + {s.page[0]} else w.queued,
         unknown := if known then w.unknown else w.unknown + {s.page[0]})
    case Advance =>
      var s := w.session.value;
      w.(cursors := Moved(w).value,
         session := Some(s.(cursor := s.page[0].sequence, page := s.page[1..], handled := false)))
    case End => w.(session := None)
  }

  ghost predicate Legal(w: World, acts: seq<Action>)
    decreases |acts|, 0
  {
    acts == [] || (Legal(w, acts[..|acts| - 1]) && Enabled(After(w, acts[..|acts| - 1]), acts[|acts| - 1]))
  }

  ghost function After(w: World, acts: seq<Action>): World
    requires Legal(w, acts)
    decreases |acts|, 1
  {
    if acts == [] then w else Step(After(w, acts[..|acts| - 1]), acts[|acts| - 1])
  }

  ghost predicate Init(w: World) {
    w.cursors == map[] && w.session == None && w.bound == {} && w.emitted == {} && w.queued == {} && w.unknown == {}
  }

  // ---- Runs as the states they go through ----

  ghost predicate Linked(trace: seq<World>, acts: seq<Action>, i: nat)
    requires |trace| == |acts| + 1 && i < |acts|
  {
    Enabled(trace[i], acts[i]) && trace[i + 1] == Step(trace[i], acts[i])
  }

  ghost predicate IsTrace(trace: seq<World>, acts: seq<Action>) {
    && |trace| == |acts| + 1 && Init(trace[0])
    && forall i {:trigger Linked(trace, acts, i)} :: 0 <= i < |acts| ==> Linked(trace, acts, i)
  }

  lemma TraceExtends(trace: seq<World>, acts: seq<Action>, a: Action)
    requires IsTrace(trace, acts) && Enabled(trace[|acts|], a)
    ensures IsTrace(trace + [Step(trace[|acts|], a)], acts + [a])
  {
    var trace', acts' := trace + [Step(trace[|acts|], a)], acts + [a];
    forall i {:trigger Linked(trace', acts', i)} | 0 <= i < |acts'|
      ensures Linked(trace', acts', i)
    {
      if i < |acts| {
        assert Linked(trace, acts, i);
      }
    }
  }

  lemma {:induction false} TraceIsLegal(trace: seq<World>, acts: seq<Action>)
    requires IsTrace(trace, acts)
    ensures Legal(trace[0], acts) && After(trace[0], acts) == trace[|acts|]
    decreases |acts|
  {
    if acts != [] {
      var n := |acts| - 1;
      assert Linked(trace, acts, n);
      var trace', acts' := trace[..|acts|], acts[..n];
      forall i {:trigger Linked(trace', acts', i)} | 0 <= i < n
        ensures Linked(trace', acts', i)
      {
        assert Linked(trace, acts, i);
      }
      TraceIsLegal(trace', acts');
    }
  }

  // ---- The invariant ----

  ghost predicate Covered(w: World, plugin: Id, stream: Id, sequence: u64) {
    forall e :: e in w.emitted && IsOf(e, plugin, stream) && e.sequence <= sequence ==>
      e in w.queued || e in w.unknown
  }

  ghost predicate SessionOk(w: World, s: Session) {
    && s.cursor == CursorFor(w.cursors, s.plugin, s.stream)
    && IsPage(w.emitted, s, s.page)
    && (s.handled && s.page != [] ==> s.page[0] in w.queued || s.page[0] in w.unknown)
  }

  // The cursor of a plugin is the number of an event it reported.
  ghost predicate Reached(w: World, plugin: Id)
    requires plugin in w.cursors
  {
    exists e :: e in w.emitted && IsOf(e, plugin, w.cursors[plugin].stream) && e.sequence == w.cursors[plugin].sequence
  }

  ghost predicate Inv(w: World) {
    && (forall e :: e in w.emitted ==> 0 < e.sequence <= MAX_INT64)
    && (forall p :: p in w.cursors ==> Covered(w, p, w.cursors[p].stream, w.cursors[p].sequence))
    && (forall p :: p in w.cursors ==> Reached(w, p))
    && (w.session.Some? ==> SessionOk(w, w.session.value))
  }

  lemma EmitKeeps(w: World, a: Action)
    requires Inv(w) && a.Emit? && Enabled(w, a)
    ensures Inv(Step(w, a))
  {
    var w' := Step(w, a);
    if w.session.Some? && w.session.value.page != [] {
      var s := w.session.value;
      assert s.page[|s.page| - 1] in s.page;
    }
    forall p | p in w'.cursors
      ensures Covered(w', p, w'.cursors[p].stream, w'.cursors[p].sequence)
    {
      assert Covered(w, p, w.cursors[p].stream, w.cursors[p].sequence);
      assert Reached(w, p);
    }
  }

  // The first event of a page is the next one after the cursor.
  lemma HeadIsNext(w: World, s: Session)
    requires SessionOk(w, s) && s.page != [] && s.handled && Covered(w, s.plugin, s.stream, s.cursor)
    ensures Covered(w, s.plugin, s.stream, s.page[0].sequence)
  {
    forall e | e in w.emitted && IsOf(e, s.plugin, s.stream) && e.sequence <= s.page[0].sequence
      ensures e in w.queued || e in w.unknown
    {
      if e.sequence > s.cursor {
        assert e.sequence <= s.page[|s.page| - 1].sequence;
        var i :| 0 <= i < |s.page| && s.page[i] == e;
        assert i == 0;
      }
    }
  }

  lemma RestIsPage(w: World, s: Session)
    requires IsPage(w.emitted, s, s.page) && s.page != []
    ensures IsPage(w.emitted, s.(cursor := s.page[0].sequence, page := s.page[1..], handled := false), s.page[1..])
  {
    var rest := s.page[1..];
    forall e | e in rest
      ensures e in w.emitted && IsOf(e, s.plugin, s.stream) && e.sequence > s.page[0].sequence
    {
      assert e in s.page;
    }
    if rest != [] {
      RestIsComplete(w, s);
    }
  }

  lemma RestIsComplete(w: World, s: Session)
    requires IsPage(w.emitted, s, s.page) && |s.page| > 1
    ensures var last := s.page[|s.page| - 1].sequence;
            forall e :: e in w.emitted && IsOf(e, s.plugin, s.stream) && s.page[0].sequence < e.sequence <= last ==> e in s.page[1..]
  {
    assert s.page == [s.page[0]] + s.page[1..];
    assert s.page[0] in s.page;
  }

  lemma NothingBeforeTheCursor(w: World, s: Session)
    requires Inv(w) && SessionOk(w, s)
    ensures Covered(w, s.plugin, s.stream, s.cursor)
  {
    if s.plugin in w.cursors {
      assert Covered(w, s.plugin, w.cursors[s.plugin].stream, w.cursors[s.plugin].sequence);
    }
  }

  lemma AdvanceKeeps(w: World, a: Action)
    requires Inv(w) && a.Advance? && Enabled(w, a)
    ensures Inv(Step(w, a))
  {
    var s, w' := w.session.value, Step(w, a);
    NothingBeforeTheCursor(w, s);
    HeadIsNext(w, s);
    RestIsPage(w, s);
    assert s.page[0] in s.page;
    forall p | p in w'.cursors
      ensures Covered(w', p, w'.cursors[p].stream, w'.cursors[p].sequence)
    {
      if p != s.plugin {
        assert Covered(w, p, w.cursors[p].stream, w.cursors[p].sequence);
      }
    }
  }

  lemma StepKeeps(w: World, a: Action)
    requires Inv(w) && Enabled(w, a)
    ensures Inv(Step(w, a))
  {
    match a
    case Emit(_) => EmitKeeps(w, a);
    case Advance => AdvanceKeeps(w, a);
    case _ => OthersKeep(w, a);
  }

  lemma OthersKeep(w: World, a: Action)
    requires Inv(w) && Enabled(w, a) && !a.Emit? && !a.Advance?
    ensures Inv(Step(w, a))
  {
    forall p | p in w.cursors
      ensures Covered(Step(w, a), p, w.cursors[p].stream, w.cursors[p].sequence) && Reached(Step(w, a), p)
    {
      assert Covered(w, p, w.cursors[p].stream, w.cursors[p].sequence) && Reached(w, p);
    }
  }

  lemma {:induction false} RunKeeps(w: World, acts: seq<Action>)
    requires Inv(w) && Legal(w, acts)
    ensures Inv(After(w, acts))
    decreases |acts|
  {
    if acts != [] {
      RunKeeps(w, acts[..|acts| - 1]);
      StepKeeps(After(w, acts[..|acts| - 1]), acts[|acts| - 1]);
    }
  }

  // ---- What holds in every run ----

  // At this point of a run an event is dealt with while its service is not bound.
  ghost predicate HandledUnbound(w: World, acts: seq<Action>, n: nat, e: Event)
    requires Legal(w, acts)
  {
    && n < |acts| && acts[n].Handle?
    && Legal(w, acts[..n])
    && var u := After(w, acts[..n]);
       u.session.Some? && u.session.value.page != [] && u.session.value.page[0] == e && KeyOfService(e) !in u.bound
  }

  lemma {:induction false} UnknownWasUnbound(w: World, acts: seq<Action>, e: Event)
    requires Init(w) && Legal(w, acts) && e in After(w, acts).unknown
    ensures exists n: nat :: HandledUnbound(w, acts, n, e)
    decreases |acts|
  {
    var front := acts[..|acts| - 1];
    if e in After(w, front).unknown {
      UnknownWasUnbound(w, front, e);
      var n: nat :| HandledUnbound(w, front, n, e);
      assert front[..n] == acts[..n];
      assert HandledUnbound(w, acts, n, e);
    } else {
      assert HandledUnbound(w, acts, |front|, e);
    }
  }

  // No telemetry is lost: whenever the Agent may crash, every event up to the stored cursor
  // of its stream has been queued, unless its service was not bound when it was dealt with.
  lemma NoTelemetryLoss(w: World, acts: seq<Action>, e: Event)
    requires Init(w) && Legal(w, acts)
    requires var v := After(w, acts); e in v.emitted && e.sequence <= CursorFor(v.cursors, e.plugin, e.stream)
    ensures e in After(w, acts).queued || exists n: nat :: HandledUnbound(w, acts, n, e)
  {
    RunKeeps(w, acts);
    var v := After(w, acts);
    assert Covered(v, e.plugin, v.cursors[e.plugin].stream, v.cursors[e.plugin].sequence);
    if e !in v.queued {
      UnknownWasUnbound(w, acts, e);
    }
  }

  ghost predicate BoundThroughout(w: World, acts: seq<Action>, from: nat, key: ServiceKey)
    requires Legal(w, acts)
  {
    forall n :: from <= n <= |acts| && Legal(w, acts[..n]) ==> key in After(w, acts[..n]).bound
  }

  // What is reported while a service stays bound is in the queue once the cursor is past it.
  lemma BoundEventsAreQueued(w: World, acts: seq<Action>, from: nat, e: Event)
    requires Init(w) && Legal(w, acts) && from <= |acts| && Legal(w, acts[..from])
    requires e !in After(w, acts[..from]).emitted && BoundThroughout(w, acts, from, KeyOfService(e))
    requires var v := After(w, acts); e in v.emitted && e.sequence <= CursorFor(v.cursors, e.plugin, e.stream)
    ensures e in After(w, acts).queued
  {
    if e !in After(w, acts).queued {
      NoTelemetryLoss(w, acts, e);
      var n: nat :| HandledUnbound(w, acts, n, e);
      if n < from {
        HandledIsEmitted(w, acts, n, e);
        assert acts[..from][..n] == acts[..n];
        EmittedStays(w, acts[..from], n, e);
      }
    }
  }

  lemma HandledIsEmitted(w: World, acts: seq<Action>, n: nat, e: Event)
    requires Init(w) && Legal(w, acts) && HandledUnbound(w, acts, n, e)
    ensures e in After(w, acts[..n]).emitted
  {
    RunKeeps(w, acts[..n]);
    var page := After(w, acts[..n]).session.value.page;
    assert page[0] in page;
  }

  lemma {:induction false} EmittedStays(w: World, acts: seq<Action>, n: nat, e: Event)
    requires Legal(w, acts) && n <= |acts| && Legal(w, acts[..n])
    requires e in After(w, acts[..n]).emitted
    ensures e in After(w, acts).emitted
    decreases |acts|
  {
    if n == |acts| {
      assert acts[..n] == acts;
    } else {
      assert acts[..|acts| - 1][..n] == acts[..n];
      EmittedStays(w, acts[..|acts| - 1], n, e);
    }
  }

  // The cursor of one stream never goes back, and the first cursor stored for another
  // stream comes from a collection that began at zero.
  lemma CursorsOnlyAdvance(w: World, acts: seq<Action>, a: Action, p: Id)
    requires Init(w) && Legal(w, acts) && Enabled(After(w, acts), a) && p in After(w, acts).cursors
    ensures var v, v' := After(w, acts), Step(After(w, acts), a);
            && p in v'.cursors
            && (v'.cursors[p].stream == v.cursors[p].stream ==> v.cursors[p].sequence <= v'.cursors[p].sequence)
            && (v'.cursors[p].stream != v.cursors[p].stream ==>
                  v.session.Some? && v.session.value.plugin == p && v.session.value.cursor == 0)
  {
    RunKeeps(w, acts);
  }

  // The store never refuses an advance: its two concurrency checks cannot fail while one
  // collection runs at a time.
  lemma AdvanceIsNeverRefused(w: World, acts: seq<Action>)
    requires Init(w) && Legal(w, acts)
    requires var v := After(w, acts); v.session.Some? && v.session.value.page != []
    ensures Moved(After(w, acts)).Ok?
  {
    RunKeeps(w, acts);
    var s := After(w, acts).session.value;
    assert s.page[0] in s.page;
  }
}
