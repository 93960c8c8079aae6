// Collecting a plugin's telemetry: counters into the ledgers, access events into the queue,
// and the cursor behind them (collectRuntime in internal/policy/engine.go). A collection is
// a legal run of Telemetry and of PolicySystem at once.
module PolicyCollector {
  import opened Prelude
  import opened PolicyModel
  import opened PolicyCounters
  import opened PolicyTraffic
  import opened PolicyTransactions
  import opened PolicySystem
  import opened PolicyInvariant
  import opened PolicyBuckets
  import opened PolicyCapacity
  import opened PolicyQuiescence
  import opened PolicyProgress
  import opened PolicyEngine
  import Telemetry

  datatype AccessEvent = AccessEvent(sequence: u64, authorization: Id, service: Id, address: Option<Id>, accepted: bool, observedAt: int)

  datatype Response =
    | Failure
    | Page(hasStatus: bool, counters: seq<Option<Reading>>, events: seq<AccessEvent>, next: u64, more: bool)

  // A plugin answers for a page number and the cursor it is asked to continue from.
  datatype Plugin = Plugin(answer: (nat, u64) -> Response)

  function Ask(plugin: Plugin, page: nat, cursor: u64): Response { plugin.answer(page, cursor) }

  const MAXIMUM_TELEMETRY_PAGES := 16

  function EventOf(name: Id, stream: Id, e: AccessEvent): Telemetry.Event {
    Telemetry.Event(name, stream, e.sequence, e.authorization, e.service)
  }

  function EventsOf(name: Id, stream: Id, events: seq<AccessEvent>): (s: seq<Telemetry.Event>)
    ensures |s| == |events|
    ensures forall i :: 0 <= i < |s| ==> s[i] == EventOf(name, stream, events[i])
  {
    seq(|events|, i requires 0 <= i < |events| => EventOf(name, stream, events[i]))
  }

  // The plugin returns, in order, every event after the cursor.
  ghost predicate Honest(emitted: set<Telemetry.Event>, name: Id, stream: Id, plugin: Plugin) {
    forall n: nat, cursor: u64 :: Ask(plugin, n, cursor).Page? ==>
      Telemetry.IsPage(emitted, Telemetry.Session(name, stream, cursor, [], false), EventsOf(name, stream, Ask(plugin, n, cursor).events))
  }

  // ---- What a collection asks for and gets ----

  function CursorAfter(from: u64, events: seq<AccessEvent>): u64 {
    if events == [] then from else events[|events| - 1].sequence
  }

  // The cursor that page n is asked from, and the events of the pages before it.
  function CursorAt(plugin: Plugin, from: u64, n: nat): u64 {
    if n == 0 then from
    else
      var cursor := CursorAt(plugin, from, n - 1);
      if Ask(plugin, n - 1, cursor).Page? then CursorAfter(cursor, Ask(plugin, n - 1, cursor).events) else cursor
  }

  function Reported(plugin: Plugin, from: u64, n: nat): seq<AccessEvent> {
    if n == 0 then []
    else
      var response := Ask(plugin, n - 1, CursorAt(plugin, from, n - 1));
      Reported(plugin, from, n - 1) + if response.Page? then response.events else []
  }

  lemma {:induction false} CursorIsAfterReported(plugin: Plugin, from: u64, n: nat)
    ensures CursorAt(plugin, from, n) == CursorAfter(from, Reported(plugin, from, n))
  {
    if n > 0 {
      CursorIsAfterReported(plugin, from, n - 1);
    }
  }

  lemma CursorAfterMore(from: u64, a: seq<AccessEvent>, b: seq<AccessEvent>)
    ensures CursorAfter(from, a + b) == CursorAfter(CursorAfter(from, a), b)
  {
  }

  // A collection is complete after the first page that says there is no more, if that is
  // within the limit.
  ghost predicate Complete(plugin: Plugin, from: u64, pages: nat) {
    && 1 <= pages <= MAXIMUM_TELEMETRY_PAGES
    && forall n :: 0 <= n < pages ==>
         && Ask(plugin, n, CursorAt(plugin, from, n)).Page?
         && Ask(plugin, n, CursorAt(plugin, from, n)).more == (n < pages - 1)
  }

  ghost predicate IsCounted(acts: seq<Action>, since: nat, name: Id, list: seq<Option<Reading>>) {
    exists i :: since <= i < |acts| && acts[i].ApplyCounters? && acts[i].plugin == name && acts[i].list == list
  }

  // The counters of the first n pages were applied, in calls after the first `since`.
  ghost predicate AllCounted(acts: seq<Action>, since: nat, name: Id, plugin: Plugin, from: u64, n: nat) {
    forall i: nat :: i < n && Ask(plugin, i, CursorAt(plugin, from, i)).Page? ==>
      IsCounted(acts, since, name, Ask(plugin, i, CursorAt(plugin, from, i)).counters)
  }

  // An event that an observation is made of: an accepted connection to a bound service.
  predicate IsObservable(e: AccessEvent, name: Id, bound: set<ServiceKey>) {
    IsFor(e, name, bound) && e.accepted && e.address.Some?
  }

  ghost predicate IsObserved(acts: seq<Action>, since: nat, e: AccessEvent)
    requires e.address.Some?
  {
    exists i :: since <= i < |acts| && acts[i] == ObserveActivity(e.authorization, e.address.value, e.observedAt)
  }

  ghost predicate AllObserved(acts: seq<Action>, since: nat, name: Id, bound: set<ServiceKey>, events: seq<AccessEvent>) {
    forall e :: e in events && IsObservable(e, name, bound) ==> IsObserved(acts, since, e)
  }

  // The other plugins' cursors.
  ghost predicate SameCursor(a: map<Id, Telemetry.Cursor>, b: map<Id, Telemetry.Cursor>, name: Id) {
    (name in b <==> name in a) && (name in a ==> b[name] == a[name])
  }

  ghost predicate OthersKept(a: map<Id, Telemetry.Cursor>, b: map<Id, Telemetry.Cursor>, name: Id) {
    forall o :: o != name ==> SameCursor(a, b, o)
  }

  predicate IsFor(e: AccessEvent, name: Id, bound: set<ServiceKey>) {
    ServiceKey(name, e.authorization, e.service) in bound
  }

  // The queue accepts the events of bound services; the first few answers are for others.
  ghost predicate AllAccepted(name: Id, bound: set<ServiceKey>, events: seq<AccessEvent>, accepts: Answers, skip: nat) {
    forall i :: 0 <= i < |events| && IsFor(events[i], name, bound) ==> accepts(i + skip)
  }

  // Nothing in a page is refused, apart from its counters: its status and its events are
  // accepted, it reports nothing it may not, and an empty page does not move the cursor.
  ghost predicate PageIsFine(name: Id, runtime: Runtime, bound: set<ServiceKey>, first: bool, response: Response, from: u64,
                             accepts: Answers)
    requires response.Page?
  {
    && (first && response.hasStatus ==> accepts(0))
    && (runtime.counters || response.counters == []) && (runtime.activity || response.events == [])
    && AllAccepted(name, bound, response.events, accepts, 1)
    && (response.events == [] ==> response.next == from)
  }

  // Why a page is not dealt with in a database.
  ghost predicate PageFails(db: Db, name: Id, runtime: Runtime, bound: set<ServiceKey>, first: bool, response: Response, from: u64,
                            accepts: Answers, at: Instant)
  {
    || response.Failure?
    || !PageIsFine(name, runtime, bound, first, response, from, accepts)
    || (runtime.counters && !CountersFit(db, name, response.counters, at))
  }

  // Why a collection ends with an error after some pages.
  ghost predicate IsStuck(db: Db, name: Id, runtime: Runtime, bound: set<ServiceKey>, plugin: Plugin, from: u64, pages: nat,
                          accepts: nat -> Answers, at: Instant)
  {
    && AllMore(plugin, from, pages)
    && (pages < MAXIMUM_TELEMETRY_PAGES ==>
          var cursor := CursorAt(plugin, from, pages);
          PageFails(db, name, runtime, bound, pages == 0, Ask(plugin, pages, cursor), cursor, accepts(pages), at))
  }

  ghost function Known(bound: set<ServiceKey>, events: seq<Telemetry.Event>): set<Telemetry.Event> {
    set e | e in events && Telemetry.KeyOfService(e) in bound
  }

  ghost function Unknown(bound: set<ServiceKey>, events: seq<Telemetry.Event>): set<Telemetry.Event> {
    set e | e in events && Telemetry.KeyOfService(e) !in bound
  }

  // Between two states, just these events were dealt with: those of bound services are in
  // the queue.
  ghost predicate Dealt(w: Telemetry.World, w': Telemetry.World, events: seq<Telemetry.Event>) {
    && w'.queued == w.queued + Known(w.bound, events) && w'.unknown == w.unknown + Unknown(w.bound, events)
    && w'.emitted == w.emitted && w'.bound == w.bound
  }

  lemma DealtWithAll(w: Telemetry.World, w1: Telemetry.World, w2: Telemetry.World, name: Id, stream: Id,
                     a: seq<AccessEvent>, b: seq<AccessEvent>)
    requires Dealt(w, w1, EventsOf(name, stream, a)) && Dealt(w1, w2, EventsOf(name, stream, b))
    ensures Dealt(w, w2, EventsOf(name, stream, a + b))
  {
    DealtMore(w, w1, w2, EventsOf(name, stream, a), EventsOf(name, stream, b));
    assert EventsOf(name, stream, a + b) == EventsOf(name, stream, a) + EventsOf(name, stream, b);
  }

  // Handling the first event of a page and then moving past it.
  lemma HandledIsDealt(w: Telemetry.World, w1: Telemetry.World, w2: Telemetry.World, page: seq<Telemetry.Event>)
    requires w.session.Some? && w.session.value.page == page != []
    requires w1 == Telemetry.Step(w, Telemetry.Handle)
    requires Telemetry.Enabled(w1, Telemetry.Advance) && w2 == Telemetry.Step(w1, Telemetry.Advance)
    ensures Dealt(w, w2, page[..1])
  {
    assert page[..1] == [page[0]];
  }

  // Every page before the n-th said that there is more.
  ghost predicate AllMore(plugin: Plugin, from: u64, n: nat) {
    forall i :: 0 <= i < n ==> Ask(plugin, i, CursorAt(plugin, from, i)).Page? && Ask(plugin, i, CursorAt(plugin, from, i)).more
  }

  lemma NextIsMore(plugin: Plugin, from: u64, n: nat)
    requires AllMore(plugin, from, n) && n < MAXIMUM_TELEMETRY_PAGES
    requires Ask(plugin, n, CursorAt(plugin, from, n)).Page?
    ensures if Ask(plugin, n, CursorAt(plugin, from, n)).more then AllMore(plugin, from, n + 1) else Complete(plugin, from, n + 1)
  {
  }

  lemma PageIsDone(plugin: Plugin, from: u64, next: nat, before: seq<AccessEvent>, response: Response)
    requires 0 < next <= MAXIMUM_TELEMETRY_PAGES && AllMore(plugin, from, next - 1) && before == Reported(plugin, from, next - 1)
    requires response == Ask(plugin, next - 1, CursorAt(plugin, from, next - 1)) && response.Page?
    ensures before + response.events == Reported(plugin, from, next)
    ensures if response.more then AllMore(plugin, from, next) else Complete(plugin, from, next)
  {
    NextIsMore(plugin, from, next - 1);
  }

  lemma DealtMore(w: Telemetry.World, w1: Telemetry.World, w2: Telemetry.World, a: seq<Telemetry.Event>, b: seq<Telemetry.Event>)
    requires Dealt(w, w1, a) && Dealt(w1, w2, b)
    ensures Dealt(w, w2, a + b)
  {
  }

  // ---- The state a collection works on ----

  datatype State = State(telemetry: Telemetry.World, cursors: map<Id, Telemetry.Cursor>, acts: seq<Action>, db: Db,
                         calls: seq<PolicyProgress.Call>)

  // A collection is in progress, with the bindings of the current snapshot.
  ghost predicate InSession(s: State, name: Id, stream: Id, cursor: u64, page: seq<Telemetry.Event>) {
    && s.telemetry.session.Some?
    && s.telemetry.session.value.plugin == name && s.telemetry.session.value.stream == stream
    && s.telemetry.session.value.cursor == cursor && s.telemetry.session.value.page == page
    && s.telemetry.bound == BoundKeys(s.db.policies)
  }

  // The same, wherever it is in its page.
  ghost predicate StillIn(s: State, name: Id, stream: Id, cursor: u64) {
    s.telemetry.session.Some? && InSession(s, name, stream, cursor, s.telemetry.session.value.page)
  }

  // What a collection leaves alone: all but counters, traffic, activity and its own cursor.
  ghost predicate Later(s: State, s': State, name: Id) {
    && s.acts <= s'.acts && s'.calls == s.calls && OthersKept(s.cursors, s'.cursors, name)
    && s'.db == s.db.(counters := s'.db.counters, traffic := s'.db.traffic, activity := s'.db.activity)
  }

  // In between, just these events were dealt with, and those that matter were observed.
  ghost predicate Handled(s: State, s': State, name: Id, stream: Id, events: seq<AccessEvent>) {
    && Later(s, s', name)
    && Dealt(s.telemetry, s'.telemetry, EventsOf(name, stream, events))
    && AllObserved(s'.acts, |s.acts|, name, s.telemetry.bound, events)
  }

  lemma LaterOn(s: State, s1: State, s2: State, name: Id)
    requires Later(s, s1, name) && Later(s1, s2, name)
    ensures Later(s, s2, name)
  {
    forall o | o != name
      ensures SameCursor(s.cursors, s2.cursors, o)
    {
      assert SameCursor(s.cursors, s1.cursors, o) && SameCursor(s1.cursors, s2.cursors, o);
    }
  }

  lemma HandledMore(s: State, s1: State, s2: State, name: Id, stream: Id, a: seq<AccessEvent>, b: seq<AccessEvent>)
    requires Handled(s, s1, name, stream, a) && Handled(s1, s2, name, stream, b)
    ensures Handled(s, s2, name, stream, a + b)
  {
    LaterOn(s, s1, s2, name);
    DealtWithAll(s.telemetry, s1.telemetry, s2.telemetry, name, stream, a, b);
    ObservedStays(s1.acts, s2.acts, |s.acts|, |s.acts|, name, s.telemetry.bound, a);
    ObservedStays(s2.acts, s2.acts, |s.acts|, |s1.acts|, name, s.telemetry.bound, b);
    ObservedMore(s2.acts, |s.acts|, name, s.telemetry.bound, a, b);
  }

  // Counting, and opening the page, come before its events.
  lemma HandledAfter(s: State, s1: State, s2: State, name: Id, stream: Id, events: seq<AccessEvent>)
    requires Later(s, s1, name) && s1.telemetry == s.telemetry.(session := s1.telemetry.session)
    requires Handled(s1, s2, name, stream, events)
    ensures Handled(s, s2, name, stream, events)
  {
    LaterOn(s, s1, s2, name);
    ObservedStays(s2.acts, s2.acts, |s.acts|, |s1.acts|, name, s.telemetry.bound, events);
  }

  // What one event does to the database: an accepted one of a bound service is observed.
  function AfterEvent(db: Db, name: Id, e: AccessEvent): Db {
    if IsObservable(e, name, BoundKeys(db.policies)) then ActivityObserved(db, e.authorization, e.address.value, e.observedAt).0 else db
  }

  lemma EventIsHandled(s: State, s1: Telemetry.World, s': State, name: Id, stream: Id, cursor: u64, e: AccessEvent,
                       page: seq<Telemetry.Event>)
    requires page != [] && page[0] == EventOf(name, stream, e) && InSession(s, name, stream, cursor, page)
    requires s1 == Telemetry.Step(s.telemetry, Telemetry.Handle)
    requires Telemetry.Enabled(s1, Telemetry.Advance) && s'.telemetry == Telemetry.Step(s1, Telemetry.Advance)
    requires OthersKept(s.cursors, s'.cursors, name) && s'.calls == s.calls && s'.db == AfterEvent(s.db, name, e)
    requires s'.acts == s.acts + if IsObservable(e, name, BoundKeys(s.db.policies))
                                then [ObserveActivity(e.authorization, e.address.value, e.observedAt)] else []
    ensures Handled(s, s', name, stream, [e]) && InSession(s', name, stream, e.sequence, page[1..])
  {
    HandledIsDealt(s.telemetry, s1, s'.telemetry, page);
    assert page[..1] == EventsOf(name, stream, [e]);
    if IsObservable(e, name, BoundKeys(s.db.policies)) {
      assert s'.acts[|s.acts|] == ObserveActivity(e.authorization, e.address.value, e.observedAt);
    }
  }

  lemma EventsOfMore(name: Id, stream: Id, events: seq<AccessEvent>, n: nat)
    requires n < |events|
    ensures events[..n + 1] == events[..n] + [events[n]]
    ensures EventsOf(name, stream, events)[n..] != [] && EventsOf(name, stream, events)[n..][0] == EventOf(name, stream, events[n])
    ensures EventsOf(name, stream, events)[n..][1..] == EventsOf(name, stream, events)[n + 1..]
  {
  }

  // The first n events of a page were accepted and dealt with.
  ghost predicate EventsSoFar(s: State, s': State, name: Id, stream: Id, from: u64, events: seq<AccessEvent>, accepts: Answers, skip: nat,
                              n: nat, cursor: u64)
  {
    && n <= |events| && Handled(s, s', name, stream, events[..n])
    && InSession(s', name, stream, cursor, EventsOf(name, stream, events)[n..]) && cursor == CursorAfter(from, events[..n])
    && AllAccepted(name, BoundKeys(s.db.policies), events[..n], accepts, skip)
  }

  lemma NoEventYet(s: State, name: Id, stream: Id, from: u64, events: seq<AccessEvent>, accepts: Answers, skip: nat)
    requires InSession(s, name, stream, from, EventsOf(name, stream, events))
    ensures EventsSoFar(s, s, name, stream, from, events, accepts, skip, 0, from)
  {
    assert EventsOf(name, stream, events)[0..] == EventsOf(name, stream, events);
  }

  lemma OneEventMore(s: State, s1: State, s2: State, name: Id, stream: Id, from: u64, events: seq<AccessEvent>, accepts: Answers,
                     skip: nat, n: nat, cursor: u64)
    requires n < |events| && EventsSoFar(s, s1, name, stream, from, events, accepts, skip, n, cursor)
    requires IsFor(events[n], name, BoundKeys(s1.db.policies)) ==> accepts(n + skip)
    requires Handled(s1, s2, name, stream, [events[n]])
    requires InSession(s2, name, stream, events[n].sequence, EventsOf(name, stream, events)[n..][1..])
    ensures EventsSoFar(s, s2, name, stream, from, events, accepts, skip, n + 1, events[n].sequence)
  {
    EventsOfMore(name, stream, events, n);
    HandledMore(s, s1, s2, name, stream, events[..n], [events[n]]);
  }

  // What has been done with the events of a page, and whether none was refused.
  ghost predicate EventsEnd(s: State, s': State, name: Id, activity: bool, stream: Id, from: u64, events: seq<AccessEvent>,
                            accepts: Answers, ok: bool, cursor: u64, done: seq<AccessEvent>)
  {
    && done <= events && Handled(s, s', name, stream, done) && cursor == CursorAfter(from, done)
    && (if activity then StillIn(s', name, stream, cursor) else done == [])
    && (ok ==> done == events && (activity ==> InSession(s', name, stream, cursor, [])))
    && (ok <==> if activity then AllAccepted(name, BoundKeys(s.db.policies), events, accepts, 1) else events == [])
  }

  lemma NoEvents(s: State, name: Id, stream: Id, from: u64, events: seq<AccessEvent>, accepts: Answers)
    ensures EventsEnd(s, s, name, false, stream, from, events, accepts, events == [], from, [])
  {
  }

  ghost predicate PageIsOpen(s: State, s': State, name: Id, stream: Id, cursor: u64, page: seq<Telemetry.Event>) {
    && s' == s.(telemetry := s'.telemetry) && s'.telemetry == s.telemetry.(session := s'.telemetry.session)
    && InSession(s', name, stream, cursor, page)
  }

  lemma EventsAreDone(s: State, s1: State, s': State, name: Id, stream: Id, from: u64, events: seq<AccessEvent>, accepts: Answers,
                      n: nat, cursor: u64)
    requires PageIsOpen(s, s1, name, stream, from, EventsOf(name, stream, events))
    requires EventsSoFar(s1, s', name, stream, from, events, accepts, 1, n, cursor)
    requires n < |events| ==> IsFor(events[n], name, BoundKeys(s1.db.policies)) && !accepts(n + 1)
    ensures EventsEnd(s, s', name, true, stream, from, events, accepts, n == |events|, cursor, events[..n])
  {
    HandledAfter(s, s1, s', name, stream, events[..n]);
    assert n == |events| ==> events[..n] == events;
  }

  // What has been done with a page, and whether nothing of it was refused.
  ghost predicate PageEnds(s: State, s': State, name: Id, runtime: Runtime, stream: Id, from: u64, first: bool, response: Response,
                           accepts: Answers, at: Instant, ok: bool, cursor: u64, done: seq<AccessEvent>)
    requires response.Page?
  {
    && done <= response.events && Handled(s, s', name, stream, done) && cursor == CursorAfter(from, done)
    && (if runtime.activity then StillIn(s', name, stream, cursor) else done == [])
    && (ok ==> done == response.events && (runtime.activity ==> InSession(s', name, stream, cursor, [])))
    && (ok && runtime.counters ==> IsCounted(s'.acts, |s.acts|, name, response.counters))
    && (ok <==> !PageFails(s.db, name, runtime, BoundKeys(s.db.policies), first, response, from, accepts, at))
    && (!ok ==> PageFails(s'.db, name, runtime, BoundKeys(s.db.policies), first, response, from, accepts, at))
  }

  lemma PageIsRefused(s: State, s': State, name: Id, runtime: Runtime, stream: Id, from: u64, first: bool, response: Response,
                      accepts: Answers, at: Instant)
    requires response.Page? && HeadIsRefused(s, s', name, runtime, first, response, accepts, at)
    requires runtime.activity ==> StillIn(s, name, stream, from)
    ensures PageEnds(s, s', name, runtime, stream, from, first, response, accepts, at, false, from, [])
  {
  }

  ghost predicate HeadIsDone(s: State, s': State, name: Id, runtime: Runtime, first: bool, response: Response, accepts: Answers,
                             at: Instant)
    requires response.Page?
  {
    && (first && response.hasStatus ==> accepts(0)) && Later(s, s', name) && s'.telemetry == s.telemetry
    && (if runtime.counters then CountersFit(s.db, name, response.counters, at) else response.counters == [])
    && (runtime.counters ==> IsCounted(s'.acts, |s.acts|, name, response.counters))
  }

  ghost predicate HeadIsRefused(s: State, s': State, name: Id, runtime: Runtime, first: bool, response: Response, accepts: Answers,
                                at: Instant)
    requires response.Page?
  {
    s' == s
    && ((first && response.hasStatus && !accepts(0))
        || if runtime.counters then !CountersFit(s.db, name, response.counters, at) else response.counters != [])
  }

  lemma PageIsHandled(s: State, s1: State, s': State, name: Id, runtime: Runtime, stream: Id, from: u64, first: bool, response: Response,
                      accepts: Answers, at: Instant, ok: bool, cursor: u64, done: seq<AccessEvent>)
    requires response.Page? && HeadIsDone(s, s1, name, runtime, first, response, accepts, at)
    requires EventsEnd(s1, s', name, runtime.activity, stream, from, response.events, accepts, ok, cursor, done)
    ensures PageEnds(s, s', name, runtime, stream, from, first, response, accepts, at,
                     ok && (response.events == [] ==> response.next == cursor), cursor, done)
  {
    HandledAfter(s, s1, s', name, stream, done);
    if runtime.counters { CountedStays(s1.acts, s'.acts, |s.acts|, name, response.counters); }
  }

  // ---- A whole collection ----

  // How a collection went: from which cursor, how many pages without an error, the events
  // dealt with, and how many steps the engine had made by then.
  datatype Collection = Collection(ok: bool, from: u64, pages: nat, done: seq<AccessEvent>, end: nat)

  // After some pages that each said there is more.
  ghost predicate PagesSoFar(s: State, s': State, name: Id, runtime: Runtime, stream: Id, from: u64, plugin: Plugin, pages: nat,
                             done: seq<AccessEvent>)
  {
    && Handled(s, s', name, stream, done) && done == Reported(plugin, from, pages) && AllMore(plugin, from, pages)
    && (runtime.counters ==> AllCounted(s'.acts, |s.acts|, name, plugin, from, pages))
    && if runtime.activity
       then Honest(s'.telemetry.emitted, name, stream, plugin) && InSession(s', name, stream, CursorAfter(from, done), [])
       else done == []
  }

  // At the end, with all that was reported or stuck at a page.
  ghost predicate PagesEnd(s: State, s': State, name: Id, runtime: Runtime, stream: Id, from: u64, plugin: Plugin,
                           accepts: nat -> Answers, at: Instant, ok: bool, pages: nat, done: seq<AccessEvent>)
  {
    && Handled(s, s', name, stream, done)
    && (if runtime.activity then StillIn(s', name, stream, CursorAfter(from, done)) else done == [])
    && (runtime.counters ==> AllCounted(s'.acts, |s.acts|, name, plugin, from, pages))
    && if ok
       then Complete(plugin, from, pages) && done == Reported(plugin, from, pages)
       else Reported(plugin, from, pages) <= done <= Reported(plugin, from, pages + 1)
            && IsStuck(s'.db, name, runtime, BoundKeys(s.db.policies), plugin, from, pages, accepts, at)
  }

  lemma PageIsMissing(began: State, s: State, name: Id, runtime: Runtime, stream: Id, from: u64, plugin: Plugin, accepts: nat -> Answers,
                      at: Instant, pages: nat, done: seq<AccessEvent>)
    requires PagesSoFar(began, s, name, runtime, stream, from, plugin, pages, done)
    requires pages < MAXIMUM_TELEMETRY_PAGES ==> Ask(plugin, pages, CursorAfter(from, done)).Failure?
    ensures PagesEnd(began, s, name, runtime, stream, from, plugin, accepts, at, false, pages, done)
  {
    CursorIsAfterReported(plugin, from, pages);
    ReportedGrows(plugin, from, pages);
  }

  lemma ReportedGrows(plugin: Plugin, from: u64, n: nat)
    ensures Reported(plugin, from, n) <= Reported(plugin, from, n + 1)
    ensures var response := Ask(plugin, n, CursorAt(plugin, from, n));
            response.Page? ==> Reported(plugin, from, n + 1) == Reported(plugin, from, n) + response.events
  {
  }

  lemma PageStops(began: State, s: State, s': State, name: Id, runtime: Runtime, stream: Id, from: u64, plugin: Plugin,
                  accepts: nat -> Answers, at: Instant, page: nat, before: seq<AccessEvent>, cursor: u64, more: seq<AccessEvent>)
    requires page < MAXIMUM_TELEMETRY_PAGES
    requires PagesSoFar(began, s, name, runtime, stream, from, plugin, page, before)
    requires Ask(plugin, page, CursorAfter(from, before)).Page?
    requires PageEnds(s, s', name, runtime, stream, CursorAfter(from, before), page == 0, Ask(plugin, page, CursorAfter(from, before)),
                      accepts(page), at, false, cursor, more)
    ensures PagesEnd(began, s', name, runtime, stream, from, plugin, accepts, at, false, page, before + more)
  {
    HandledMore(began, s, s', name, stream, before, more);
    CursorAfterMore(from, before, more);
    CursorIsAfterReported(plugin, from, page);
    ReportedGrows(plugin, from, page);
    if runtime.counters {
      CountsKept(s.acts, s'.acts, |began.acts|, |began.acts|, name, plugin, from, page);
    }
  }

  lemma PageIsTaken(began: State, s: State, s': State, name: Id, runtime: Runtime, stream: Id, from: u64, plugin: Plugin,
                    accepts: nat -> Answers, at: Instant, next: nat, before: seq<AccessEvent>, response: Response)
    requires 0 < next <= MAXIMUM_TELEMETRY_PAGES
    requires PagesSoFar(began, s, name, runtime, stream, from, plugin, next - 1, before)
    requires response == Ask(plugin, next - 1, CursorAt(plugin, from, next - 1)) && response.Page?
    requires Handled(s, s', name, stream, response.events)
    requires if runtime.activity then InSession(s', name, stream, CursorAfter(from, before + response.events), [])
             else response.events == []
    requires runtime.counters ==> AllCounted(s'.acts, |began.acts|, name, plugin, from, next)
    ensures if response.more
            then PagesSoFar(began, s', name, runtime, stream, from, plugin, next, before + response.events)
            else PagesEnd(began, s', name, runtime, stream, from, plugin, accepts, at, true, next, before + response.events)
  {
    HandledMore(began, s, s', name, stream, before, response.events);
    PageIsDone(plugin, from, next, before, response);
  }

  lemma PageIsCounted(began: State, s: State, s': State, name: Id, runtime: Runtime, stream: Id, from: u64, plugin: Plugin, next: nat,
                      before: seq<AccessEvent>)
    requires 0 < next && PagesSoFar(began, s, name, runtime, stream, from, plugin, next - 1, before)
    requires Ask(plugin, next - 1, CursorAfter(from, before)).Page? && s.acts <= s'.acts
    requires runtime.counters ==> IsCounted(s'.acts, |s.acts|, name, Ask(plugin, next - 1, CursorAfter(from, before)).counters)
    ensures CursorAfter(from, before) == CursorAt(plugin, from, next - 1)
    ensures runtime.counters ==> AllCounted(s'.acts, |began.acts|, name, plugin, from, next)
  {
    CursorIsAfterReported(plugin, from, next - 1);
    if runtime.counters {
      CountsStay(s.acts, s'.acts, |began.acts|, name, plugin, from, next - 1);
    }
  }

  lemma OnePageMore(began: State, s: State, s': State, name: Id, runtime: Runtime, stream: Id, from: u64, plugin: Plugin,
                    accepts: nat -> Answers, at: Instant, next: nat, before: seq<AccessEvent>, cursor: u64, more: seq<AccessEvent>,
                    ok: bool)
    requires 0 < next <= MAXIMUM_TELEMETRY_PAGES
    requires PagesSoFar(began, s, name, runtime, stream, from, plugin, next - 1, before)
    requires Ask(plugin, next - 1, CursorAfter(from, before)).Page?
    requires PageEnds(s, s', name, runtime, stream, CursorAfter(from, before), next == 1,
                      Ask(plugin, next - 1, CursorAfter(from, before)), accepts(next - 1), at, ok, cursor, more)
    ensures cursor == CursorAfter(from, before + more)
    ensures ok && Ask(plugin, next - 1, CursorAfter(from, before)).more ==>
              PagesSoFar(began, s', name, runtime, stream, from, plugin, next, before + more)
    ensures ok && !Ask(plugin, next - 1, CursorAfter(from, before)).more ==>
              PagesEnd(began, s', name, runtime, stream, from, plugin, accepts, at, true, next, before + more)
    ensures !ok ==> PagesEnd(began, s', name, runtime, stream, from, plugin, accepts, at, false, next - 1, before + more)
  {
    CursorAfterMore(from, before, more);
    if ok {
      PageIsCounted(began, s, s', name, runtime, stream, from, plugin, next, before);
      PageIsTaken(began, s, s', name, runtime, stream, from, plugin, accepts, at, next, before,
                  Ask(plugin, next - 1, CursorAfter(from, before)));
    } else {
      PageStops(began, s, s', name, runtime, stream, from, plugin, accepts, at, next - 1, before, cursor, more);
    }
  }

  // A plugin that reports access events says on which stream.
  predicate HasStream(runtime: Runtime) { runtime.activity ==> runtime.stream.Some? }

  // The outcome of collectRuntime between two states.
  ghost predicate Collected(s: State, s': State, name: Id, runtime: Runtime, plugin: Plugin, accepts: nat -> Answers, at: Instant,
                            c: Collection)
  {
    && Later(s, s', name) && c.end == |s'.acts|
    && (runtime.counters ==> AllCounted(s'.acts, |s.acts|, name, plugin, c.from, c.pages))
    && (c.ok ==> Complete(plugin, c.from, c.pages) && c.done == Reported(plugin, c.from, c.pages) && HasStream(runtime))
    && (!c.ok && HasStream(runtime) ==>
          Reported(plugin, c.from, c.pages) <= c.done <= Reported(plugin, c.from, c.pages + 1)
          && IsStuck(s'.db, name, runtime, BoundKeys(s.db.policies), plugin, c.from, c.pages, accepts, at))
    && (!(runtime.activity && runtime.stream.Some?) ==> c.from == 0 && c.done == [])
    && (runtime.activity && runtime.stream.Some? ==>
          var stream := runtime.stream.value;
          && c.from == Telemetry.CursorFor(s.cursors, name, stream)
          && Telemetry.CursorFor(s'.cursors, name, stream) == CursorAfter(c.from, c.done)
          && Handled(s.(telemetry := s.telemetry.(bound := BoundKeys(s.db.policies))), s', name, stream, c.done))
    && s.telemetry.queued <= s'.telemetry.queued
  }

  ghost predicate HasBegun(s: State, s': State, name: Id, runtime: Runtime, stream: Id, cursor: u64) {
    if runtime.activity
    then && runtime.stream == Some(stream) && cursor == Telemetry.CursorFor(s.cursors, name, stream)
         && s' == s.(telemetry := s'.telemetry)
         && s'.telemetry == s.telemetry.(session := s'.telemetry.session, bound := BoundKeys(s.db.policies))
         && InSession(s', name, stream, cursor, [])
    else s' == s && cursor == 0
  }

  lemma PagesAreCollected(s: State, began: State, s': State, name: Id, runtime: Runtime, stream: Id, plugin: Plugin,
                          accepts: nat -> Answers, at: Instant, c: Collection)
    requires HasBegun(s, began, name, runtime, stream, c.from)
    requires runtime.activity ==> Telemetry.CursorFor(s'.cursors, name, stream) == CursorAfter(c.from, c.done)
    requires PagesEnd(began, s', name, runtime, stream, c.from, plugin, accepts, at, c.ok, c.pages, c.done) && c.end == |s'.acts|
    ensures Collected(s, s', name, runtime, plugin, accepts, at, c)
  {
  }

  // ---- A whole cycle ----

  predicate Reports(runtime: Runtime) { runtime.counters || runtime.activity }

  ghost predicate AllOk(collected: map<Id, Collection>) { forall p :: p in collected ==> collected[p].ok }

  // The engine has come to a database, by a legal run, where a collection is stuck.
  ghost predicate StoppedAfter(acts: seq<Action>, name: Id, runtime: Runtime, bound: set<ServiceKey>, plugin: Plugin, from: u64,
                               pages: nat, accepts: nat -> Answers, at: Instant)
  {
    exists w :: Init(w) && Legal(w, acts) && IsStuck(After(w, acts).db, name, runtime, bound, plugin, from, pages, accepts, at)
  }

  // What a cycle that began in one state has collected from a plugin, seen from any later one.
  ghost predicate IsCollected(s: State, s': State, name: Id, runtime: Runtime, plugin: Plugin, accepts: nat -> Answers, at: Instant,
                              c: Collection)
  {
    && |s.acts| <= c.end <= |s'.acts|
    && (runtime.counters ==> AllCounted(s'.acts, |s.acts|, name, plugin, c.from, c.pages))
    && (c.ok ==> Complete(plugin, c.from, c.pages) && c.done == Reported(plugin, c.from, c.pages) && HasStream(runtime))
    && (!c.ok && HasStream(runtime) ==>
          Reported(plugin, c.from, c.pages) <= c.done <= Reported(plugin, c.from, c.pages + 1)
          && StoppedAfter(s'.acts[..c.end], name, runtime, BoundKeys(s.db.policies), plugin, c.from, c.pages, accepts, at))
    && (!(runtime.activity && runtime.stream.Some?) ==> c.from == 0 && c.done == [])
    && (runtime.activity && runtime.stream.Some? ==>
          var stream := runtime.stream.value;
          && c.from == Telemetry.CursorFor(s.cursors, name, stream)
          && Telemetry.CursorFor(s'.cursors, name, stream) == CursorAfter(c.from, c.done)
          && Known(BoundKeys(s.db.policies), EventsOf(name, stream, c.done)) <= s'.telemetry.queued
          && AllObserved(s'.acts, |s.acts|, name, BoundKeys(s.db.policies), c.done))
  }

  lemma CollectedStays(s: State, s1: State, s2: State, name: Id, runtime: Runtime, plugin: Plugin, accepts: nat -> Answers, at: Instant,
                       c: Collection)
    requires IsCollected(s, s1, name, runtime, plugin, accepts, at, c) && |s.acts| <= |s1.acts|
    requires s1.acts <= s2.acts && SameCursor(s1.cursors, s2.cursors, name) && s1.telemetry.queued <= s2.telemetry.queued
    ensures IsCollected(s, s2, name, runtime, plugin, accepts, at, c)
  {
    assert s2.acts[..c.end] == s1.acts[..c.end];
    if runtime.counters { CountsKept(s1.acts, s2.acts, |s.acts|, |s.acts|, name, plugin, c.from, c.pages); }
    if runtime.activity && runtime.stream.Some? {
      ObservedStays(s1.acts, s2.acts, |s.acts|, |s.acts|, name, BoundKeys(s.db.policies), c.done);
    }
  }

  lemma IsCollectedNow(s: State, s1: State, s2: State, w: World, name: Id, runtime: Runtime, plugin: Plugin, accepts: nat -> Answers,
                       at: Instant, c: Collection)
    requires Collected(s1, s2, name, runtime, plugin, accepts, at, c)
    requires s.acts <= s1.acts && SameCursor(s.cursors, s1.cursors, name) && s1.db.policies == s.db.policies
    requires Init(w) && Legal(w, s2.acts) && After(w, s2.acts).db == s2.db
    ensures IsCollected(s, s2, name, runtime, plugin, accepts, at, c)
  {
    assert s2.acts[..c.end] == s2.acts;
    if runtime.counters { CountsKept(s2.acts, s2.acts, |s.acts|, |s1.acts|, name, plugin, c.from, c.pages); }
    if runtime.activity && runtime.stream.Some? {
      ObservedStays(s2.acts, s2.acts, |s.acts|, |s1.acts|, name, BoundKeys(s.db.policies), c.done);
    }
  }

  // A cycle with some plugins still to come.
  ghost predicate CycleSoFar(s: State, s': State, runtimes: Runtimes, plugins: Id -> Plugin, accepts: Id -> nat -> Answers, at: Instant,
                             todo: set<Id>, collected: map<Id, Collection>)
  {
    && s.acts <= s'.acts && s'.calls == s.calls
    && s.telemetry.queued <= s'.telemetry.queued && s.telemetry.emitted == s'.telemetry.emitted
    && s'.db == s.db.(counters := s'.db.counters, traffic := s'.db.traffic, activity := s'.db.activity)
    && (forall p :: p in todo ==> SameCursor(s.cursors, s'.cursors, p))
    && (forall p :: p in collected <==> p in runtimes && p !in todo && Reports(runtimes[p]))
    && (forall p :: p in collected ==> IsCollected(s, s', p, runtimes[p], plugins(p), accepts(p), at, collected[p]))
  }

  lemma OthersStayCollected(s: State, s1: State, s2: State, runtimes: Runtimes, plugins: Id -> Plugin, accepts: Id -> nat -> Answers,
                            at: Instant, todo: set<Id>, collected: map<Id, Collection>, name: Id)
    requires CycleSoFar(s, s1, runtimes, plugins, accepts, at, todo, collected) && name in todo
    requires s1.acts <= s2.acts && s1.telemetry.queued <= s2.telemetry.queued && OthersKept(s1.cursors, s2.cursors, name)
    ensures forall p :: p in todo - {name} ==> SameCursor(s.cursors, s2.cursors, p)
    ensures forall p :: p in collected ==> IsCollected(s, s2, p, runtimes[p], plugins(p), accepts(p), at, collected[p])
  {
    forall p | p in todo - {name}
      ensures SameCursor(s.cursors, s2.cursors, p)
    {
      assert SameCursor(s.cursors, s1.cursors, p) && SameCursor(s1.cursors, s2.cursors, p);
    }
    forall p | p in collected
      ensures IsCollected(s, s2, p, runtimes[p], plugins(p), accepts(p), at, collected[p])
    {
      assert SameCursor(s1.cursors, s2.cursors, p);
      CollectedStays(s, s1, s2, p, runtimes[p], plugins(p), accepts(p), at, collected[p]);
    }
  }

  lemma PluginIsNext(s: State, s1: State, s2: State, w: World, runtimes: Runtimes, plugins: Id -> Plugin, accepts: Id -> nat -> Answers,
                     at: Instant, todo: set<Id>, collected: map<Id, Collection>, name: Id, c: Collection)
    requires name in runtimes && name in todo && Reports(runtimes[name])
    requires CycleSoFar(s, s1, runtimes, plugins, accepts, at, todo, collected)
    requires Collected(s1, s2, name, runtimes[name], plugins(name), accepts(name), at, c) && s2.telemetry.emitted == s1.telemetry.emitted
    requires Init(w) && Legal(w, s2.acts) && After(w, s2.acts).db == s2.db
    ensures CycleSoFar(s, s2, runtimes, plugins, accepts, at, todo - {name}, collected[name := c])
  {
    OthersStayCollected(s, s1, s2, runtimes, plugins, accepts, at, todo, collected, name);
    IsCollectedNow(s, s1, s2, w, name, runtimes[name], plugins(name), accepts(name), at, c);
  }

  lemma PluginIsSilent(s: State, s1: State, runtimes: Runtimes, plugins: Id -> Plugin, accepts: Id -> nat -> Answers, at: Instant,
                       todo: set<Id>, collected: map<Id, Collection>, name: Id)
    requires name in runtimes && !Reports(runtimes[name]) && CycleSoFar(s, s1, runtimes, plugins, accepts, at, todo, collected)
    ensures CycleSoFar(s, s1, runtimes, plugins, accepts, at, todo - {name}, collected)
  {
  }

  // How a cycle ends: every plugin that reports anything was collected, whatever came of the
  // others, and then there was one evaluation.
  ghost predicate CycleEnds(s: State, s': State, runtimes: Runtimes, plugins: Id -> Plugin, accepts: Id -> nat -> Answers, at: Instant,
                            collected: map<Id, Collection>, before: Db, made: seq<PolicyProgress.Call>)
  {
    && (forall p :: p in collected <==> p in runtimes && Reports(runtimes[p]))
    && (forall p :: p in collected ==> IsCollected(s, s', p, runtimes[p], plugins(p), accepts(p), at, collected[p]))
    && before == s.db.(counters := before.counters, traffic := before.traffic, activity := before.activity)
    && s'.calls == s.calls + made
  }

  lemma EndOfCycle(s: State, s1: State, s2: State, runtimes: Runtimes, plugins: Id -> Plugin, accepts: Id -> nat -> Answers, at: Instant,
                   collected: map<Id, Collection>, made: seq<PolicyProgress.Call>)
    requires CycleSoFar(s, s1, runtimes, plugins, accepts, at, {}, collected)
    requires s1.acts <= s2.acts && s2.cursors == s1.cursors && s2.telemetry == s1.telemetry && s2.calls == s1.calls + made
    ensures CycleEnds(s, s2, runtimes, plugins, accepts, at, collected, s1.db, made)
  {
    forall p | p in collected
      ensures IsCollected(s, s2, p, runtimes[p], plugins(p), accepts(p), at, collected[p])
    {
      CollectedStays(s, s1, s2, p, runtimes[p], plugins(p), accepts(p), at, collected[p]);
    }
  }

  // ---- Traffic stays chargeable ----

  lemma {:induction false} ChargedStaysOpen(t: Traffic, charged: Charged, policies: seq<Policy>, deltas: map<Id, Bytes>,
                                            at: Instant, order: seq<Id>, id: Id)
    requires ChargeAll(t, policies, deltas, at, order).Ok? && IdMayOpen(t, charged, policies, at, id)
    ensures IdMayOpen(ChargeAll(t, policies, deltas, at, order).value,
                      ChargedByCounters(t, charged, policies, deltas, at, order), policies, at, id)
    decreases |order|
  {
    if order != [] {
      var last, front := order[|order| - 1], order[..|order| - 1];
      ChargedStaysOpen(t, charged, policies, deltas, at, front, id);
      var before, charged1 := ChargeAll(t, policies, deltas, at, front).value, ChargedByCounters(t, charged, policies, deltas, at, front);
      var p := FindPolicy(policies, id);
      if last != id && Delta(deltas, last) != Bytes(0, 0) && p.Some? && CurrentPeriod(p.value, at).Some? {
        OthersMayOpenAfterCharge(before, charged1, last, CurrentPeriod(FindPolicy(policies, last).value, at).value,
                                 Delta(deltas, last), id, CurrentPeriod(p.value, at).value);
      }
    }
  }

  // Counting at an instant leaves every policy free to open its ledger at that instant.
  lemma CountersKeepMayOpen(w: World, a: Action)
    requires DistinctIds(w.db.policies) && a.ApplyCounters? && Enabled(w, a)
    ensures NoReturningPair(Step(w, a), a.at)
  {
    var w' := Step(w, a);
    forall i | 0 <= i < |w'.db.policies| && CurrentPeriod(w'.db.policies[i], a.at).Some?
      ensures MayOpen(w'.db.traffic, w'.charged, w'.db.policies[i].id, CurrentPeriod(w'.db.policies[i], a.at).value)
    {
      var p := w.db.policies[i];
      OnlyOneFound(w.db.policies, i);
      ChargedStaysOpen(w.db.traffic, w.charged, w.db.policies, Deltas(w.db, a.plugin, a.list), a.at, a.order, p.id);
    }
  }

  class Collector {
    const engine: Engine
    ghost var acts: seq<Telemetry.Action>
    ghost var trace: seq<Telemetry.World>
    ghost var telemetry: Telemetry.World

    ghost predicate Running()
      reads this
    {
      Telemetry.IsTrace(trace, acts) && telemetry == trace[|acts|]
    }

    ghost predicate Valid()
      reads this, engine, engine.store
    {
      Running() && engine.Valid() && telemetry.cursors == engine.store.cursors
    }

    constructor ()
      ensures Valid() && fresh(engine) && fresh(engine.store) && acts == []
    {
      engine := new Engine();
      acts := [];
      trace := [Telemetry.World(map[], None, {}, {}, {}, {})];
      telemetry := Telemetry.World(map[], None, {}, {}, {}, {});
    }

    ghost method Take(a: Telemetry.Action)
      requires Running() && Telemetry.Enabled(telemetry, a)
      modifies this`acts, this`trace, this`telemetry
      ensures Running() && telemetry == Telemetry.Step(old(telemetry), a) && acts == old(acts) + [a]
    {
      Telemetry.TraceExtends(trace, acts, a);
      trace := trace + [Telemetry.Step(telemetry, a)];
      acts := acts + [a];
      telemetry := Telemetry.Step(telemetry, a);
    }

    lemma IsSafe()
      requires Running()
      ensures Telemetry.Inv(telemetry)
    {
      Telemetry.TraceIsLegal(trace, acts);
      Telemetry.RunKeeps(trace[0], acts);
    }

    // So what has been collected is a legal run, to which the theorems about runs apply.
    lemma IsLegal()
      requires Running()
      ensures Telemetry.Init(trace[0]) && Telemetry.Legal(trace[0], acts)
      ensures Telemetry.After(trace[0], acts) == telemetry
    {
      Telemetry.TraceIsLegal(trace, acts);
    }

    ghost function Now(): State
      reads this, engine, engine.store
    {
      State(telemetry, engine.store.cursors, engine.acts, engine.store.db, engine.calls)
    }

    // One event: into the queue if its binding is known, then the cursor past it. Only a
    // refusing queue stops it, and then it changes nothing.
    method HandleEvent(name: Id, stream: Id, cursor: u64, e: AccessEvent, accepted: bool, at: Instant, ghost page: seq<Telemetry.Event>)
      returns (ok: bool)
      requires Valid() && NoReturningPair(engine.world, at)
      requires page != [] && page[0] == EventOf(name, stream, e) && InSession(Now(), name, stream, cursor, page)
      modifies this, engine, engine.store
      ensures Valid() && NoReturningPair(engine.world, at) && old(acts) <= acts
      ensures ok <==> (IsFor(e, name, BoundKeys(old(engine.store.db.policies))) ==> accepted)
      ensures ok ==> Handled(old(Now()), Now(), name, stream, [e]) && InSession(Now(), name, stream, e.sequence, page[1..])
      ensures ok ==> engine.store.db == AfterEvent(old(engine.store.db), name, e)
      ensures !ok ==> Now() == old(Now())
    {
      ghost var before := Now();
      var known := engine.store.BindingKnown(name, e.authorization, e.service);
      if known && !accepted { return false; }
      Take(Telemetry.Handle);
      ghost var handled := telemetry;
      if known && e.accepted && e.address.Some? { Observe(e.authorization, e.address.value, e.observedAt, at); }
      ok := MovePast(name, stream, cursor, e.sequence, page);
      EventIsHandled(before, handled, Now(), name, stream, cursor, e, page);
    }

    // The store accepts the cursor of the event just handled.
    method MovePast(name: Id, stream: Id, cursor: u64, sequence: u64, ghost page: seq<Telemetry.Event>) returns (ok: bool)
      requires Valid() && InSession(Now(), name, stream, cursor, page)
      requires page != [] && page[0].sequence == sequence && telemetry.session.value.handled
      modifies this, engine.store`cursors
      ensures Valid() && ok && old(acts) <= acts
      ensures Telemetry.Enabled(old(telemetry), Telemetry.Advance)
      ensures telemetry == Telemetry.Step(old(telemetry), Telemetry.Advance)
      ensures OthersKept(old(engine.store.cursors), engine.store.cursors, name)
    {
      AdvanceIsAccepted(name, stream, cursor, page);
      ok := engine.store.AdvanceTelemetryCursor(name, stream, cursor, sequence);
      Take(Telemetry.Advance);
    }

    method Observe(authorization: Id, address: Id, observedAt: int, ghost at: Instant)
      requires engine.Valid() && NoReturningPair(engine.world, at)
      modifies engine, engine.store
      ensures engine.Valid() && NoReturningPair(engine.world, at) && engine.store.cursors == old(engine.store.cursors)
      ensures engine.calls == old(engine.calls)
      ensures engine.acts == old(engine.acts) + [ObserveActivity(authorization, address, observedAt)]
      ensures engine.store.db == ActivityObserved(old(engine.store.db), authorization, address, observedAt).0
    {
      var blocked := engine.store.ObserveActivity(authorization, address, observedAt);
      engine.Take(ObserveActivity(authorization, address, observedAt));
    }

    lemma AdvanceIsAccepted(name: Id, stream: Id, cursor: u64, page: seq<Telemetry.Event>)
      requires Running() && page != [] && InSession(Now(), name, stream, cursor, page)
      ensures Telemetry.Moved(telemetry).Ok?
    {
      IsLegal();
      Telemetry.AdvanceIsNeverRefused(trace[0], acts);
    }

    // The counters of a page; a plugin that does not count may report none.
    method HandleCounters(name: Id, counts: bool, counters: seq<Option<Reading>>, at: Instant) returns (ok: bool)
      requires Valid() && NoReturningPair(engine.world, at)
      modifies engine, engine.store
      ensures Valid() && NoReturningPair(engine.world, at) && Later(old(Now()), Now(), name)
      ensures ok <==> if counts then CountersFit(old(engine.store.db), name, counters, at) else counters == []
      ensures ok && counts ==> IsCounted(engine.acts, |old(engine.acts)|, name, counters)
      ensures !ok ==> Now() == old(Now())
    {
      if !counts { return counters == []; }
      ghost var order;
      var r;
      r, order := engine.store.ApplyCounters(name, counters, at);
      ok := r.Ok?;
      if ok { TakeCounters(name, counters, at, order); }
    }

    ghost method TakeCounters(name: Id, counters: seq<Option<Reading>>, at: Instant, order: seq<Id>)
      requires engine.Running() && Enabled(engine.world, ApplyCounters(name, counters, at, order))
      modifies engine`acts, engine`trace, engine`world
      ensures engine.Running() && NoReturningPair(engine.world, at)
      ensures engine.world.db == CountersApplied(old(engine.world.db), name, counters, at, order).value
      ensures old(engine.acts) <= engine.acts && IsCounted(engine.acts, |old(engine.acts)|, name, counters)
    {
      engine.IsSafe();
      CountersKeepMayOpen(engine.world, ApplyCounters(name, counters, at, order));
      ghost var before := engine.acts;
      engine.Take(ApplyCounters(name, counters, at, order));
      assert engine.acts[|before|] == ApplyCounters(name, counters, at, order);
    }

    // The events of a page, up to the first that the queue refuses.
    method HandleEvents(name: Id, stream: Id, from: u64, events: seq<AccessEvent>, accepts: Answers, skip: nat, at: Instant)
      returns (ok: bool, cursor: u64, ghost done: nat)
      requires Valid() && NoReturningPair(engine.world, at) && InSession(Now(), name, stream, from, EventsOf(name, stream, events))
      modifies this, engine, engine.store
      ensures Valid() && NoReturningPair(engine.world, at) && old(acts) <= acts
      ensures EventsSoFar(old(Now()), Now(), name, stream, from, events, accepts, skip, done, cursor)
      ensures ok <==> done == |events|
      ensures !ok ==> IsFor(events[done], name, BoundKeys(old(engine.store.db.policies))) && !accepts(done + skip)
    {
      ok, cursor, done := true, from, 0;
      var i := 0;
      ghost var start := Now();
      NoEventYet(start, name, stream, from, events, accepts, skip);
      while i < |events|
        invariant i <= |events| && done == i && ok
        invariant Valid() && NoReturningPair(engine.world, at) && old(acts) <= acts
        invariant EventsSoFar(start, Now(), name, stream, from, events, accepts, skip, i, cursor)
      {
        ok, cursor := HandleNext(name, stream, from, events, accepts, skip, i, cursor, at, start);
        if !ok { return; }
        i := i + 1;
        done := i;
      }
    }

    // The next event of a page.
    method HandleNext(name: Id, stream: Id, ghost from: u64, events: seq<AccessEvent>, accepts: Answers, skip: nat, i: nat, current: u64,
                      at: Instant, ghost start: State) returns (ok: bool, cursor: u64)
      requires Valid() && NoReturningPair(engine.world, at) && i < |events|
      requires EventsSoFar(start, Now(), name, stream, from, events, accepts, skip, i, current)
      modifies this, engine, engine.store
      ensures Valid() && NoReturningPair(engine.world, at) && old(acts) <= acts
      ensures ok ==> EventsSoFar(start, Now(), name, stream, from, events, accepts, skip, i + 1, cursor)
      ensures !ok ==> EventsSoFar(start, Now(), name, stream, from, events, accepts, skip, i, cursor)
      ensures !ok ==> IsFor(events[i], name, BoundKeys(start.db.policies)) && !accepts(i + skip)
    {
      EventsOfMore(name, stream, events, i);
      ghost var before := Now();
      ok := HandleEvent(name, stream, current, events[i], accepts(i + skip), at, EventsOf(name, stream, events)[i..]);
      if !ok { return false, current; }
      OneEventMore(start, before, Now(), name, stream, from, events, accepts, skip, i, current);
      cursor := events[i].sequence;
    }

    // One page: its status, its counters, its events. A plugin without activity is in no
    // session, and its events are refused.
    method HandlePage(name: Id, runtime: Runtime, stream: Id, from: u64, first: bool, response: Response, accepts: Answers, at: Instant)
      returns (ok: bool, cursor: u64, ghost done: seq<AccessEvent>)
      requires Valid() && NoReturningPair(engine.world, at) && response.Page?
      requires runtime.activity ==> InSession(Now(), name, stream, from, [])
      requires runtime.activity ==> Telemetry.IsPage(telemetry.emitted, telemetry.session.value, EventsOf(name, stream, response.events))
      modifies this, engine, engine.store
      ensures Valid() && NoReturningPair(engine.world, at) && old(acts) <= acts
      ensures PageEnds(old(Now()), Now(), name, runtime, stream, from, first, response, accepts, at, ok, cursor, done)
    {
      ghost var before := Now();
      ok := HandleHead(name, runtime, first, response, accepts, at);
      if !ok {
        PageIsRefused(before, Now(), name, runtime, stream, from, first, response, accepts, at);
        return false, from, [];
      }
      ghost var counted := Now();
      ok, cursor, done := HandleReported(name, runtime.activity, stream, from, response.events, accepts, at);
      PageIsHandled(before, counted, Now(), name, runtime, stream, from, first, response, accepts, at, ok, cursor, done);
      ok := ok && (response.events == [] ==> response.next == cursor);
    }

    // The status in the first page and the counters in every page.
    method HandleHead(name: Id, runtime: Runtime, first: bool, response: Response, accepts: Answers, at: Instant) returns (ok: bool)
      requires Valid() && NoReturningPair(engine.world, at) && response.Page?
      modifies engine, engine.store
      ensures Valid() && NoReturningPair(engine.world, at)
      ensures ok ==> HeadIsDone(old(Now()), Now(), name, runtime, first, response, accepts, at)
      ensures !ok ==> HeadIsRefused(old(Now()), Now(), name, runtime, first, response, accepts, at)
    {
      if first && response.hasStatus && !accepts(0) { return false; }
      ok := HandleCounters(name, runtime.counters, response.counters, at);
    }

    // What a page reports; a plugin without activity may report nothing.
    method HandleReported(name: Id, activity: bool, stream: Id, from: u64, events: seq<AccessEvent>, accepts: Answers, at: Instant)
      returns (ok: bool, cursor: u64, ghost done: seq<AccessEvent>)
      requires Valid() && NoReturningPair(engine.world, at)
      requires activity ==> InSession(Now(), name, stream, from, [])
      requires activity ==> Telemetry.IsPage(telemetry.emitted, telemetry.session.value, EventsOf(name, stream, events))
      modifies this, engine, engine.store
      ensures Valid() && NoReturningPair(engine.world, at) && old(acts) <= acts
      ensures EventsEnd(old(Now()), Now(), name, activity, stream, from, events, accepts, ok, cursor, done)
    {
      if !activity {
        NoEvents(Now(), name, stream, from, events, accepts);
        return events == [], from, [];
      }
      ok, cursor, done := HandleActivity(name, stream, from, events, accepts, at);
    }

    // The access events of a page.
    method HandleActivity(name: Id, stream: Id, from: u64, events: seq<AccessEvent>, accepts: Answers, at: Instant)
      returns (ok: bool, cursor: u64, ghost done: seq<AccessEvent>)
      requires Valid() && NoReturningPair(engine.world, at) && InSession(Now(), name, stream, from, [])
      requires Telemetry.IsPage(telemetry.emitted, telemetry.session.value, EventsOf(name, stream, events))
      modifies this, engine, engine.store
      ensures Valid() && NoReturningPair(engine.world, at) && old(acts) <= acts
      ensures EventsEnd(old(Now()), Now(), name, true, stream, from, events, accepts, ok, cursor, done)
    {
      ghost var before := Now();
      OpenPage(name, stream, from, EventsOf(name, stream, events));
      ghost var paged := Now();
      ghost var n;
      ok, cursor, n := HandleEvents(name, stream, from, events, accepts, 1, at);
      done := events[..n];
      EventsAreDone(before, paged, Now(), name, stream, from, events, accepts, n, cursor);
    }

    ghost method OpenPage(name: Id, stream: Id, from: u64, page: seq<Telemetry.Event>)
      requires Valid() && InSession(Now(), name, stream, from, []) && Telemetry.IsPage(telemetry.emitted, telemetry.session.value, page)
      modifies this`acts, this`trace, this`telemetry
      ensures Valid() && old(acts) <= acts && PageIsOpen(old(Now()), Now(), name, stream, from, page)
    {
      Take(Telemetry.Page(page));
    }

    // collectRuntime. On success the last page said there was no more, every page's counters
    // were applied, and of all the events reported those of bound services are in the queue.
    // Whatever happens, the stored cursor is that of the last event dealt with.
    method Collect(name: Id, runtime: Runtime, plugin: Plugin, accepts: nat -> Answers, at: Instant)
      returns (ok: bool, ghost c: Collection)
      requires Valid() && NoReturningPair(engine.world, at)
      requires runtime.activity && runtime.stream.Some? ==> Honest(telemetry.emitted, name, runtime.stream.value, plugin)
      modifies this, engine, engine.store
      ensures Valid() && NoReturningPair(engine.world, at) && old(acts) <= acts
      ensures telemetry.emitted == old(telemetry.emitted) && c.ok == ok
      ensures Collected(old(Now()), Now(), name, runtime, plugin, accepts, at, c)
    {
      if runtime.activity && runtime.stream == None { return false, Collection(false, 0, 0, [], |engine.acts|); }
      ghost var start := Now();
      var stream, cursor := BeginCollection(name, runtime);
      ghost var began := Now();
      ghost var pages, done;
      ok, pages, done := CollectPages(name, runtime, stream, cursor, plugin, accepts, at);
      c := Collection(ok, cursor, pages, done, |engine.acts|);
      if runtime.activity { CursorIsStored(name, stream, CursorAfter(cursor, done)); }
      PagesAreCollected(start, began, Now(), name, runtime, stream, plugin, accepts, at, c);
    }

    // Access events are asked for from the stored cursor of their stream on.
    method BeginCollection(name: Id, runtime: Runtime) returns (stream: Id, cursor: u64)
      requires Valid() && HasStream(runtime)
      modifies this`acts, this`trace, this`telemetry
      ensures Valid() && old(acts) <= acts && HasBegun(old(Now()), Now(), name, runtime, stream, cursor)
    {
      stream, cursor := 0, 0;
      if runtime.activity {
        stream := runtime.stream.value;
        cursor := engine.store.TelemetryCursor(name, stream);
        Take(Telemetry.Rebind(BoundKeys(engine.store.db.policies)));
        Take(Telemetry.Begin(name, stream));
      }
    }

    lemma CursorIsStored(name: Id, stream: Id, cursor: u64)
      requires Valid() && StillIn(Now(), name, stream, cursor)
      ensures Telemetry.CursorFor(engine.store.cursors, name, stream) == cursor
    {
      IsSafe();
    }

    // At most sixteen pages, each from where the last one ended.
    method CollectPages(name: Id, runtime: Runtime, stream: Id, from: u64, plugin: Plugin, accepts: nat -> Answers, at: Instant)
      returns (ok: bool, ghost pages: nat, ghost done: seq<AccessEvent>)
      requires Valid() && NoReturningPair(engine.world, at)
      requires runtime.activity ==> Honest(telemetry.emitted, name, stream, plugin) && InSession(Now(), name, stream, from, [])
      modifies this, engine, engine.store
      ensures Valid() && NoReturningPair(engine.world, at) && old(acts) <= acts
      ensures PagesEnd(old(Now()), Now(), name, runtime, stream, from, plugin, accepts, at, ok, pages, done)
    {
      var page, cursor := 0, from;
      pages, done := 0, [];
      ghost var began := Now();
      while page < MAXIMUM_TELEMETRY_PAGES
        invariant page <= MAXIMUM_TELEMETRY_PAGES && pages == page && cursor == CursorAfter(from, done)
        invariant Valid() && NoReturningPair(engine.world, at) && old(acts) <= acts
        invariant PagesSoFar(began, Now(), name, runtime, stream, from, plugin, page, done)
      {
        var more, next;
        ok, more, next, cursor, done := CollectPage(name, runtime, stream, from, plugin, page, cursor, accepts, at, began, done);
        if !ok { return; }
        page, pages := next, next;
        if !more { return; }
      }
      PageIsMissing(began, Now(), name, runtime, stream, from, plugin, accepts, at, page, done);
      return false, pages, done;
    }

    // One page, which continues a collection that began in a given state.
    method CollectPage(name: Id, runtime: Runtime, stream: Id, ghost from: u64, plugin: Plugin, page: nat, current: u64,
                       accepts: nat -> Answers, at: Instant, ghost began: State, ghost before: seq<AccessEvent>)
      returns (ok: bool, more: bool, next: nat, cursor: u64, ghost done: seq<AccessEvent>)
      requires Valid() && NoReturningPair(engine.world, at)
      requires page < MAXIMUM_TELEMETRY_PAGES && current == CursorAfter(from, before)
      requires PagesSoFar(began, Now(), name, runtime, stream, from, plugin, page, before)
      modifies this, engine, engine.store
      ensures Valid() && NoReturningPair(engine.world, at) && old(acts) <= acts
      ensures next == page + 1 && cursor == CursorAfter(from, done)
      ensures ok && more ==> PagesSoFar(began, Now(), name, runtime, stream, from, plugin, next, done)
      ensures ok && !more ==> PagesEnd(began, Now(), name, runtime, stream, from, plugin, accepts, at, true, next, done)
      ensures !ok ==> PagesEnd(began, Now(), name, runtime, stream, from, plugin, accepts, at, false, page, done)
    {
      CursorIsAfterReported(plugin, from, page);
      next := page + 1;
      ghost var middle := Now();
      var response := Ask(plugin, page, current);
      if response.Failure? {
        PageIsMissing(began, middle, name, runtime, stream, from, plugin, accepts, at, page, before);
        return false, false, next, current, before;
      }
      if runtime.activity { PageIsHonest(telemetry, name, stream, plugin, page, current); }
      ghost var n;
      ok, cursor, n := HandlePage(name, runtime, stream, current, page == 0, response, accepts(page), at);
      done, more := before + n, response.more;
      OnePageMore(began, middle, Now(), name, runtime, stream, from, plugin, accepts, at, next, before, cursor, n, ok);
    }

    // runCycle: telemetry from every plugin that reports any, then one evaluation. Nothing
    // stops at an error, and without one there is nothing left to do. It is without error
    // where every collection is and the evaluation has what it needs.
    method RunCycle(runtimes: Runtimes, plugins: Id -> Plugin, accepts: Id -> nat -> Answers, at: Instant,
                    traffic: Answers, services: Answers, blocks: Answers, statuses: Answers)
      returns (ok: bool, ghost collected: map<Id, Collection>, ghost before: Db, ghost made: seq<PolicyProgress.Call>)
      requires Valid() && NoReturningPair(engine.world, at)
      requires forall p :: p in runtimes && runtimes[p].activity && runtimes[p].stream.Some? ==>
                 Honest(telemetry.emitted, p, runtimes[p].stream.value, plugins(p))
      modifies this, engine, engine.store
      ensures Valid() && old(acts) <= acts
      ensures CycleEnds(old(Now()), Now(), runtimes, plugins, accepts, at, collected, before, made)
      ensures EachPhaseIsDone(before, engine.store.db, at, runtimes, made, traffic, statuses)
      ensures ok ==> AllOk(collected) && Settled(engine.store.db, at, runtimes)
      ensures AllOk(collected) && Evaluable(before, at, runtimes)
              && AllYes(traffic) && AllYes(services) && AllYes(blocks) && AllYes(statuses) ==>
                ok && AskedWhatWasDue(before, engine.store.db, made, runtimes)
    {
      ghost var start := Now();
      var good;
      good, collected := CollectAll(runtimes, plugins, accepts, at);
      ghost var middle := Now();
      before := engine.store.db;
      ok, made := engine.ApplyAndPublish(at, runtimes, traffic, services, blocks, statuses);
      EndOfCycle(start, middle, Now(), runtimes, plugins, accepts, at, collected, made);
      ok := ok && good;
    }

    method CollectAll(runtimes: Runtimes, plugins: Id -> Plugin, accepts: Id -> nat -> Answers, at: Instant)
      returns (ok: bool, ghost collected: map<Id, Collection>)
      requires Valid() && NoReturningPair(engine.world, at)
      requires forall p :: p in runtimes && runtimes[p].activity && runtimes[p].stream.Some? ==>
                 Honest(telemetry.emitted, p, runtimes[p].stream.value, plugins(p))
      modifies this, engine, engine.store
      ensures Valid() && NoReturningPair(engine.world, at) && old(acts) <= acts
      ensures CycleSoFar(old(Now()), Now(), runtimes, plugins, accepts, at, {}, collected)
      ensures ok <==> AllOk(collected)
    {
      ok, collected := true, map[];
      ghost var start := Now();
      var todo := runtimes.Keys;
      while todo != {}
        invariant todo <= runtimes.Keys
        invariant Valid() && NoReturningPair(engine.world, at) && old(acts) <= acts
        invariant CycleSoFar(start, Now(), runtimes, plugins, accepts, at, todo, collected)
        invariant ok <==> AllOk(collected)
        decreases |todo|
      {
        var p := Pick(todo);
        var good;
        good, collected := CollectNext(runtimes, plugins, accepts, at, p, start, todo, collected);
        todo, ok := todo - {p}, ok && good;
      }
    }

    // The next plugin, if it reports anything.
    method CollectNext(runtimes: Runtimes, plugins: Id -> Plugin, accepts: Id -> nat -> Answers, at: Instant, p: Id,
                       ghost start: State, ghost todo: set<Id>, ghost others: map<Id, Collection>)
      returns (ok: bool, ghost collected: map<Id, Collection>)
      requires Valid() && NoReturningPair(engine.world, at) && p in todo && p in runtimes
      requires CycleSoFar(start, Now(), runtimes, plugins, accepts, at, todo, others)
      requires runtimes[p].activity && runtimes[p].stream.Some? ==> Honest(telemetry.emitted, p, runtimes[p].stream.value, plugins(p))
      modifies this, engine, engine.store
      ensures Valid() && NoReturningPair(engine.world, at) && old(acts) <= acts
      ensures CycleSoFar(start, Now(), runtimes, plugins, accepts, at, todo - {p}, collected)
      ensures AllOk(collected) <==> ok && AllOk(others)
    {
      ghost var middle := Now();
      if !Reports(runtimes[p]) {
        PluginIsSilent(start, middle, runtimes, plugins, accepts, at, todo, others, p);
        return true, others;
      }
      ghost var c;
      ok, c := Collect(p, runtimes[p], plugins(p), accepts(p), at);
      engine.IsLegal();
      PluginIsNext(start, middle, Now(), engine.trace[0], runtimes, plugins, accepts, at, todo, others, p, c);
      collected := others[p := c];
      MoreAreOk(others, p, c);
    }
  }

  lemma MoreAreOk(others: map<Id, Collection>, p: Id, c: Collection)
    requires p !in others
    ensures AllOk(others[p := c]) <==> c.ok && AllOk(others)
  {
    assert others[p := c][p] == c;
    assert forall o :: o in others ==> others[p := c][o] == others[o];
  }

  lemma PageIsHonest(w: Telemetry.World, name: Id, stream: Id, plugin: Plugin, page: nat, cursor: u64)
    requires Honest(w.emitted, name, stream, plugin) && Ask(plugin, page, cursor).Page?
    requires w.session.Some? && w.session.value.plugin == name && w.session.value.stream == stream
    requires w.session.value.cursor == cursor
    ensures Telemetry.IsPage(w.emitted, w.session.value, EventsOf(name, stream, Ask(plugin, page, cursor).events))
  {
    var session := Telemetry.Session(name, stream, cursor, [], false);
    assert Telemetry.IsPage(w.emitted, session, EventsOf(name, stream, Ask(plugin, page, cursor).events));
  }

  // What has been observed stays so.
  lemma ObservedStays(acts: seq<Action>, acts': seq<Action>, since: nat, later: nat, name: Id, bound: set<ServiceKey>,
                      events: seq<AccessEvent>)
    requires acts <= acts' && since <= later && AllObserved(acts, later, name, bound, events)
    ensures AllObserved(acts', since, name, bound, events)
  {
    forall e | e in events && IsObservable(e, name, bound)
      ensures IsObserved(acts', since, e)
    {
      var i :| later <= i < |acts| && acts[i] == ObserveActivity(e.authorization, e.address.value, e.observedAt);
      assert acts'[i] == acts[i];
    }
  }

  lemma ObservedMore(acts: seq<Action>, since: nat, name: Id, bound: set<ServiceKey>, a: seq<AccessEvent>, b: seq<AccessEvent>)
    requires AllObserved(acts, since, name, bound, a) && AllObserved(acts, since, name, bound, b)
    ensures AllObserved(acts, since, name, bound, a + b)
  {
  }

  lemma CountedStays(acts: seq<Action>, acts': seq<Action>, since: nat, name: Id, list: seq<Option<Reading>>)
    requires acts <= acts'
    ensures IsCounted(acts, since, name, list) ==> IsCounted(acts', since, name, list)
  {
    if IsCounted(acts, since, name, list) {
      var i :| since <= i < |acts| && acts[i].ApplyCounters? && acts[i].plugin == name && acts[i].list == list;
      assert acts'[i] == acts[i];
    }
  }

  lemma CountsKept(acts: seq<Action>, acts': seq<Action>, since: nat, later: nat, name: Id, plugin: Plugin, from: u64, n: nat)
    requires acts <= acts' && since <= later && AllCounted(acts, later, name, plugin, from, n)
    ensures AllCounted(acts', since, name, plugin, from, n)
  {
    forall i: nat | i < n && Ask(plugin, i, CursorAt(plugin, from, i)).Page?
      ensures IsCounted(acts', since, name, Ask(plugin, i, CursorAt(plugin, from, i)).counters)
    {
      CountedStays(acts, acts', later, name, Ask(plugin, i, CursorAt(plugin, from, i)).counters);
    }
  }

  lemma CountsStay(acts: seq<Action>, acts': seq<Action>, since: nat, name: Id, plugin: Plugin, from: u64, n: nat)
    requires since <= |acts| && acts <= acts' && AllCounted(acts, since, name, plugin, from, n)
    requires Ask(plugin, n, CursorAt(plugin, from, n)).Page?
    requires IsCounted(acts', |acts|, name, Ask(plugin, n, CursorAt(plugin, from, n)).counters)
    ensures AllCounted(acts', since, name, plugin, from, n + 1)
  {
    forall i: nat | i <= n && Ask(plugin, i, CursorAt(plugin, from, i)).Page?
      ensures IsCounted(acts', since, name, Ask(plugin, i, CursorAt(plugin, from, i)).counters)
    {
      if i < n {
        CountedStays(acts, acts', since, name, Ask(plugin, i, CursorAt(plugin, from, i)).counters);
      }
    }
  }
}
