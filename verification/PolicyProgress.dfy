// When an evaluation of the policy engine succeeds, and which plugin calls it takes
// (applyAndPublish in internal/policy/engine.go).
module PolicyProgress {
  import opened Prelude
  import opened RevisionTable
  import opened PolicyModel
  import opened PolicyTraffic
  import opened PolicyActivity
  import opened PolicyTransactions
  import opened PolicySystem
  import opened PolicyInvariant
  import opened PolicyDistribution
  import opened PolicyQuiescence

  // ---- Refreshing ----

  // The period that each policy is in can be computed.
  ghost predicate PeriodsKnown(db: Db, at: Instant) {
    forall i :: 0 <= i < |db.policies| ==> CurrentPeriod(db.policies[i], at).Some?
  }

  lemma {:induction false} RefreshUpToSucceeds(db: Db, at: Instant, n: nat)
    requires n <= |db.policies|
    ensures RefreshUpTo(db, at, n).Ok? <==> forall i :: 0 <= i < n ==> CurrentPeriod(db.policies[i], at).Some?
  {
    if n > 0 {
      RefreshUpToSucceeds(db, at, n - 1);
    }
  }

  // That is all a refresh needs.
  lemma RefreshSucceeds(db: Db, at: Instant)
    ensures Refreshed(db, at).Ok? <==> PeriodsKnown(db, at)
  {
    RefreshUpToSucceeds(db, at, |db.policies|);
  }

  // What an evaluation never adds to: the policies up to their periods, and the addresses.
  ghost predicate Kept(db: Db, db': Db) {
    && db'.generation == db.generation && db'.snapshot == db.snapshot && SamePolicies(db.policies, db'.policies)
    && db'.activity.slots.Keys <= db.activity.slots.Keys && db'.activity.blocks.Keys <= db.activity.blocks.Keys
  }

  lemma KeptOn(a: Db, b: Db, c: Db)
    requires Kept(a, b) && Kept(b, c)
    ensures Kept(a, c)
  {
  }

  // The records of what is desired and of what was acknowledged.
  ghost predicate SameRecords(db: Db, db': Db) {
    && db'.services == db.services && db'.appliedServices == db.appliedServices
    && db'.blocks == db.blocks && db'.appliedBlocks == db.appliedBlocks && db'.orphans == db.orphans
  }

  // What was acknowledged, and the orphans.
  ghost predicate SameAcknowledged(db: Db, db': Db) {
    db'.appliedServices == db.appliedServices && db'.appliedBlocks == db.appliedBlocks && db'.orphans == db.orphans
  }

  lemma {:induction false} RefreshUpToKeeps(db: Db, at: Instant, n: nat)
    requires DistinctIds(db.policies) && n <= |db.policies| && RefreshUpTo(db, at, n).Ok?
    ensures Kept(db, RefreshUpTo(db, at, n).value) && SameRecords(db, RefreshUpTo(db, at, n).value)
  {
    if n > 0 {
      RefreshUpToKeeps(db, at, n - 1);
    }
  }

  // ---- Desired ----

  // The plugin reports and does what a policy asks of the plugins it is bound on.
  predicate Capable(p: Policy, r: Runtime) {
    r.counters && r.control && (p.softIPLimit.Some? ==> r.activity && r.blocking)
  }

  predicate BindingIsServed(p: Policy, b: Binding, runtimes: Runtimes) {
    b.plugin in runtimes && Capable(p, runtimes[b.plugin])
  }

  predicate OrphanIsServed(k: ServiceKey, runtimes: Runtimes) {
    k.plugin in runtimes && runtimes[k.plugin].counters && runtimes[k.plugin].control
  }

  // Every plugin that something is wanted of runs and is capable of it.
  ghost predicate PluginsServe(db: Db, runtimes: Runtimes) {
    && (forall i, j :: 0 <= i < |db.policies| && 0 <= j < |db.policies[i].bindings| ==>
          BindingIsServed(db.policies[i], db.policies[i].bindings[j], runtimes))
    && (forall k :: k in db.orphans ==> OrphanIsServed(k, runtimes))
    && (forall p :: p in BlockPlugins(db) ==> CanBlock(p, runtimes))
  }

  // There are revisions left for all the records that may have to be written.
  ghost predicate HasRoom(db: Db) {
    && db.services.revision + |BoundKeys(db.policies) + db.orphans| <= MAX_INT64
    && db.blocks.revision + |BlockPlugins(db)| <= MAX_INT64
  }

  lemma WantsAreConsistent(db: Db, now: int, order: seq<ServiceKey>)
    requires HasLedgers(db) && BindingsOk(db) && forall k :: k in order ==> k in db.orphans
    ensures Consistent(ServiceWants(db, now, order))
    ensures forall w :: w in ServiceWants(db, now, order) ==> w.key in BoundKeys(db.policies) + db.orphans
  {
    var wants := ServiceWants(db, now, order);
    forall i, j | 0 <= i < |wants| && 0 <= j < |wants| && wants[i].key == wants[j].key
      ensures wants[i] == wants[j]
    {
      SameKeySameWant(db, now, order, wants[i], wants[j]);
    }
    forall w | w in wants
      ensures w.key in BoundKeys(db.policies) + db.orphans
    {
      OrphanWantsAre(db, order);
      if w in BoundWants(db, now, |db.policies|) {
        var i, j := BoundWantAt(db, now, w);
      }
    }
  }

  lemma ServicesFit(db: Db, now: int, order: seq<ServiceKey>)
    requires HasLedgers(db) && BindingsOk(db) && HasRoom(db) && forall k :: k in order ==> k in db.orphans
    ensures EnsureAll(db.services, ServiceWants(db, now, order)).Ok?
  {
    var wants := ServiceWants(db, now, order);
    WantsAreConsistent(db, now, order);
    EnsureAllFits(db.services, wants);
    SubsetSize(Unmet(db.services, wants), BoundKeys(db.policies) + db.orphans);
  }

  lemma BlocksFit(db: Db, now: int, order: seq<Id>)
    requires HasRoom(db) && forall p :: p in order ==> p in BlockPlugins(db)
    ensures EnsureAll(db.blocks, BlockWants(db, now, order)).Ok?
  {
    var wants := BlockWants(db, now, order);
    BlockWantsAre(db, now, order);
    EnsureAllFits(db.blocks, wants);
    SubsetSize(Unmet(db.blocks, wants), BlockPlugins(db));
  }

  // Desired then succeeds, whichever orders it walks in.
  lemma DesiredSucceeds(db: Db, at: Instant, orphanOrder: seq<ServiceKey>, pluginOrder: seq<Id>)
    requires HasLedgers(db) && BindingsOk(db) && (db.generation > 0 ==> HasRoom(db))
    requires (forall k :: k in orphanOrder ==> k in db.orphans) && (forall p :: p in pluginOrder ==> p in BlockPlugins(db))
    ensures DesiredTx(db, at, orphanOrder, pluginOrder).Ok?
  {
    if db.generation > 0 {
      ServicesFit(db, at.now, orphanOrder);
      BlocksFit(db, at.now, pluginOrder);
    }
  }

  // What is handed out can be served.
  lemma WantIsServed(db: Db, now: int, order: seq<ServiceKey>, want: ServiceWant, row: Row<ServiceState>, runtimes: Runtimes)
    requires HasLedgers(db) && BindingsOk(db) && PluginsServe(db, runtimes)
    requires (forall k :: k in order ==> k in db.orphans) && want in ServiceWants(db, now, order) && row.payload == want.payload
    ensures CanServe(db, Entry(want.key, row), runtimes)
  {
    OrphanWantsAre(db, order);
    if want in BoundWants(db, now, |db.policies|) {
      var i, j := BoundWantAt(db, now, want);
      OnlyOneFound(db.policies, i);
      assert BindingIsServed(db.policies[i], db.policies[i].bindings[j], runtimes);
    } else {
      assert OrphanIsServed(want.key, runtimes);
    }
  }

  // ---- Statuses ----

  ghost predicate CountsFit(db: Db) {
    forall i :: 0 <= i < |db.policies| && db.policies[i].softIPLimit.Some? ==>
      |SlotsOf(db.activity, db.policies[i].id)| <= MAX_UINT32 && |BlocksOf(db.activity, db.policies[i].id)| <= MAX_UINT32
  }

  lemma {:induction false} StatusesSucceed(db: Db, at: Instant, instances: map<Id, Id>, n: nat)
    requires HasLedgers(db) && CountsFit(db) && n <= |db.policies|
    ensures StatusesUpTo(db, at, instances, n).Ok?
  {
    if n > 0 {
      StatusesSucceed(db, at, instances, n - 1);
    }
  }

  lemma CountsStayFit(db: Db, db': Db)
    requires Kept(db, db') && CountsFit(db)
    ensures CountsFit(db')
  {
    forall i | 0 <= i < |db'.policies| && db'.policies[i].softIPLimit.Some?
      ensures |SlotsOf(db'.activity, db'.policies[i].id)| <= MAX_UINT32
      ensures |BlocksOf(db'.activity, db'.policies[i].id)| <= MAX_UINT32
    {
      assert db.policies[i].softIPLimit.Some?;
      SubsetSize(SlotsOf(db'.activity, db'.policies[i].id), SlotsOf(db.activity, db.policies[i].id));
      SubsetSize(BlocksOf(db'.activity, db'.policies[i].id), BlocksOf(db.activity, db.policies[i].id));
    }
  }

  // ---- A whole evaluation ----

  // What statuses need, and what a whole evaluation needs besides plugins that answer and a
  // queue that accepts.
  ghost predicate StatusesPossible(db: Db, at: Instant) {
    PeriodsKnown(db, at) && (db.generation > 0 ==> CountsFit(db))
  }

  // What it takes to know what is desired.
  ghost predicate IsDesirable(db: Db, at: Instant) {
    PeriodsKnown(db, at) && (db.generation > 0 ==> HasRoom(db))
  }

  ghost predicate Evaluable(db: Db, at: Instant, runtimes: Runtimes) {
    StatusesPossible(db, at) && (db.generation > 0 ==> PluginsServe(db, runtimes) && HasRoom(db))
  }

  lemma StatusesStayPossible(db: Db, db': Db, at: Instant)
    requires Kept(db, db') && StatusesPossible(db, at)
    ensures StatusesPossible(db', at)
  {
    forall i | 0 <= i < |db'.policies|
      ensures CurrentPeriod(db'.policies[i], at).Some?
    {
      assert CurrentPeriod(db.policies[i], at).Some?;
    }
    if db.generation > 0 {
      CountsStayFit(db, db');
    }
  }

  lemma SameBlockPlugins(db: Db, db': Db)
    requires SamePolicies(db.policies, db'.policies) && db'.blocks == db.blocks
    ensures BlockPlugins(db') == BlockPlugins(db)
  {
    forall i, j | 0 <= i < |db.policies| && db.policies[i].softIPLimit.Some? && 0 <= j < |db.policies[i].bindings|
      ensures db.policies[i].bindings[j].plugin in BlockPlugins(db')
    {
      assert db'.policies[i].bindings[j] == db.policies[i].bindings[j];
    }
    forall i, j | 0 <= i < |db'.policies| && db'.policies[i].softIPLimit.Some? && 0 <= j < |db'.policies[i].bindings|
      ensures db'.policies[i].bindings[j].plugin in BlockPlugins(db)
    {
      assert db'.policies[i].bindings[j] == db.policies[i].bindings[j];
    }
  }

  lemma StaysDesirable(db: Db, db': Db, at: Instant)
    requires Kept(db, db') && SameRecords(db, db') && IsDesirable(db, at)
    ensures IsDesirable(db', at)
  {
    forall i | 0 <= i < |db'.policies|
      ensures CurrentPeriod(db'.policies[i], at).Some?
    {
      assert CurrentPeriod(db.policies[i], at).Some?;
    }
    SameBlockPlugins(db, db');
    SameBindings(db.policies, db'.policies);
  }

  lemma StaysEvaluable(db: Db, db': Db, at: Instant, runtimes: Runtimes)
    requires Kept(db, db') && SameRecords(db, db') && Evaluable(db, at, runtimes)
    ensures Evaluable(db', at, runtimes)
  {
    StatusesStayPossible(db, db', at);
    SameBlockPlugins(db, db');
    SameBindings(db.policies, db'.policies);
    if db.generation > 0 {
      forall i, j | 0 <= i < |db'.policies| && 0 <= j < |db'.policies[i].bindings|
        ensures BindingIsServed(db'.policies[i], db'.policies[i].bindings[j], runtimes)
      {
        assert BindingIsServed(db.policies[i], db.policies[i].bindings[j], runtimes);
      }
    }
  }

  // ---- Which calls are made ----

  datatype Call =
    | ServiceCall(s: DesiredService, instance: Id, acknowledged: bool)
    | BlocksCall(b: DesiredBlocks, instance: Id, acknowledged: bool)

  ghost function AskedServices(made: seq<Call>): set<DesiredService> {
    set c | c in made && c.ServiceCall? :: c.s
  }

  ghost function AskedBlocks(made: seq<Call>): set<DesiredBlocks> {
    set c | c in made && c.BlocksCall? :: c.b
  }

  // The running instance has not acknowledged the record yet.
  ghost predicate ServiceIsDue(db: Db, s: DesiredService, runtimes: Runtimes) {
    CanServe(db, s, runtimes) && NeedsApply(db.appliedServices, s.key, s.row, runtimes[s.key.plugin].instance)
  }

  ghost predicate BlocksAreDue(db: Db, b: DesiredBlocks, runtimes: Runtimes) {
    CanBlock(b.key, runtimes) && NeedsApply(db.appliedBlocks, b.key, b.row, runtimes[b.key].instance)
  }

  // After an evaluation of `before` that led to `after`: exactly the bound services and the
  // block sets whose records were due were asked for, and every orphan was to be disabled.
  ghost predicate AskedWhatWasDue(before: Db, after: Db, made: seq<Call>, runtimes: Runtimes) {
    && (before.generation == 0 ==> made == [])
    && (before.generation > 0 ==>
          && (forall k :: k in BoundKeys(after.policies) ==>
                && k in after.services.rows && k.plugin in runtimes
                && var row := after.services.rows[k];
                   Entry(k, row) in AskedServices(made) <==>
                     NeedsApply(before.appliedServices, k, row, runtimes[k.plugin].instance))
          && (forall k :: k in before.orphans ==>
                exists s :: s in AskedServices(made) && s.key == k && !s.row.payload.enabled)
          && (forall s :: s in AskedServices(made) ==> s.key in BoundKeys(after.policies) + before.orphans)
          && (forall p :: p in BlockPlugins(after) ==>
                && p in after.blocks.rows && p in runtimes
                && var row := after.blocks.rows[p];
                   Entry(p, row) in AskedBlocks(made) <==>
                     NeedsApply(before.appliedBlocks, p, row, runtimes[p].instance))
          && (forall b :: b in AskedBlocks(made) ==> b.key in BlockPlugins(after)))
    && |made| == |AskedServices(made)| + |AskedBlocks(made)|
  }

  // Whatever fails and wherever: every service, orphan and block set whose plugin runs and is
  // capable was asked for if its record was due, no other, and no other service or plugin.
  ghost predicate AskedWhereServed(before: Db, after: Db, made: seq<Call>, runtimes: Runtimes) {
    before.generation > 0 ==>
      && (forall k :: k in BoundKeys(after.policies) ==>
            && k in after.services.rows
            && var s := Entry(k, after.services.rows[k]);
               s in AskedServices(made) <==>
                 CanServe(after, s, runtimes) && NeedsApply(before.appliedServices, k, s.row, runtimes[k.plugin].instance))
      && (forall k :: k in before.orphans && OrphanIsServed(k, runtimes) ==>
            exists s :: s in AskedServices(made) && s.key == k && !s.row.payload.enabled)
      && (forall s :: s in AskedServices(made) ==> s.key in BoundKeys(after.policies) + before.orphans)
      && (forall p :: p in BlockPlugins(after) ==>
            && p in after.blocks.rows
            && var row := after.blocks.rows[p];
               Entry(p, row) in AskedBlocks(made) <==>
                 CanBlock(p, runtimes) && NeedsApply(before.appliedBlocks, p, row, runtimes[p].instance))
      && (forall b :: b in AskedBlocks(made) ==> b.key in BlockPlugins(after))
  }

  lemma WhereServedDependsOn(before: Db, before': Db, after: Db, after': Db, made: seq<Call>, runtimes: Runtimes)
    requires before'.generation == before.generation && SameAcknowledged(before, before')
    requires SamePolicies(after.policies, after'.policies) && after'.services == after.services && after'.blocks == after.blocks
    requires AskedWhereServed(before', after, made, runtimes)
    ensures AskedWhereServed(before, after', made, runtimes)
  {
    SameBindings(after.policies, after'.policies);
    SameBlockPlugins(after, after');
    if before.generation > 0 {
      forall k | k in BoundKeys(after'.policies)
        ensures CanServe(after', Entry(k, after.services.rows[k]), runtimes) == CanServe(after, Entry(k, after.services.rows[k]), runtimes)
      {
        SameSoftLimit(after, after', Entry(k, after.services.rows[k]));
      }
    }
  }

  lemma SameSoftLimit(db: Db, db': Db, s: DesiredService)
    requires SamePolicies(db.policies, db'.policies)
    ensures RequiresSoftIP(db', s) == RequiresSoftIP(db, s)
  {
    SameFound(db.policies, db'.policies, s.key.authorization);
  }

  lemma {:induction false} SameFound(a: seq<Policy>, b: seq<Policy>, id: Id)
    requires SamePolicies(a, b)
    ensures FindPolicy(a, id).Some? <==> FindPolicy(b, id).Some?
    ensures FindPolicy(a, id).Some? ==> FindPolicy(b, id).value.softIPLimit == FindPolicy(a, id).value.softIPLimit
  {
    if a != [] {
      SameFound(a[..|a| - 1], b[..|b| - 1], id);
    }
  }

  lemma AskedDependsOn(before: Db, before': Db, after: Db, after': Db, made: seq<Call>, runtimes: Runtimes)
    requires before'.generation == before.generation && SameAcknowledged(before, before')
    requires SamePolicies(after.policies, after'.policies) && after'.services == after.services && after'.blocks == after.blocks
    requires AskedWhatWasDue(before', after, made, runtimes)
    ensures AskedWhatWasDue(before, after', made, runtimes)
  {
    SameBindings(after.policies, after'.policies);
    SameBlockPlugins(after, after');
  }

  lemma RefreshedStatusesArePossible(db: Db, clean: Db, at: Instant, instances: map<Id, Id>)
    requires HasLedgers(clean) && Kept(db, clean) && StatusesPossible(db, at)
    ensures StatusesTx(clean, at, instances).Ok?
  {
    StatusesStayPossible(db, clean, at);
    if clean.generation > 0 {
      StatusesSucceed(clean, at, instances, |clean.policies|);
    }
  }

  // ---- Calls, one by one ----

  // Calling for one service leaves what is due for the others, and their records.
  ghost predicate OthersStay(w: World, db: Db, s: DesiredService, runtimes: Runtimes) {
    forall d :: d in w.todo && d != s ==>
      && (ServiceIsDue(db, d, runtimes) <==> ServiceIsDue(w.db, d, runtimes))
      && (d.key in w.db.services.rows ==> d.key in db.services.rows)
  }

  ghost predicate OtherBlocksStay(w: World, db: Db, b: DesiredBlocks, runtimes: Runtimes) {
    forall d :: d in w.todoBlocks && d != b ==> (BlocksAreDue(db, d, runtimes) <==> BlocksAreDue(w.db, d, runtimes))
  }

  // From `start` on, the first of those that are due were asked for, and nothing else.
  ghost predicate AskedSoFar(start: Db, db: Db, todo: set<DesiredService>, done: seq<DesiredService>, made: seq<Call>, runtimes: Runtimes) {
    && (forall c :: c in made ==> c.ServiceCall?)
    && (forall s :: s in AskedServices(made) ==> s in done && ServiceIsDue(start, s, runtimes))
    && (forall s :: s in done && ServiceIsDue(start, s, runtimes) ==> s in AskedServices(made))
    && (forall s :: s in todo && s !in AskedServices(made) ==> (ServiceIsDue(db, s, runtimes) <==> ServiceIsDue(start, s, runtimes)))
  }

  ghost predicate BlocksAskedSoFar(start: Db, db: Db, todo: set<DesiredBlocks>, done: seq<DesiredBlocks>, made: seq<Call>, runtimes: Runtimes) {
    && (forall c :: c in made ==> c.BlocksCall?)
    && (forall b :: b in AskedBlocks(made) ==> b in done && BlocksAreDue(start, b, runtimes))
    && (forall b :: b in done && BlocksAreDue(start, b, runtimes) ==> b in AskedBlocks(made))
    && (forall b :: b in todo && b !in AskedBlocks(made) ==> (BlocksAreDue(db, b, runtimes) <==> BlocksAreDue(start, b, runtimes)))
  }

  // What is due is still a record.
  ghost predicate DueAreRecords(db: Db, list: seq<DesiredService>, runtimes: Runtimes) {
    forall s :: s in list && ServiceIsDue(db, s, runtimes) ==> s.key in db.services.rows
  }

  // Each was asked for once, and is due no more.
  ghost predicate AskedOnce(db: Db, made: seq<Call>, runtimes: Runtimes) {
    && |made| == |AskedServices(made)|
    && forall s :: s in AskedServices(made) ==> !ServiceIsDue(db, s, runtimes)
  }

  ghost predicate BlocksAskedOnce(db: Db, made: seq<Call>, runtimes: Runtimes) {
    && |made| == |AskedBlocks(made)|
    && forall b :: b in AskedBlocks(made) ==> !BlocksAreDue(db, b, runtimes)
  }

  lemma AskedMore(made: seq<Call>, c: Call)
    ensures AskedServices(made + [c]) == AskedServices(made) + if c.ServiceCall? then {c.s} else {}
    ensures AskedBlocks(made + [c]) == AskedBlocks(made) + if c.BlocksCall? then {c.b} else {}
  {
    assert forall d :: d in made + [c] <==> d in made || d == c;
  }

  // The calls of one iteration.
  ghost function CallFor(db: Db, s: DesiredService, runtimes: Runtimes, acknowledged: bool): seq<Call> {
    if ServiceIsDue(db, s, runtimes) then [ServiceCall(s, runtimes[s.key.plugin].instance, acknowledged)] else []
  }

  ghost function CallForBlocks(db: Db, b: DesiredBlocks, runtimes: Runtimes, acknowledged: bool): seq<Call> {
    if BlocksAreDue(db, b, runtimes) then [BlocksCall(b, runtimes[b.key].instance, acknowledged)] else []
  }

  lemma ServiceWasAsked(start: Db, w: World, db: Db, done: seq<DesiredService>, made: seq<Call>, s: DesiredService,
                        runtimes: Runtimes, acknowledged: bool)
    requires AskedSoFar(start, w.db, w.todo, done, made, runtimes) && s in w.todo
    requires OthersStay(w, db, s, runtimes) && (!ServiceIsDue(w.db, s, runtimes) ==> db == w.db)
    ensures AskedSoFar(start, db, w.todo, done + [s], made + CallFor(w.db, s, runtimes, acknowledged), runtimes)
  {
    if ServiceIsDue(w.db, s, runtimes) {
      AskedMore(made, CallFor(w.db, s, runtimes, acknowledged)[0]);
    } else {
      assert made + [] == made;
    }
  }

  lemma ServiceWasAskedOnce(start: Db, w: World, db: Db, list: seq<DesiredService>, done: seq<DesiredService>, made: seq<Call>,
                            s: DesiredService, runtimes: Runtimes, acknowledged: bool)
    requires AskedSoFar(start, w.db, w.todo, done, made, runtimes) && s in w.todo
    requires (forall d :: d in list || d in done ==> d in w.todo) && DueAreRecords(w.db, list, runtimes) && AskedOnce(w.db, made, runtimes)
    requires OthersStay(w, db, s, runtimes) && !ServiceIsDue(db, s, runtimes) && (!ServiceIsDue(w.db, s, runtimes) ==> db == w.db)
    ensures DueAreRecords(db, list, runtimes)
    ensures AskedOnce(db, made + CallFor(w.db, s, runtimes, acknowledged), runtimes)
  {
    if ServiceIsDue(w.db, s, runtimes) {
      AskedMore(made, CallFor(w.db, s, runtimes, acknowledged)[0]);
    } else {
      assert made + [] == made;
    }
  }

  lemma BlocksWereAsked(start: Db, w: World, db: Db, done: seq<DesiredBlocks>, made: seq<Call>, b: DesiredBlocks,
                        runtimes: Runtimes, acknowledged: bool)
    requires BlocksAskedSoFar(start, w.db, w.todoBlocks, done, made, runtimes) && b in w.todoBlocks
    requires OtherBlocksStay(w, db, b, runtimes) && (!BlocksAreDue(w.db, b, runtimes) ==> db == w.db)
    ensures BlocksAskedSoFar(start, db, w.todoBlocks, done + [b], made + CallForBlocks(w.db, b, runtimes, acknowledged), runtimes)
  {
    if BlocksAreDue(w.db, b, runtimes) {
      AskedMore(made, CallForBlocks(w.db, b, runtimes, acknowledged)[0]);
    } else {
      assert made + [] == made;
    }
  }

  lemma BlocksWereAskedOnce(start: Db, w: World, db: Db, done: seq<DesiredBlocks>, made: seq<Call>, b: DesiredBlocks,
                            runtimes: Runtimes, acknowledged: bool)
    requires BlocksAskedSoFar(start, w.db, w.todoBlocks, done, made, runtimes) && b in w.todoBlocks
    requires (forall d :: d in done ==> d in w.todoBlocks) && BlocksAskedOnce(w.db, made, runtimes)
    requires OtherBlocksStay(w, db, b, runtimes) && !BlocksAreDue(db, b, runtimes) && (!BlocksAreDue(w.db, b, runtimes) ==> db == w.db)
    ensures BlocksAskedOnce(db, made + CallForBlocks(w.db, b, runtimes, acknowledged), runtimes)
  {
    if BlocksAreDue(w.db, b, runtimes) {
      AskedMore(made, CallForBlocks(w.db, b, runtimes, acknowledged)[0]);
    } else {
      assert made + [] == made;
    }
  }
}
