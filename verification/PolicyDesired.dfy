// The loops of Desired: the wants of policies and orphans, the blocks of each plugin, and
// their records (internal/policy/desired.go).
module PolicyDesired {
  import opened Prelude
  import opened RevisionTable
  import opened PolicyModel
  import opened PolicyActivity
  import opened PolicyTransactions
  import opened PolicySystem
  import opened PolicyBuckets

  // ---- EnsureAll, one want at a time ----

  lemma EnsureAllMore<K, P>(t: Table<K, P>, ws: seq<Want<K, P>>, w: Want<K, P>)
    ensures EnsureAll(t, ws + [w])
            == if EnsureAll(t, ws).Err? then EnsureAll(t, ws) else Ensure(EnsureAll(t, ws).value, w)
    ensures EnsureAll(t, ws + [w]).Ok? ==>
              Recorded(t, ws + [w]) == Recorded(t, ws) + [Entry(w.key, EnsureAll(t, ws + [w]).value.rows[w.key])]
  {
    assert (ws + [w])[..|ws|] == ws;
  }

  lemma {:induction false} EnsureAllStaysFailed<K, P>(t: Table<K, P>, ws: seq<Want<K, P>>, more: seq<Want<K, P>>)
    requires EnsureAll(t, ws).Err?
    ensures EnsureAll(t, ws + more).Err?
    decreases |more|
  {
    if more == [] {
      assert ws + more == ws;
    } else {
      EnsureAllStaysFailed(t, ws, more[..|more| - 1]);
      EnsureAllMore(t, ws + more[..|more| - 1], more[|more| - 1]);
      assert ws + more == ws + more[..|more| - 1] + [more[|more| - 1]];
    }
  }

  // A table under way: what was wanted so far, and what was returned for it.
  ghost predicate Under<K, P>(start: Table<K, P>, ws: seq<Want<K, P>>, t: Table<K, P>, list: seq<Entry<K, P>>) {
    EnsureAll(start, ws) == Ok(t) && Recorded(start, ws) == list
  }

  // Ensures one record and notes it.
  method Note<K(==), P(==)>(t: Table<K, P>, list: seq<Entry<K, P>>, w: Want<K, P>, ghost start: Table<K, P>, ghost ws: seq<Want<K, P>>)
    returns (ok: bool, t': Table<K, P>, list': seq<Entry<K, P>>)
    requires Under(start, ws, t, list)
    ensures ok ==> Under(start, ws + [w], t', list')
    ensures !ok ==> EnsureAll(start, ws + [w]).Err?
  {
    EnsureAllMore(start, ws, w);
    var r := Ensure(t, w);
    if r.Err? { return false, t, list; }
    return true, r.value, list + [Entry(w.key, r.value.rows[w.key])];
  }

  // ---- Services ----

  lemma {:induction false} PolicyWantsGrow(p: Policy, state: ServiceState, n: nat)
    requires n <= |p.bindings|
    ensures |PolicyWants(p, state, |p.bindings|)| == |p.bindings|
    ensures PolicyWants(p, state, n) == PolicyWants(p, state, |p.bindings|)[..n]
    decreases |p.bindings| - n
  {
    PolicyWantsLength(p, state, |p.bindings|);
    if n < |p.bindings| {
      PolicyWantsGrow(p, state, n + 1);
      PolicyWantsLength(p, state, n);
    }
  }

  lemma {:induction false} PolicyWantsLength(p: Policy, state: ServiceState, n: nat)
    requires n <= |p.bindings|
    ensures |PolicyWants(p, state, n)| == n
  {
    if n > 0 {
      PolicyWantsLength(p, state, n - 1);
    }
  }

  lemma PolicyStaysFailed(start: Table<ServiceKey, ServiceState>, ws: seq<ServiceWant>, p: Policy, state: ServiceState, n: nat)
    requires n <= |p.bindings| && EnsureAll(start, ws + PolicyWants(p, state, n)).Err?
    ensures EnsureAll(start, ws + PolicyWants(p, state, |p.bindings|)).Err?
  {
    PolicyWantsGrow(p, state, n);
    var all := PolicyWants(p, state, |p.bindings|);
    EnsureAllStaysFailed(start, ws + all[..n], all[n..]);
    assert ws + all[..n] + all[n..] == ws + all;
  }

  // The services of one policy.
  method WantPolicy(p: Policy, state: ServiceState, t: Table<ServiceKey, ServiceState>, list: seq<DesiredService>,
                    ghost start: Table<ServiceKey, ServiceState>, ghost ws: seq<ServiceWant>)
    returns (ok: bool, t': Table<ServiceKey, ServiceState>, list': seq<DesiredService>)
    requires Under(start, ws, t, list)
    ensures ok ==> Under(start, ws + PolicyWants(p, state, |p.bindings|), t', list')
    ensures !ok ==> EnsureAll(start, ws + PolicyWants(p, state, |p.bindings|)).Err?
  {
    ok, t', list' := true, t, list;
    ghost var sofar := ws;
    for j := 0 to |p.bindings|
      invariant sofar == ws + PolicyWants(p, state, j)
      invariant ok && Under(start, sofar, t', list')
    {
      var w := Want(KeyOf(p, p.bindings[j]), state);
      ok, t', list' := Note(t', list', w, start, sofar);
      sofar := sofar + [w];
      assert sofar == ws + PolicyWants(p, state, j + 1);
      if !ok {
        PolicyStaysFailed(start, ws, p, state, j + 1);
        return;
      }
    }
  }

  lemma {:induction false} BoundWantsStayFailed(db: Db, now: int, n: nat, m: nat)
    requires HasLedgers(db) && n <= m <= |db.policies| && EnsureAll(db.services, BoundWants(db, now, n)).Err?
    ensures EnsureAll(db.services, BoundWants(db, now, m)).Err?
    decreases m - n
  {
    if n < m {
      BoundWantsStayFailed(db, now, n, m - 1);
      var p := db.policies[m - 1];
      EnsureAllStaysFailed(db.services, BoundWants(db, now, m - 1), PolicyWants(p, BoundState(db, p, now), |p.bindings|));
    }
  }

  method WantBound(db: Db, now: int) returns (ok: bool, t: Table<ServiceKey, ServiceState>, list: seq<DesiredService>)
    requires HasLedgers(db)
    ensures ok ==> Under(db.services, BoundWants(db, now, |db.policies|), t, list)
    ensures !ok ==> EnsureAll(db.services, BoundWants(db, now, |db.policies|)).Err?
  {
    ok, t, list := true, db.services, [];
    for i := 0 to |db.policies|
      invariant ok && Under(db.services, BoundWants(db, now, i), t, list)
    {
      var p := db.policies[i];
      ok, t, list := WantPolicy(p, BoundState(db, p, now), t, list, db.services, BoundWants(db, now, i));
      if !ok {
        BoundWantsStayFailed(db, now, i + 1, |db.policies|);
        return;
      }
    }
  }

  lemma OrphanWantsOfMore(db: Db, order: seq<ServiceKey>, key: ServiceKey, ws: seq<ServiceWant>)
    ensures ws + OrphanWants(db, order + [key]) == ws + OrphanWants(db, order) + [Want(key, OrphanState(db))]
  {
    assert (order + [key])[..|order|] == order;
  }

  // The orphans, in the order in which they were walked, as far as the walk came.
  method WantOrphans(db: Db, t: Table<ServiceKey, ServiceState>, list: seq<DesiredService>, ghost ws: seq<ServiceWant>)
    returns (ok: bool, t': Table<ServiceKey, ServiceState>, list': seq<DesiredService>, ghost order: seq<ServiceKey>)
    requires Under(db.services, ws, t, list)
    ensures ok ==> Enumerates(order, db.orphans) && Under(db.services, ws + OrphanWants(db, order), t', list')
    ensures !ok ==> EnsureAll(db.services, ws + OrphanWants(db, order)).Err?
    ensures forall k :: k in order ==> k in db.orphans
  {
    ok, t', list', order := true, t, list, [];
    var todo := db.orphans;
    ghost var sofar := ws;
    while todo != {}
      invariant todo <= db.orphans && Enumerates(order, db.orphans - todo)
      invariant sofar == ws + OrphanWants(db, order)
      invariant ok && Under(db.services, sofar, t', list')
      decreases |todo|
    {
      var key := Pick(todo);
      WalksMore(order, db.orphans, todo, key);
      OrphanWantsOfMore(db, order, key, ws);
      ok, t', list' := Note(t', list', Want(key, OrphanState(db)), db.services, sofar);
      sofar := sofar + [Want(key, OrphanState(db))];
      todo, order := todo - {key}, order + [key];
      if !ok { return; }
    }
    WalkIsOver(order, db.orphans, todo);
  }

  // The services that Desired returns.
  method WantServices(db: Db, now: int)
    returns (ok: bool, t: Table<ServiceKey, ServiceState>, list: seq<DesiredService>, ghost order: seq<ServiceKey>)
    requires HasLedgers(db)
    ensures ok ==> Enumerates(order, db.orphans) && Under(db.services, ServiceWants(db, now, order), t, list)
    ensures !ok ==> EnsureAll(db.services, ServiceWants(db, now, order)).Err?
    ensures forall k :: k in order ==> k in db.orphans
  {
    order := [];
    ghost var bound := BoundWants(db, now, |db.policies|);
    ok, t, list := WantBound(db, now);
    if !ok {
      assert bound + OrphanWants(db, order) == bound;
      return;
    }
    ok, t, list, order := WantOrphans(db, t, list, bound);
  }

  // ---- Blocks ----

  type Destination = map<Id, set<DynamicBlock>>

  function Get(d: Destination, plugin: Id): set<DynamicBlock> { if plugin in d then d[plugin] else {} }

  // The blocks of one address, for the first n bindings that are on the plugin.
  function AddressBlocks(p: Policy, plugin: Id, address: Id, expiresAt: int, n: nat): set<DynamicBlock>
    requires n <= |p.bindings|
  {
    set j | 0 <= j < n && p.bindings[j].plugin == plugin :: DynamicBlock(p.id, p.bindings[j].service, address, expiresAt)
  }

  predicate IsBlocked(p: Policy, a: Activity, now: int, k: ActivityKey) {
    k in a.blocks && k.authorization == p.id && a.blocks[k] > now
  }

  function PolicyBlocks(p: Policy, plugin: Id, a: Activity, now: int, keys: set<ActivityKey>): set<DynamicBlock> {
    set k, j | k in keys && IsBlocked(p, a, now, k) && 0 <= j < |p.bindings| && p.bindings[j].plugin == plugin
      :: DynamicBlock(p.id, p.bindings[j].service, k.address, a.blocks[k])
  }

  lemma PolicyBlocksOfMore(p: Policy, plugin: Id, a: Activity, now: int, keys: set<ActivityKey>, k: ActivityKey)
    requires k in a.blocks
    ensures PolicyBlocks(p, plugin, a, now, keys + {k})
            == if IsBlocked(p, a, now, k)
               then PolicyBlocks(p, plugin, a, now, keys) + AddressBlocks(p, plugin, k.address, a.blocks[k], |p.bindings|)
               else PolicyBlocks(p, plugin, a, now, keys)
  {
  }

  ghost predicate Appended(d: Destination, destination: Destination, p: Policy, a: Activity, now: int, keys: set<ActivityKey>) {
    forall plugin :: Get(d, plugin) == Get(destination, plugin) + PolicyBlocks(p, plugin, a, now, keys)
  }

  ghost predicate AppendedAddress(d: Destination, destination: Destination, p: Policy, address: Id, expiresAt: int) {
    forall plugin :: Get(d, plugin) == Get(destination, plugin) + AddressBlocks(p, plugin, address, expiresAt, |p.bindings|)
  }

  lemma AppendedMore(d: Destination, d': Destination, destination: Destination, p: Policy, a: Activity, now: int,
                     keys: set<ActivityKey>, k: ActivityKey)
    requires Appended(d, destination, p, a, now, keys) && k in a.blocks
    requires if IsBlocked(p, a, now, k) then AppendedAddress(d', d, p, k.address, a.blocks[k]) else d' == d
    ensures Appended(d', destination, p, a, now, keys + {k})
  {
    forall plugin
      ensures Get(d', plugin) == Get(destination, plugin) + PolicyBlocks(p, plugin, a, now, keys + {k})
    {
      PolicyBlocksOfMore(p, plugin, a, now, keys, k);
    }
  }

  method AppendKey(p: Policy, a: Activity, now: int, k: ActivityKey, d: Destination,
                   ghost destination: Destination, ghost keys: set<ActivityKey>) returns (d': Destination)
    requires Appended(d, destination, p, a, now, keys) && k in a.blocks
    ensures Appended(d', destination, p, a, now, keys + {k})
  {
    d' := d;
    if k.authorization == p.id && a.blocks[k] > now {
      d' := AppendAddress(p, k.address, a.blocks[k], d);
    }
    AppendedMore(d, d', destination, p, a, now, keys, k);
  }

  // appendPolicyBlocks
  method AppendPolicyBlocks(p: Policy, a: Activity, now: int, destination: Destination) returns (d: Destination)
    ensures Appended(d, destination, p, a, now, a.blocks.Keys)
  {
    d := destination;
    var todo := a.blocks.Keys;
    ghost var done: set<ActivityKey> := {};
    NothingAppended(destination, p, a, now);
    while todo != {}
      invariant todo <= a.blocks.Keys && done == a.blocks.Keys - todo
      invariant Appended(d, destination, p, a, now, done)
      decreases |todo|
    {
      var k := Pick(todo);
      d := AppendKey(p, a, now, k, d, destination, done);
      todo, done := todo - {k}, done + {k};
    }
    assert done == a.blocks.Keys;
  }

  lemma NothingAppended(destination: Destination, p: Policy, a: Activity, now: int)
    ensures Appended(destination, destination, p, a, now, {})
  {
  }

  lemma AddressBlocksOfMore(p: Policy, plugin: Id, address: Id, expiresAt: int, n: nat)
    requires n < |p.bindings|
    ensures AddressBlocks(p, plugin, address, expiresAt, n + 1)
            == if p.bindings[n].plugin == plugin
               then AddressBlocks(p, plugin, address, expiresAt, n) + {DynamicBlock(p.id, p.bindings[n].service, address, expiresAt)}
               else AddressBlocks(p, plugin, address, expiresAt, n)
  {
  }

  method AppendAddress(p: Policy, address: Id, expiresAt: int, destination: Destination) returns (d: Destination)
    ensures AppendedAddress(d, destination, p, address, expiresAt)
  {
    d := destination;
    for j := 0 to |p.bindings|
      invariant forall plugin :: Get(d, plugin) == Get(destination, plugin) + AddressBlocks(p, plugin, address, expiresAt, j)
    {
      var b := p.bindings[j];
      var block := DynamicBlock(p.id, b.service, address, expiresAt);
      forall plugin
        ensures AddressBlocks(p, plugin, address, expiresAt, j + 1)
                == if b.plugin == plugin then AddressBlocks(p, plugin, address, expiresAt, j) + {block}
                   else AddressBlocks(p, plugin, address, expiresAt, j)
      {
        AddressBlocksOfMore(p, plugin, address, expiresAt, j);
      }
      d := d[b.plugin := Get(d, b.plugin) + {block}];
    }
  }

  // The policies up to the n-th, in PluginBlocks and BlockPlugins.
  function FirstPolicies(db: Db, n: nat): Db
    requires n <= |db.policies|
  {
    db.(policies := db.policies[..n])
  }

  lemma PluginBlocksOfMore(db: Db, plugin: Id, now: int, n: nat)
    requires n < |db.policies|
    ensures var p := db.policies[n];
            PluginBlocks(FirstPolicies(db, n + 1), plugin, now)
            == if p.softIPLimit.Some?
               then PluginBlocks(FirstPolicies(db, n), plugin, now) + PolicyBlocks(p, plugin, db.activity, now, db.activity.blocks.Keys)
               else PluginBlocks(FirstPolicies(db, n), plugin, now)
  {
    var more, fewer := FirstPolicies(db, n + 1), FirstPolicies(db, n);
    assert forall i :: 0 <= i < n ==> more.policies[i] == fewer.policies[i];
  }

  function PluginsOf(p: Policy, n: nat): set<Id>
    requires n <= |p.bindings|
  {
    set j | 0 <= j < n :: p.bindings[j].plugin
  }

  lemma BlockPluginsOfMore(db: Db, n: nat)
    requires n < |db.policies|
    ensures var p := db.policies[n];
            BlockPlugins(FirstPolicies(db, n + 1))
            == if p.softIPLimit.Some? then BlockPlugins(FirstPolicies(db, n)) + PluginsOf(p, |p.bindings|)
               else BlockPlugins(FirstPolicies(db, n))
  {
    var more, fewer := FirstPolicies(db, n + 1), FirstPolicies(db, n);
    assert forall i :: 0 <= i < n ==> more.policies[i] == fewer.policies[i];
  }

  ghost predicate Collected(db: Db, now: int, n: nat, plugins: set<Id>, d: Destination)
    requires n <= |db.policies|
  {
    && plugins == BlockPlugins(FirstPolicies(db, n))
    && forall plugin :: Get(d, plugin) == PluginBlocks(FirstPolicies(db, n), plugin, now)
  }

  // The plugins that need a block set, and their blocks.
  method CollectBlocks(db: Db, now: int) returns (plugins: set<Id>, d: Destination)
    ensures plugins == BlockPlugins(db)
    ensures forall plugin :: Get(d, plugin) == PluginBlocks(db, plugin, now)
  {
    plugins, d := db.blocks.rows.Keys, map[];
    for i := 0 to |db.policies|
      invariant Collected(db, now, i, plugins, d)
    {
      plugins, d := CollectPolicy(db, now, i, plugins, d);
    }
    assert db.policies[..|db.policies|] == db.policies;
  }

  method CollectPolicy(db: Db, now: int, i: nat, plugins: set<Id>, d: Destination)
    returns (plugins': set<Id>, d': Destination)
    requires i < |db.policies| && Collected(db, now, i, plugins, d)
    ensures Collected(db, now, i + 1, plugins', d')
  {
    plugins', d' := plugins, d;
    var p := db.policies[i];
    BlockPluginsOfMore(db, i);
    if p.softIPLimit.Some? {
      for j := 0 to |p.bindings|
        invariant plugins' == plugins + PluginsOf(p, j)
      {
        assert PluginsOf(p, j + 1) == PluginsOf(p, j) + {p.bindings[j].plugin};
        plugins' := plugins' + {p.bindings[j].plugin};
      }
      d' := AppendPolicyBlocks(p, db.activity, now, d);
    }
    forall plugin
      ensures Get(d', plugin) == PluginBlocks(FirstPolicies(db, i + 1), plugin, now)
    {
      PluginBlocksOfMore(db, plugin, now, i);
    }
  }

  lemma BlockWantsOfMore(db: Db, now: int, order: seq<Id>, plugin: Id)
    ensures BlockWants(db, now, order + [plugin])
            == BlockWants(db, now, order) + [Want(plugin, BlockState(db.generation, PluginBlocks(db, plugin, now)))]
  {
    assert (order + [plugin])[..|order|] == order;
  }

  // The block records that Desired returns; `order` is that in which the plugins were
  // walked, as far as the walk came.
  method WantBlocks(db: Db, now: int)
    returns (ok: bool, t: Table<Id, BlockState>, list: seq<DesiredBlocks>, ghost order: seq<Id>)
    ensures ok ==> Enumerates(order, BlockPlugins(db)) && Under(db.blocks, BlockWants(db, now, order), t, list)
    ensures !ok ==> EnsureAll(db.blocks, BlockWants(db, now, order)).Err?
    ensures forall p :: p in order ==> p in BlockPlugins(db)
  {
    var plugins, blocks := CollectBlocks(db, now);
    ok, t, list, order := WantCollected(db, now, plugins, blocks);
  }

  method WantCollected(db: Db, now: int, plugins: set<Id>, blocks: Destination)
    returns (ok: bool, t: Table<Id, BlockState>, list: seq<DesiredBlocks>, ghost order: seq<Id>)
    requires forall plugin :: Get(blocks, plugin) == PluginBlocks(db, plugin, now)
    ensures ok ==> Enumerates(order, plugins) && Under(db.blocks, BlockWants(db, now, order), t, list)
    ensures !ok ==> EnsureAll(db.blocks, BlockWants(db, now, order)).Err?
    ensures forall p :: p in order ==> p in plugins
  {
    ok, t, list, order := true, db.blocks, [], [];
    var todo := plugins;
    ghost var sofar: seq<Want<Id, BlockState>> := [];
    while todo != {}
      invariant todo <= plugins && Enumerates(order, plugins - todo)
      invariant sofar == BlockWants(db, now, order)
      invariant ok && Under(db.blocks, sofar, t, list)
      decreases |todo|
    {
      var plugin := Pick(todo);
      WalksMore(order, plugins, todo, plugin);
      BlockWantsOfMore(db, now, order, plugin);
      var want := Want(plugin, BlockState(db.generation, Get(blocks, plugin)));
      ok, t, list := Note(t, list, want, db.blocks, sofar);
      sofar := sofar + [want];
      todo, order := todo - {plugin}, order + [plugin];
      if !ok { return; }
    }
    WalkIsOver(order, plugins, todo);
  }
}
