/** What startup reconciliation guarantees in an unchanging provider world. */
module Reconciliation {
  import opened Text
  import opened Records
  import opened Lifecycle

  /** The inventories agree with the status queries: a runtime listed in some live state is
      reported in that state by the provider its adopted row would name. */
  ghost predicate Coherent(ps: Providers) {
    forall r :: r in Inventory(ps.registry) && StateOr(r.state) != Destroyed ==>
      exists s :: ps.probe(r.provider, r.id) == Reported(s) && StateOr(s) == StateOr(r.state)
  }

  // ---------- The adoption pass ----------

  predicate Foreign(leases: map<string, string>, localId: string, id: string) {
    id in leases && leases[id] != localId
  }

  /** A runtime that a further visit cannot turn into a new row. */
  predicate Settled(localId: string, store: Store, leases: map<string, string>, r: Runtime) {
    StateOr(r.state) == Destroyed || r.id in store || Foreign(leases, localId, r.id)
  }

  /** A runtime whose id has a destroyed row and a lease we can take: visiting it fails. */
  predicate Blocks(localId: string, store: Store, leases: map<string, string>, r: Runtime) {
    && StateOr(r.state) != Destroyed && r.id in store && store[r.id].state == Destroyed
    && !Foreign(leases, localId, r.id)
  }

  /** The known ids are the live rows of the table, plus ids with a row. */
  ghost predicate Wellformed(a: Adoption) {
    (forall id :: id in Live(a.store) ==> id in a.known) && a.known <= a.store.Keys
  }

  /** Rows are only added, in the state their runtime was listed with; foreign leases stay. */
  ghost predicate Extends(localId: string, a: Adoption, rs: seq<Runtime>, b: Adoption) {
    && (forall id :: id in a.store ==> id in b.store && b.store[id] == a.store[id])
    && (forall id :: id in b.store && id !in a.store ==>
          exists r :: r in rs && r.id == id && StateOr(r.state) != Destroyed && b.store[id] == AdoptedRow(localId, r))
    && (forall id :: Foreign(a.leases, localId, id) <==> Foreign(b.leases, localId, id))
    && a.known <= b.known && (forall id :: id in b.known && id in a.store ==> id in a.known)
  }

  lemma ExtendsMore(localId: string, a: Adoption, rs: seq<Runtime>, b: Adoption, r: Runtime)
    requires Extends(localId, a, rs, b)
    ensures Extends(localId, a, rs + [r], AdoptOne(localId, b, r))
  {
    AdoptKeeps(localId, a, rs, b, r);
    forall id | id in AdoptOne(localId, b, r).store && id !in a.store
      ensures exists x :: x in rs + [r] && x.id == id && StateOr(x.state) != Destroyed
                          && AdoptOne(localId, b, r).store[id] == AdoptedRow(localId, x)
    {
      NewRowIsListed(localId, a, rs, b, r, id);
    }
  }

  lemma AdoptKeeps(localId: string, a: Adoption, rs: seq<Runtime>, b: Adoption, r: Runtime)
    requires Extends(localId, a, rs, b)
    ensures var d := AdoptOne(localId, b, r);
            && (forall id :: id in a.store ==> id in d.store && d.store[id] == a.store[id])
            && (forall id :: Foreign(a.leases, localId, id) <==> Foreign(d.leases, localId, id))
            && a.known <= d.known && (forall id :: id in d.known && id in a.store ==> id in a.known)
  {
  }

  lemma NewRowIsListed(localId: string, a: Adoption, rs: seq<Runtime>, b: Adoption, r: Runtime, id: string)
    requires Extends(localId, a, rs, b) && id in AdoptOne(localId, b, r).store && id !in a.store
    ensures exists x :: x in rs + [r] && x.id == id && StateOr(x.state) != Destroyed
                        && AdoptOne(localId, b, r).store[id] == AdoptedRow(localId, x)
  {
    assert r in rs + [r];
    if id in b.store {
      var x :| x in rs && x.id == id && StateOr(x.state) != Destroyed && b.store[id] == AdoptedRow(localId, x);
      assert x in rs + [r];
    }
  }

  lemma {:induction false} AdoptExtends(localId: string, a: Adoption, rs: seq<Runtime>)
    ensures Extends(localId, a, rs, AdoptAll(localId, a, rs))
  {
    if rs != [] {
      var front := rs[..|rs| - 1];
      AdoptExtends(localId, a, front);
      ExtendsMore(localId, a, front, AdoptAll(localId, a, front), rs[|rs| - 1]);
      assert rs == front + [rs[|rs| - 1]];
    }
  }

  lemma {:induction false} AdoptWellformed(localId: string, a: Adoption, rs: seq<Runtime>)
    requires Wellformed(a)
    ensures Wellformed(AdoptAll(localId, a, rs))
  {
    if rs != [] {
      AdoptWellformed(localId, a, rs[..|rs| - 1]);
    }
  }

  /** A pass that succeeds leaves every runtime settled; one that fails stops at the first
      blocking runtime, with everything before it settled. */
  lemma {:induction false} PassOutcome(localId: string, a: Adoption, rs: seq<Runtime>) returns (k: nat)
    requires Wellformed(a) && !a.aborted
    ensures var b := AdoptAll(localId, a, rs);
            && k <= |rs| && (b.aborted <==> k < |rs|)
            && (forall i :: 0 <= i < k ==> Settled(localId, b.store, b.leases, rs[i]))
            && (k < |rs| ==> Blocks(localId, b.store, b.leases, rs[k]) && rs[k].id !in b.known)
  {
    k := 0;
    if rs != [] {
      var front, last := rs[..|rs| - 1], rs[|rs| - 1];
      k := PassOutcome(localId, a, front);
      AdoptWellformed(localId, a, front);
      var b := AdoptAll(localId, a, front);
      if !b.aborted && !AdoptOne(localId, b, last).aborted {
        k := |rs|;
      }
    }
  }

  /** A pass over settled runtimes adds no row. */
  lemma {:induction false} SettledPass(localId: string, a: Adoption, rs: seq<Runtime>)
    requires forall r :: r in rs ==> Settled(localId, a.store, a.leases, r)
    ensures var b := AdoptAll(localId, a, rs);
            && b.store == a.store && b.known == a.known && b.cache == a.cache
            && forall id :: Foreign(a.leases, localId, id) <==> Foreign(b.leases, localId, id)
  {
    if rs != [] {
      assert rs[|rs| - 1] in rs;
      SettledPass(localId, a, rs[..|rs| - 1]);
    }
  }

  /** A second pass that knows exactly the live rows changes no row, and fails again where
      the first one failed. */
  lemma SecondPass(localId: string, a: Adoption, rs: seq<Runtime>, k: nat)
    requires k <= |rs| && a.known == Live(a.store)
    requires forall i :: 0 <= i < k ==> Settled(localId, a.store, a.leases, rs[i])
    requires k < |rs| ==> Blocks(localId, a.store, a.leases, rs[k])
    ensures AdoptAll(localId, a, rs).store == a.store
    ensures k < |rs| ==> AdoptAll(localId, a, rs).aborted
  {
    SettledPass(localId, a, rs[..k]);
    if k < |rs| {
      assert rs[..k + 1][..k] == rs[..k];
      AdoptStops(localId, a, rs, k + 1);
    } else {
      assert rs[..k] == rs;
    }
  }

  // ---------- The whole reconciliation ----------

  lemma BeginWellformed(ps: Providers, localId: string, w: World)
    ensures Wellformed(Begin(ps, localId, w))
  {
  }

  lemma RefreshIsStable(ps: Providers, localId: string, id: string, rec: SandboxRecord)
    ensures Refresh(ps, localId, id, Refresh(ps, localId, id, rec)) == Refresh(ps, localId, id, rec)
  {
  }

  lemma AdoptedIsStable(ps: Providers, localId: string, r: Runtime)
    requires Coherent(ps) && r in Inventory(ps.registry) && StateOr(r.state) != Destroyed
    ensures Refresh(ps, localId, r.id, AdoptedRow(localId, r)) == AdoptedRow(localId, r)
  {
  }

  lemma RowRefreshedTwice(ps: Providers, localId: string, w: World, id: string)
    requires Coherent(ps) && id in Reconciled(ps, localId, w).store
    ensures var row := Reconciled(ps, localId, w).store[id]; Refresh(ps, localId, id, row) == row
  {
    var a, rs := Begin(ps, localId, w), Inventory(ps.registry);
    AdoptExtends(localId, a, rs);
    var row := AdoptAll(localId, a, rs).store[id];
    if id in a.store {
      RefreshIsStable(ps, localId, id, w.store[id]);
    } else {
      var r :| r in rs && r.id == id && StateOr(r.state) != Destroyed && row == AdoptedRow(localId, r);
      AdoptedIsStable(ps, localId, r);
    }
  }

  /** Refreshing the reconciled table changes nothing: refreshed rows already have their
      provider's state, adopted rows were listed in it. */
  lemma RefreshedTwice(ps: Providers, localId: string, w: World)
    requires Coherent(ps)
    ensures RefreshAll(ps, localId, Reconciled(ps, localId, w).store) == Reconciled(ps, localId, w).store
  {
    forall id | id in Reconciled(ps, localId, w).store
      ensures Refresh(ps, localId, id, Reconciled(ps, localId, w).store[id]) == Reconciled(ps, localId, w).store[id]
    {
      RowRefreshedTwice(ps, localId, w, id);
    }
  }

  /** Reconciling twice leaves the same rows as reconciling once, whether or not the first
      time succeeded; and if the first time failed, so does the second. */
  lemma ReconcileIsIdempotent(ps: Providers, localId: string, w: World)
    requires Coherent(ps)
    ensures var once := Reconciled(ps, localId, w);
            var twice := Reconciled(ps, localId, World(once.store, once.leases, once.cache, w.runtimes));
            twice.store == once.store && (once.aborted ==> twice.aborted)
  {
    var a, rs := Begin(ps, localId, w), Inventory(ps.registry);
    var once := AdoptAll(localId, a, rs);
    BeginWellformed(ps, localId, w);
    var k := PassOutcome(localId, a, rs);
    RefreshedTwice(ps, localId, w);
    SecondPass(localId, Begin(ps, localId, World(once.store, once.leases, once.cache, w.runtimes)), rs, k);
  }

  /** No destroyed row is ever changed. */
  lemma DestroyedRowsAreKept(ps: Providers, localId: string, w: World, id: string)
    requires id in w.store && w.store[id].state == Destroyed
    ensures var done := Reconciled(ps, localId, w); id in done.store && done.store[id] == w.store[id]
  {
    AdoptExtends(localId, Begin(ps, localId, w), Inventory(ps.registry));
  }

  /** Every cached sandbox is the sandbox of its row. */
  ghost predicate CacheFollows(store: Store, cache: Store) {
    forall id :: id in cache ==> id in store && cache[id] == store[id]
  }

  /** The cached sandboxes that are destroyed. */
  ghost function Ghosts(cache: Store): set<string> { set id | id in cache && cache[id].state == Destroyed }

  lemma {:induction false} AdoptCacheFollows(localId: string, a: Adoption, rs: seq<Runtime>)
    requires CacheFollows(a.store, a.cache)
    ensures var b := AdoptAll(localId, a, rs); CacheFollows(b.store, b.cache) && Ghosts(b.cache) == Ghosts(a.cache)
  {
    if rs != [] {
      var b, r := AdoptAll(localId, a, rs[..|rs| - 1]), rs[|rs| - 1];
      AdoptCacheFollows(localId, a, rs[..|rs| - 1]);
      AdoptOneFollows(localId, b, r);
    }
  }

  lemma AdoptOneFollows(localId: string, b: Adoption, r: Runtime)
    requires CacheFollows(b.store, b.cache)
    ensures var d := AdoptOne(localId, b, r); CacheFollows(d.store, d.cache) && Ghosts(d.cache) == Ghosts(b.cache)
  {
    var d := AdoptOne(localId, b, r);
    if d.cache != b.cache {
      assert d.cache == b.cache[r.id := AdoptedRow(localId, r)] && r.id !in b.cache;
    }
  }

  /** Rows owned by another worker that this worker reports as destroyed. */
  ghost function ReportedDead(ps: Providers, localId: string, store: Store): set<string> {
    set id | id in Live(store) && OwnedElsewhere(store[id], localId) && ps.remote(id) == Seen(Some(Destroyed))
  }

  lemma BeginCache(ps: Providers, localId: string, w: World)
    requires w.cache == map[]
    ensures CacheFollows(Begin(ps, localId, w).store, Begin(ps, localId, w).cache)
    ensures Ghosts(Begin(ps, localId, w).cache) == ReportedDead(ps, localId, w.store)
  {
    var a := Begin(ps, localId, w);
    forall id
      ensures id in a.cache ==> id in a.store && a.cache[id] == a.store[id]
      ensures id in Ghosts(a.cache) <==> id in ReportedDead(ps, localId, w.store)
    {
      BeginEntry(ps, localId, w, id);
    }
  }

  lemma BeginEntry(ps: Providers, localId: string, w: World, id: string)
    requires w.cache == map[]
    ensures var entry := Lookup(Begin(ps, localId, w).cache, id);
            && (entry.Some? ==> id in Live(w.store) && entry.value == Refresh(ps, localId, id, w.store[id]))
            && (entry.Some? && entry.value.state == Destroyed <==> id in ReportedDead(ps, localId, w.store))
  {
    assert Lookup(Begin(ps, localId, w).cache, id) == CachedAfter(ps, localId, w.store, w.cache, id);
  }

  /** After a restart with an empty cache, everything reconciliation caches equals its row,
      adopted runtimes included; and all of it is live except exactly the sandboxes that
      another worker reports as destroyed, whose rows are destroyed and stay cached. */
  lemma RestartCacheFollowsRows(ps: Providers, localId: string, w: World)
    requires w.cache == map[]
    ensures var done := Reconciled(ps, localId, w);
            && CacheFollows(done.store, done.cache)
            && (forall id :: id in done.cache ==>
                  (done.store[id].state == Destroyed <==> id in ReportedDead(ps, localId, w.store)))
  {
    BeginCache(ps, localId, w);
    AdoptCacheFollows(localId, Begin(ps, localId, w), Inventory(ps.registry));
    var done := Reconciled(ps, localId, w);
    forall id | id in done.cache
      ensures done.store[id].state == Destroyed <==> id in ReportedDead(ps, localId, w.store)
    {
      assert id in Ghosts(done.cache) <==> id in ReportedDead(ps, localId, w.store);
    }
  }

  /** Reconciliation fails exactly when some listed live runtime has an id whose row was
      already destroyed and whose lease no other worker holds: such a runtime is not skipped
      as a conflict but ends the pass. */
  lemma ReconcileFailsIff(ps: Providers, localId: string, w: World)
    ensures Reconciled(ps, localId, w).aborted
       <==> exists r :: r in Inventory(ps.registry) && Blocks(localId, w.store, w.leases, r)
  {
    var a, rs := Begin(ps, localId, w), Inventory(ps.registry);
    var b := AdoptAll(localId, a, rs);
    BeginWellformed(ps, localId, w);
    var k := PassOutcome(localId, a, rs);
    if b.aborted {
      AdoptExtends(localId, a, rs);
      assert rs[k] in rs && Blocks(localId, w.store, w.leases, rs[k]);
    } else {
      forall i | 0 <= i < |rs|
        ensures !Blocks(localId, w.store, w.leases, rs[i])
      {
        if Blocks(localId, w.store, w.leases, rs[i]) {
          BlockerStops(ps, localId, w, i);
        }
      }
    }
  }

  lemma BlockerStops(ps: Providers, localId: string, w: World, i: nat)
    requires i < |Inventory(ps.registry)| && Blocks(localId, w.store, w.leases, Inventory(ps.registry)[i])
    ensures Reconciled(ps, localId, w).aborted
  {
    var a, rs := Begin(ps, localId, w), Inventory(ps.registry);
    AdoptExtends(localId, a, rs[..i]);
    var b := AdoptAll(localId, a, rs[..i]);
    assert Foreign(a.leases, localId, rs[i].id) <==> Foreign(b.leases, localId, rs[i].id);
    assert b.aborted || AdoptOne(localId, b, rs[i]).aborted;
    assert rs[..i + 1][..i] == rs[..i] && rs[..i + 1][i] == rs[i];
    AdoptStops(localId, a, rs, i + 1);
  }

  // ---------- The table, the leases and the cache it leaves ----------

  /** What becomes of a live row of ours: its provider's answer decides, whatever else happens
      in the pass. It is destroyed exactly when the provider says that it is gone, and in
      error when there is no provider or its answer cannot be read. */
  lemma LocalRowAfter(ps: Providers, localId: string, w: World, id: string)
    requires id in Live(w.store) && !OwnedElsewhere(w.store[id], localId)
    ensures var done, answer := Reconciled(ps, localId, w), ps.probe(w.store[id].provider, id);
            && id in done.store && done.store[id] == w.store[id].(state := done.store[id].state)
            && (done.store[id].state == Destroyed <==> answer in {Gone, Reported(Some(Destroyed))})
            && (answer in {NoProvider, Failing} ==> done.store[id].state == Error)
            && (answer == Reported(None) ==> done.store[id].state == Running)
            && (answer.Reported? && answer.state.Some? ==> done.store[id].state == answer.state.value)
  {
    AdoptExtends(localId, Begin(ps, localId, w), Inventory(ps.registry));
  }

  /** A live row of another worker takes the state that was read; a draining worker, or one
      that gives no state, leaves it alone; with a lost worker it is expired or unhealthy. */
  lemma RemoteRowAfter(ps: Providers, localId: string, w: World, id: string)
    requires id in Live(w.store) && OwnedElsewhere(w.store[id], localId)
    ensures var done, answer := Reconciled(ps, localId, w), ps.remote(id);
            && id in done.store && done.store[id] == w.store[id].(state := done.store[id].state)
            && (answer in {Unasked, Seen(None)} ==> done.store[id] == w.store[id])
            && (answer == Lost(true) ==> done.store[id].state == Expired)
            && (answer == Lost(false) ==> done.store[id].state == Unhealthy)
            && (answer.Seen? && answer.state.Some? ==> done.store[id].state == answer.state.value)
  {
    AdoptExtends(localId, Begin(ps, localId, w), Inventory(ps.registry));
  }

  /** Some provider lists a runtime with this id; empty state and provider take defaults. */
  ghost predicate Lists(registry: seq<Provider>, id: string, state: SandboxState, provider: string) {
    exists p, r :: ListedBy(registry, p, r, id, state, provider)
  }

  ghost predicate ListedBy(registry: seq<Provider>, p: Provider, r: Runtime, id: string, state: SandboxState, provider: string) {
    && p in registry && p.runtimes.Some? && r in p.runtimes.value && r.id == id
    && state == (if r.state.Some? then r.state.value else Running)
    && provider == if r.provider != "" then r.provider else p.name
  }

  lemma {:induction false} InventoryLists(registry: seq<Provider>, r: Runtime)
    requires r in Inventory(registry)
    ensures r.state.Some? && Lists(registry, r.id, r.state.value, r.provider)
  {
    var front, p := registry[..|registry| - 1], registry[|registry| - 1];
    if r in Inventory(front) {
      InventoryLists(front, r);
      var q, x :| ListedBy(front, q, x, r.id, r.state.value, r.provider);
      assert ListedBy(registry, q, x, r.id, r.state.value, r.provider);
    } else {
      var k :| 0 <= k < |p.runtimes.value| && r == Named(p, p.runtimes.value[k]);
      assert ListedBy(registry, p, p.runtimes.value[k], r.id, r.state.value, r.provider);
    }
  }

  lemma {:induction false} ListedIsInInventory(registry: seq<Provider>, id: string, state: SandboxState, provider: string)
    returns (r: Runtime)
    requires Lists(registry, id, state, provider)
    ensures r in Inventory(registry) && r == Runtime(id, provider, Some(state))
  {
    r := Runtime(id, provider, Some(state));
    var front, p := registry[..|registry| - 1], registry[|registry| - 1];
    var q, x :| ListedBy(registry, q, x, id, state, provider);
    assert registry == front + [p];
    if q == p {
      var k :| 0 <= k < |p.runtimes.value| && p.runtimes.value[k] == x;
      assert NamedAll(p, p.runtimes.value)[k] == r;
    } else {
      assert ListedBy(front, q, x, id, state, provider);
      r := ListedIsInInventory(front, id, state, provider);
    }
  }

  /** A new row is one that some provider lists as living, in that state and with that
      provider, owned by nobody and on this worker. */
  lemma NewRowsAreListed(ps: Providers, localId: string, w: World, id: string)
    requires id in Reconciled(ps, localId, w).store && id !in w.store
    ensures var row := Reconciled(ps, localId, w).store[id];
            && row.state != Destroyed && Lists(ps.registry, id, row.state, row.provider)
            && row == SandboxRecord(row.state, row.provider, "", "", localId)
    ensures !Foreign(w.leases, localId, id)
  {
    var a, rs := Begin(ps, localId, w), Inventory(ps.registry);
    AdoptExtends(localId, a, rs);
    var done := AdoptAll(localId, a, rs);
    var r :| r in rs && r.id == id && StateOr(r.state) != Destroyed && done.store[id] == AdoptedRow(localId, r);
    InventoryLists(ps.registry, r);
    AdoptedNotForeign(localId, a, rs, id);
    assert LeaseOf(a.leases, id) == LeaseOf(w.leases, id);
  }

  lemma {:induction false} AdoptedNotForeign(localId: string, a: Adoption, rs: seq<Runtime>, id: string)
    requires id in AdoptAll(localId, a, rs).store && id !in a.store
    ensures !Foreign(a.leases, localId, id)
  {
    if rs != [] {
      var front, r := rs[..|rs| - 1], rs[|rs| - 1];
      var b := AdoptAll(localId, a, front);
      AdoptExtends(localId, a, front);
      if id in b.store {
        AdoptedNotForeign(localId, a, front, id);
      }
    }
  }

  /** And a pass that succeeds has adopted all of them, but those leased by another worker. */
  lemma AllListedAreAdopted(ps: Providers, localId: string, w: World, id: string, state: SandboxState, provider: string)
    requires !Reconciled(ps, localId, w).aborted && Lists(ps.registry, id, state, provider)
    requires state != Destroyed && !Foreign(w.leases, localId, id)
    ensures id in Reconciled(ps, localId, w).store
  {
    var a, rs := Begin(ps, localId, w), Inventory(ps.registry);
    AdoptExtends(localId, a, rs);
    if id !in w.store {
      var r := ListedIsInInventory(ps.registry, id, state, provider);
      BeginWellformed(ps, localId, w);
      var k := PassOutcome(localId, a, rs);
      var i :| 0 <= i < |rs| && rs[i] == r;
      assert LeaseOf(a.leases, id) == LeaseOf(w.leases, id);
      assert Foreign(a.leases, localId, id) <==> Foreign(AdoptAll(localId, a, rs).leases, localId, id);
    }
  }

  /** A live row that the pass destroys. */
  ghost predicate Buried(ps: Providers, localId: string, w: World, id: string)
    requires id in w.store
  {
    var rec := w.store[id];
    if OwnedElsewhere(rec, localId) then ps.remote(id) == Seen(Some(Destroyed))
    else ps.probe(rec.provider, id) in {Gone, Reported(Some(Destroyed))}
  }

  /** The rows that count afterwards: the live ones that were not buried, and the new ones. */
  lemma LiveAfter(ps: Providers, localId: string, w: World)
    ensures var done := Reconciled(ps, localId, w);
            && w.store.Keys <= done.store.Keys
            && forall id :: id in Live(done.store) <==>
                 if id in w.store then w.store[id].state != Destroyed && !Buried(ps, localId, w, id)
                 else id in done.store
  {
    var done := Reconciled(ps, localId, w);
    AdoptExtends(localId, Begin(ps, localId, w), Inventory(ps.registry));
    forall id
      ensures id in Live(done.store) <==>
                if id in w.store then w.store[id].state != Destroyed && !Buried(ps, localId, w, id) else id in done.store
    {
      if id in w.store {
        LiveRowAfter(ps, localId, w, id);
      } else if id in done.store {
        NewRowsAreListed(ps, localId, w, id);
      }
    }
  }

  lemma LiveRowAfter(ps: Providers, localId: string, w: World, id: string)
    requires id in w.store
    ensures var done := Reconciled(ps, localId, w);
            id in done.store && (done.store[id].state != Destroyed <==>
              w.store[id].state != Destroyed && !Buried(ps, localId, w, id))
  {
    if w.store[id].state == Destroyed {
      DestroyedRowsAreKept(ps, localId, w, id);
    } else if OwnedElsewhere(w.store[id], localId) {
      RemoteRowAfter(ps, localId, w, id);
    } else {
      LocalRowAfter(ps, localId, w, id);
    }
  }

  lemma {:induction false} AdoptLeases(localId: string, a: Adoption, rs: seq<Runtime>, id: string)
    ensures var b := AdoptAll(localId, a, rs);
            && a.known <= b.known
            && (id in a.leases ==> id in b.leases && b.leases[id] == a.leases[id])
            && (id in a.known ==> LeaseOf(b.leases, id) == LeaseOf(a.leases, id))
            && (id in b.leases && id !in a.leases ==> b.leases[id] == localId)
  {
    if rs != [] {
      AdoptLeases(localId, a, rs[..|rs| - 1], id);
    }
  }

  /** Exactly the leases of expired sandboxes on lost workers go, when that worker holds them;
      every other lease stays with its holder, and new ones are ours. */
  lemma LeasesAfter(ps: Providers, localId: string, w: World, id: string)
    ensures var done := Reconciled(ps, localId, w);
            var lost := id in Live(w.store) && OwnedElsewhere(w.store[id], localId) && ps.remote(id) == Lost(true)
                        && id in w.leases && w.leases[id] == w.store[id].workerId;
            && (lost ==> id !in done.leases)
            && (id in w.leases && !lost ==> id in done.leases && done.leases[id] == w.leases[id])
            && (id in done.leases && id !in w.leases ==> done.leases[id] == localId)
  {
    AdoptLeases(localId, Begin(ps, localId, w), Inventory(ps.registry), id);
  }

  lemma {:induction false} AdoptCache(localId: string, a: Adoption, rs: seq<Runtime>, id: string)
    ensures var b := AdoptAll(localId, a, rs);
            (id in b.cache <==> id in a.cache || (id in b.store && id !in a.store))
            && (id in a.store ==> id in b.store)
  {
    if rs != [] {
      AdoptCache(localId, a, rs[..|rs| - 1], id);
    }
  }

  /** After a restart the cache holds exactly the rows of ours that were reported and not as
      destroyed, the rows of workers that answered or are lost, and the adopted ones. */
  lemma RestartCacheIs(ps: Providers, localId: string, w: World, id: string)
    requires w.cache == map[]
    ensures var done := Reconciled(ps, localId, w);
            id in done.cache <==> (id in done.store && id !in w.store) || Answered(ps, localId, w.store, id)
  {
    AnsweredIsCached(ps, localId, w, id);
    AdoptCache(localId, Begin(ps, localId, w), Inventory(ps.registry), id);
  }

  ghost predicate Answered(ps: Providers, localId: string, store: Store, id: string) {
    id in Live(store) &&
    if OwnedElsewhere(store[id], localId) then ps.remote(id) != Unasked
    else var answer := ps.probe(store[id].provider, id); answer.Reported? && answer != Reported(Some(Destroyed))
  }

  lemma AnsweredIsCached(ps: Providers, localId: string, w: World, id: string)
    requires w.cache == map[]
    ensures id in Begin(ps, localId, w).cache <==> Answered(ps, localId, w.store, id)
  {
    assert Lookup(Begin(ps, localId, w).cache, id) == CachedAfter(ps, localId, w.store, w.cache, id);
  }

  /** Where a live row and a running local runtime of its id agree, one provider error is
      enough: Destroy ignores that the provider could not destroy the runtime, marks the row
      and gives up the lease, and the next start-up reconciliation fails on that runtime. */
  lemma SwallowedDestroyErrorFailsReconcile(ps: Providers, localId: string, w: World, id: string, r: Runtime)
    requires Agrees(w, localId) && id in Live(w.store) && !OwnedElsewhere(w.store[id], localId)
    requires r in Inventory(ps.registry) && r.id == id && StateOr(r.state) != Destroyed
    ensures Reconciled(ps, localId, DestroyEffect(w, localId, id, DestroyLuck(false, true))).aborted
  {
    var luck := DestroyLuck(false, true);
    var w' := DestroyEffect(w, localId, id, luck);
    DestroyKeepsAgreementIff(w, localId, id, luck);
    assert Blocks(localId, w'.store, w'.leases, r);
    ReconcileFailsIff(ps, localId, w');
  }
}
