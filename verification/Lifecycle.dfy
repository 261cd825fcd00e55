/** The manager's own state, one operation at a time, with one runtime per sandbox: local
    Spawn with its rollback, Destroy of local and remote sandboxes, and the startup
    reconciliation of all rows. */
module Lifecycle {
  import opened Text
  import opened Records

  /** The manager's state and the runtimes that are alive. */
  datatype World = World(store: Store, leases: map<string, string>, cache: Store, runtimes: set<string>)

  /** The worker that holds the lease of a sandbox. */
  function HolderOf(rec: SandboxRecord, localId: string): string {
    if OwnedElsewhere(rec, localId) then rec.workerId else localId
  }

  /** Live rows, leases and cache entries are the same ids, and row, lease and cache entry name
      the same worker. */
  ghost predicate Agrees(w: World, localId: string) {
    && w.cache.Keys == Live(w.store) == w.leases.Keys
    && forall id :: id in w.leases ==>
         w.leases[id] == HolderOf(w.store[id], localId) == HolderOf(w.cache[id], localId)
  }

  /** Which of Spawn's outside calls succeed: provider spawn, lease, row; and, when undoing,
      provider destroy and lease release. */
  datatype SpawnLuck = SpawnLuck(boots: bool, leases: bool, inserts: bool, kills: bool, releases: bool)

  /** `AcquireLease` goes through unless another holder has the lease. */
  predicate Leasable(w: World, localId: string, id: string) { id !in w.leases || w.leases[id] == localId }

  predicate SpawnSucceeds(w: World, localId: string, id: string, luck: SpawnLuck) {
    luck.boots && luck.leases && Leasable(w, localId, id) && luck.inserts && id !in w.store
  }

  /** Spawn after admission, with the rollbacks of its failures. */
  function SpawnEffect(w: World, localId: string, id: string, row: SandboxRecord, luck: SpawnLuck): World {
    if !luck.boots then w
    else
      var booted := w.(runtimes := w.runtimes + {id});
      var undone := if luck.kills then booted.(runtimes := booted.runtimes - {id}) else booted;
      if !luck.leases || !Leasable(w, localId, id) then undone
      else if !luck.inserts || id in w.store then
        undone.(leases := if luck.releases then w.leases - {id} else w.leases[id := localId])
      else booted.(store := w.store[id := row], leases := w.leases[id := localId], cache := w.cache[id := row])
  }

  /** What a Spawn leaves: nothing changes when the provider did not boot; otherwise a failure
      keeps the runtime exactly if it could not be destroyed again, and the lease exactly if it
      had been taken and could not be given back; a success is recorded everywhere. */
  lemma SpawnLeaves(w: World, localId: string, id: string, row: SandboxRecord, luck: SpawnLuck)
    ensures var w' := SpawnEffect(w, localId, id, row, luck);
            && (!luck.boots ==> w' == w)
            && (SpawnSucceeds(w, localId, id, luck) ==>
                  w' == World(w.store[id := row], w.leases[id := localId], w.cache[id := row], w.runtimes + {id}))
            && (luck.boots && !SpawnSucceeds(w, localId, id, luck) ==>
                  && w'.store == w.store && w'.cache == w.cache
                  && w'.runtimes == (if luck.kills then w.runtimes - {id} else w.runtimes + {id})
                  && w'.leases == if !luck.leases || (id in w.leases && w.leases[id] != localId) then w.leases
                                  else if luck.releases then w.leases - {id} else w.leases[id := localId])
    ensures SpawnSucceeds(w, localId, id, luck) <==>
              luck.boots && luck.leases && luck.inserts && id !in w.store && (id !in w.leases || w.leases[id] == localId)
  {
    assert w.runtimes + {id} - {id} == w.runtimes - {id};
  }

  /** A failed Spawn whose rollback goes through leaves everything as it was if and only if
      the provider's new id was no running runtime and, when its lease was taken, no lease
      of ours. A lease that somebody else holds is left to them. */
  lemma RollbackRestoresIff(w: World, localId: string, id: string, row: SandboxRecord, luck: SpawnLuck)
    requires luck.boots && luck.kills && luck.releases && !SpawnSucceeds(w, localId, id, luck)
    ensures SpawnEffect(w, localId, id, row, luck) == w
       <==> id !in w.runtimes && (luck.leases && Leasable(w, localId, id) ==> id !in w.leases)
  {
    var w' := SpawnEffect(w, localId, id, row, luck);
    if id !in w.runtimes {
      assert w.runtimes + {id} - {id} == w.runtimes;
      if id !in w.leases {
        assert w.leases - {id} == w.leases;
      }
    } else {
      assert id !in w'.runtimes;
    }
  }

  /** A successful Spawn adds exactly its id to table, leases, cache and runtimes. */
  lemma SpawnKeepsAgreement(w: World, localId: string, id: string, row: SandboxRecord, luck: SpawnLuck)
    requires Agrees(w, localId) && SpawnSucceeds(w, localId, id, luck)
    requires row.state == Running && row.workerId == localId
    ensures var w' := SpawnEffect(w, localId, id, row, luck);
            && Agrees(w', localId) && Live(w'.store) == Live(w.store) + {id} && w'.runtimes == w.runtimes + {id}
            && forall x :: x in w.store ==> x in w'.store && w'.store[x] == w.store[x]
  {
    assert Live(w.store[id := row]) == Live(w.store) + {id};
  }

  /** What Destroy knows about `id`: the cache entry, else the row, destroyed ones included. */
  function Known(w: World, id: string): Option<SandboxRecord> {
    if id in w.cache then Some(w.cache[id]) else if id in w.store then Some(w.store[id]) else None
  }

  /** Which of Destroy's outside calls succeed: the destroy of the sandbox's provider, or of its
      worker, and the update of its row. */
  datatype DestroyLuck = DestroyLuck(kills: bool, marks: bool)

  /** Destroy fails for a local sandbox when somebody else has its lease, and for another
      worker's when that worker does not destroy it or does not hold the lease, or the row is
      missing or cannot be updated. */
  predicate DestroyFails(w: World, localId: string, id: string, luck: DestroyLuck) {
    match Known(w, id)
    case None => false
    case Some(sb) =>
      if OwnedElsewhere(sb, localId)
      then !luck.kills || id !in w.leases || w.leases[id] != sb.workerId || id !in w.store || !luck.marks
      else id in w.leases && w.leases[id] != localId
  }

  function Unleased(leases: map<string, string>, id: string, holder: string): map<string, string> {
    if id in leases && leases[id] == holder then leases - {id} else leases
  }

  /** For a local sandbox both errors are ignored. The provider is asked about known sandboxes
      only. */
  function DestroyEffect(w: World, localId: string, id: string, luck: DestroyLuck): World {
    if DestroyFails(w, localId, id, luck) then w
    else
      var sb := Known(w, id);
      World(
        if luck.marks then MarkDestroyed(w.store, id) else w.store,
        Unleased(w.leases, id, if sb.Some? then HolderOf(sb.value, localId) else localId),
        w.cache - {id},
        if sb.Some? && luck.kills && !OwnedElsewhere(sb.value, localId) then w.runtimes - {id} else w.runtimes)
  }

  /** What a Destroy of a known sandbox leaves, from the record in the cache, or else in the
      table, and who has the lease: nothing changes when it fails; otherwise lease and cache
      entry are gone, the row is marked unless the update was lost, and the runtime is gone if it
      was ours to destroy and the provider did. */
  lemma DestroyLeaves(w: World, localId: string, id: string, luck: DestroyLuck)
    requires id in w.cache || id in w.store
    ensures var w' := DestroyEffect(w, localId, id, luck);
            var rec := if id in w.cache then w.cache[id] else w.store[id];
            var remote := TrimSpace(rec.workerId) != "" && rec.workerId != localId;
            var through := if remote then luck.kills && luck.marks && id in w.store
                                          && id in w.leases && w.leases[id] == rec.workerId
                           else id !in w.leases || w.leases[id] == localId;
            && (DestroyFails(w, localId, id, luck) <==> !through)
            && (!through ==> w' == w)
            && (through ==>
                  && w'.leases == w.leases - {id} && w'.cache == w.cache - {id}
                  && w'.runtimes == (if !remote && luck.kills then w.runtimes - {id} else w.runtimes)
                  && w'.store == if luck.marks && id in w.store then w.store[id := w.store[id].(state := Destroyed)]
                                 else w.store)
  {
  }

  /** A Destroy of an unknown id succeeds and at most removes a lease of ours. */
  lemma UnknownDestroyLeaves(w: World, localId: string, id: string, luck: DestroyLuck)
    requires id !in w.cache && id !in w.store
    ensures !DestroyFails(w, localId, id, luck)
    ensures DestroyEffect(w, localId, id, luck)
         == w.(leases := if id in w.leases && w.leases[id] == localId then w.leases - {id} else w.leases)
  {
    assert w.cache - {id} == w.cache;
  }

  /** From agreeing views Destroy fails only for a sandbox of another worker, when that worker
      or the row's update fails or the row is destroyed already. */
  lemma DestroyFailsIff(w: World, localId: string, id: string, luck: DestroyLuck)
    requires Agrees(w, localId)
    ensures DestroyFails(w, localId, id, luck)
       <==> id in w.store && OwnedElsewhere(w.store[id], localId) && (id !in Live(w.store) || !luck.kills || !luck.marks)
  {
  }

  /** A Destroy that goes through takes exactly this id out of leases and cache, and out of the
      table when the row was updated. */
  lemma DestroyTakesOne(w: World, localId: string, id: string, luck: DestroyLuck)
    requires Agrees(w, localId) && !DestroyFails(w, localId, id, luck)
    ensures var w' := DestroyEffect(w, localId, id, luck);
            && w'.leases == w.leases - {id} && w'.cache == w.cache - {id}
            && w'.store == if luck.marks then MarkDestroyed(w.store, id) else w.store
  {
  }

  /** The views still agree afterwards if and only if Destroy failed, the row was updated, or
      there was no live row. */
  lemma DestroyKeepsAgreementIff(w: World, localId: string, id: string, luck: DestroyLuck)
    requires Agrees(w, localId)
    ensures Agrees(DestroyEffect(w, localId, id, luck), localId)
       <==> DestroyFails(w, localId, id, luck) || luck.marks || id !in Live(w.store)
  {
    var w' := DestroyEffect(w, localId, id, luck);
    if !DestroyFails(w, localId, id, luck) {
      DestroyTakesOne(w, localId, id, luck);
      TakenApart(w, w', localId, id, luck.marks);
    }
  }

  lemma TakenApart(w: World, w': World, localId: string, id: string, marks: bool)
    requires Agrees(w, localId) && w'.leases == w.leases - {id} && w'.cache == w.cache - {id}
    requires w'.store == if marks then MarkDestroyed(w.store, id) else w.store
    ensures Agrees(w', localId) <==> marks || id !in Live(w.store)
    ensures Live(w'.store) == if marks then Live(w.store) - {id} else Live(w.store)
  {
    assert id !in w'.leases.Keys;
    assert Live(w'.store) == if marks then Live(w.store) - {id} else Live(w.store);
  }

  /** The cache takes for another worker's what the row says is ours. */
  predicate Disowned(w: World, localId: string, id: string) {
    id in w.cache && OwnedElsewhere(w.cache[id], localId) && id in w.store && !OwnedElsewhere(w.store[id], localId)
  }

  /** Destroying twice is destroying once, in every state, agreeing or not, unless the first
      call went to another worker although the row is ours and a runtime of that id is running
      here: the second call then destroys it. */
  lemma DestroyIsIdempotentIff(w: World, localId: string, id: string, luck: DestroyLuck)
    ensures DestroyEffect(DestroyEffect(w, localId, id, luck), localId, id, luck)
         == DestroyEffect(w, localId, id, luck)
       <==> !(Disowned(w, localId, id) && !DestroyFails(w, localId, id, luck) && id in w.runtimes)
  {
    var w' := DestroyEffect(w, localId, id, luck);
    var w'' := DestroyEffect(w', localId, id, luck);
    if !DestroyFails(w, localId, id, luck) {
      assert w''.store == w'.store && w''.leases == w'.leases && w''.cache == w'.cache;
      assert id in w.runtimes && w'.runtimes == w.runtimes && w''.runtimes == w.runtimes - {id} ==> w'' != w';
    }
  }

  /** After a success the second call reports an error exactly when the row is another
      worker's, whose lease is gone by then. */
  lemma SecondDestroyFailsIffRemote(w: World, localId: string, id: string, luck: DestroyLuck)
    requires !DestroyFails(w, localId, id, luck)
    ensures DestroyFails(DestroyEffect(w, localId, id, luck), localId, id, luck)
       <==> id in w.store && OwnedElsewhere(w.store[id], localId)
  {
  }

  // ---------- What an unchanging provider world looks like to reconciliation ----------

  /** The answer to a status query; a status without a state means running. */
  datatype Probe = NoProvider | Gone | Failing | Reported(state: Option<SandboxState>)

  /** A running runtime as a provider lists it; empty provider or state take defaults. */
  datatype Runtime = Runtime(id: string, provider: string, state: Option<SandboxState>)

  /** A provider and its inventory, None when it cannot list or listing fails. */
  datatype Provider = Provider(name: string, runtimes: Option<seq<Runtime>>)

  /** What becomes of a row owned by another worker: its status was read; the worker drains
      and could not be asked; or the worker is gone, with the sandbox expired or not. */
  datatype RemoteAnswer = Seen(state: Option<SandboxState>) | Unasked | Lost(expired: bool)

  datatype Providers = Providers(
    probe: (string, string) -> Probe, registry: seq<Provider>, remote: string -> RemoteAnswer)

  function StateOr(s: Option<SandboxState>): SandboxState {
    match s case None => Running case Some(x) => x
  }

  /** The state a row ends up in. */
  function Judged(ps: Providers, localId: string, id: string, rec: SandboxRecord): SandboxState {
    if OwnedElsewhere(rec, localId) then
      match ps.remote(id)
      case Seen(Some(s)) => s
      case Lost(expired) => if expired then Expired else Unhealthy
      case _ => rec.state
    else
      match ps.probe(rec.provider, id)
      case NoProvider => Error
      case Gone => Destroyed
      case Failing => Error
      case Reported(s) => StateOr(s)
  }

  function Refresh(ps: Providers, localId: string, id: string, rec: SandboxRecord): SandboxRecord {
    if rec.state == Destroyed then rec else rec.(state := Judged(ps, localId, id, rec))
  }

  ghost function RefreshAll(ps: Providers, localId: string, store: Store): Store {
    map id | id in store :: Refresh(ps, localId, id, store[id])
  }

  /** The lease of an expired sandbox on a lost worker is released for that worker. */
  predicate LosesLease(ps: Providers, localId: string, id: string, rec: SandboxRecord, leases: map<string, string>) {
    && rec.state != Destroyed && OwnedElsewhere(rec, localId) && ps.remote(id) == Lost(true)
    && id in leases && leases[id] == rec.workerId
  }

  ghost function RefreshLeases(ps: Providers, localId: string, store: Store, leases: map<string, string>): map<string, string> {
    map id | id in leases && !(id in store && LosesLease(ps, localId, id, store[id], leases)) :: leases[id]
  }

  /** Runtime records in the order they are visited, with defaults filled in. */
  function Named(p: Provider, r: Runtime): Runtime {
    Runtime(r.id, if r.provider == "" then p.name else r.provider, Some(StateOr(r.state)))
  }

  function NamedAll(p: Provider, rs: seq<Runtime>): (out: seq<Runtime>)
    ensures |out| == |rs| && forall i :: 0 <= i < |rs| ==> out[i] == Named(p, rs[i])
  {
    seq(|rs|, i requires 0 <= i < |rs| => Named(p, rs[i]))
  }

  function Inventory(registry: seq<Provider>): seq<Runtime> {
    if registry == [] then []
    else
      var p := registry[|registry| - 1];
      Inventory(registry[..|registry| - 1]) + if p.runtimes.Some? then NamedAll(p, p.runtimes.value) else []
  }

  /** The state of the adoption pass; `aborted` once it has returned an error. */
  datatype Adoption = Adoption(store: Store, leases: map<string, string>, cache: Store, known: set<string>, aborted: bool)

  function AdoptedRow(localId: string, r: Runtime): SandboxRecord {
    SandboxRecord(StateOr(r.state), r.provider, "", "", localId)
  }

  /** One runtime: skipped when known, destroyed or leased elsewhere; otherwise leased and
      inserted. An id that has a (destroyed) row already makes the insert fail, which ends
      the whole pass: the store reports the duplicate as a plain error. */
  function AdoptOne(localId: string, a: Adoption, r: Runtime): Adoption {
    if a.aborted || r.id in a.known || StateOr(r.state) == Destroyed then a
    else if r.id in a.leases && a.leases[r.id] != localId then a
    else
      var leased := a.(leases := a.leases[r.id := localId]);
      if r.id in a.store then leased.(aborted := true)
      else
        var row := AdoptedRow(localId, r);
        leased.(store := a.store[r.id := row], cache := a.cache[r.id := row], known := a.known + {r.id})
  }

  function AdoptAll(localId: string, a: Adoption, rs: seq<Runtime>): Adoption {
    if rs == [] then a else AdoptOne(localId, AdoptAll(localId, a, rs[..|rs| - 1]), rs[|rs| - 1])
  }

  // ---------- The manager ----------

  class Manager {
    const localId: string
    var store: Store
    var leases: map<string, string>
    var cache: Store
    var runtimes: set<string>

    ghost function Now(): World
      reads this
    {
      World(store, leases, cache, runtimes)
    }

    constructor (localId: string)
      ensures this.localId == localId && Now() == World(map[], map[], map[], {}) && Agrees(Now(), localId)
    {
      this.localId := localId;
      store, leases, cache, runtimes := map[], map[], map[], {};
      new;
      assert Live(store) == {};
    }

    /** `AcquireLease`. */
    method AcquireLease(id: string) returns (ok: bool)
      modifies this`leases
      ensures ok == (id !in old(leases) || old(leases)[id] == localId)
      ensures leases == if ok then old(leases)[id := localId] else old(leases)
    {
      ok := id !in leases || leases[id] == localId;
      if ok {
        leases := leases[id := localId];
      }
    }

    /** `ReleaseLease`. */
    method ReleaseLease(id: string, holder: string)
      modifies this`leases
      ensures leases == Unleased(old(leases), id, holder)
    {
      if id in leases && leases[id] == holder {
        leases := leases - {id};
      }
    }

    method Spawn(id: string, provider: string, owner: string, luck: SpawnLuck) returns (ok: bool)
      modifies this
      ensures ok == SpawnSucceeds(old(Now()), localId, id, luck)
      ensures Now() == SpawnEffect(old(Now()), localId, id, SandboxRecord(Running, provider, owner, "", localId), luck)
      ensures ok ==> id in store && store[id].state == Running && store[id].vmId == ""
                     && store[id].owner == owner && store[id].provider == provider && store[id].workerId == localId
      ensures !ok ==> store == old(store) && cache == old(cache)
    {
      var row := SandboxRecord(Running, provider, owner, "", localId);
      if !luck.boots {
        return false;
      }
      runtimes := runtimes + {id};
      var leased := false;
      if luck.leases {
        leased := AcquireLease(id);
      }
      if !leased {
        if luck.kills {
          runtimes := runtimes - {id};
        }
        return false;
      }
      if !luck.inserts || id in store {
        if luck.kills {
          runtimes := runtimes - {id};
        }
        if luck.releases {
          ReleaseLease(id, localId);
          assert leases == old(leases) - {id};
        }
        return false;
      }
      store := store[id := row];
      cache := cache[id := row];
      return true;
    }

    /** A sandbox of another worker: the worker does it, for the lease it holds. */
    method DestroyRemote(id: string, worker: string, luck: DestroyLuck) returns (ok: bool)
      modifies this
      ensures ok == (luck.kills && id in old(leases) && old(leases)[id] == worker && id in old(store) && luck.marks)
      ensures Now() ==
                if ok then World(MarkDestroyed(old(store), id), old(leases) - {id}, old(cache) - {id}, old(runtimes))
                else old(Now())
    {
      if !luck.kills || id !in leases || leases[id] != worker {
        return false;
      }
      if id !in store || !luck.marks {
        return false;
      }
      store := MarkDestroyed(store, id);
      ReleaseLease(id, worker);
      cache := cache - {id};
      return true;
    }

    method Destroy(id: string, luck: DestroyLuck) returns (ok: bool)
      modifies this
      ensures ok == !DestroyFails(old(Now()), localId, id, luck)
      ensures Now() == DestroyEffect(old(Now()), localId, id, luck)
    {
      var sb := Lookup(cache, id);
      if sb.None? {
        sb := Lookup(store, id);
      }
      if sb.Some? {
        if OwnedElsewhere(sb.value, localId) {
          ok := DestroyRemote(id, sb.value.workerId, luck);
          return;
        }
        var leased := AcquireLease(id);
        if !leased {
          return false;
        }
        if luck.kills {
          runtimes := runtimes - {id};
        }
      }
      if luck.marks {
        store := MarkDestroyed(store, id);
      }
      ReleaseLease(id, localId);
      cache := cache - {id};
      return true;
    }

    /** A row owned by another worker. */
    method RefreshRemote(ps: Providers, id: string)
      requires id in Live(store) && OwnedElsewhere(store[id], localId)
      modifies this`store, this`leases, this`cache
      ensures store == old(store)[id := Refresh(ps, localId, id, old(store)[id])]
      ensures leases == if LosesLease(ps, localId, id, old(store)[id], old(leases)) then old(leases) - {id} else old(leases)
      ensures forall x :: Lookup(cache, x) ==
                if x == id then CachedAfter(ps, localId, old(store), old(cache), id) else Lookup(old(cache), x)
    {
      var rec := store[id];
      match ps.remote(id) {
        case Seen(s) =>
          if s.Some? && s.value != rec.state {
            store := store[id := rec.(state := s.value)];
          }
          cache := cache[id := store[id]];
        case Unasked =>
        case Lost(expired) =>
          var state := Unhealthy;
          if expired {
            state := Expired;
            ReleaseLease(id, rec.workerId);
          }
          store := store[id := rec.(state := state)];
          cache := cache[id := rec.(state := state)];
      }
    }

    /** Updating one listed row from its provider's status. */
    method RefreshRow(ps: Providers, id: string)
      requires id in Live(store)
      modifies this`store, this`leases, this`cache
      ensures store == old(store)[id := Refresh(ps, localId, id, old(store)[id])]
      ensures leases == if LosesLease(ps, localId, id, old(store)[id], old(leases)) then old(leases) - {id} else old(leases)
      ensures forall x :: Lookup(cache, x) ==
                if x == id then CachedAfter(ps, localId, old(store), old(cache), id) else Lookup(old(cache), x)
    {
      var rec := store[id];
      if OwnedElsewhere(rec, localId) {
        RefreshRemote(ps, id);
        return;
      }
      match ps.probe(rec.provider, id) {
        case NoProvider => store := store[id := rec.(state := Error)];
        case Gone =>
          store := store[id := rec.(state := Destroyed)];
          cache := cache - {id};
        case Failing => store := store[id := rec.(state := Error)];
        case Reported(s) =>
          var state := StateOr(s);
          store := store[id := rec.(state := state)];
          if state != Destroyed {
            cache := cache[id := rec.(state := state)];
          }
      }
    }

    /** Updating every listed row. */
    method RefreshRows(ps: Providers, listing: seq<string>)
      requires IsListing(listing, store)
      modifies this`store, this`leases, this`cache
      ensures store == RefreshAll(ps, localId, old(store))
      ensures leases == RefreshLeases(ps, localId, old(store), old(leases))
      ensures cache == RefreshCache(ps, localId, old(store), old(cache))
    {
      ghost var w := Now();
      for k := 0 to |listing|
        invariant RefreshedSo(ps, localId, w, Now(), listing[..k])
      {
        var id := listing[k];
        ghost var before := Now();
        assert id in Live(w.store) && id !in listing[..k];
        assert listing[..k + 1] == listing[..k] + [id];
        assert RefreshedAt(ps, localId, w, before, false, id);
        RefreshRow(ps, id);
        RefreshedMore(ps, localId, w, before, Now(), listing[..k], id);
      }
      assert listing[..|listing|] == listing;
      RefreshedAll(ps, localId, w, Now(), listing);
    }

    /** One runtime of the adoption pass. */
    method Adopt(r: Runtime, known: set<string>) returns (ok: bool, known': set<string>)
      requires r.state.Some?
      modifies this`store, this`leases, this`cache
      ensures Adoption(store, leases, cache, known', !ok)
           == AdoptOne(localId, Adoption(old(store), old(leases), old(cache), known, false), r)
    {
      ok, known' := true, known;
      if r.id in known || r.state.value == Destroyed {
        return;
      }
      var leased := AcquireLease(r.id);
      if !leased {
        return;
      }
      if r.id in store {
        ok := false;
        return;
      }
      var row := AdoptedRow(localId, r);
      store := store[r.id := row];
      cache := cache[r.id := row];
      known' := known + {r.id};
    }

    /** One provider's inventory, up to the first failure. */
    method AdoptFrom(rs: seq<Runtime>, listed: set<string>) returns (ok: bool, known: set<string>)
      requires forall r :: r in rs ==> r.state.Some?
      modifies this`store, this`leases, this`cache
      ensures Adoption(store, leases, cache, known, !ok)
           == AdoptAll(localId, Adoption(old(store), old(leases), old(cache), listed, false), rs)
    {
      ghost var start := Adoption(store, leases, cache, listed, false);
      ok, known := true, listed;
      for j := 0 to |rs|
        invariant ok && Adoption(store, leases, cache, known, false) == AdoptAll(localId, start, rs[..j])
      {
        assert rs[..j + 1][..j] == rs[..j];
        ok, known := Adopt(rs[j], known);
        if !ok {
          AdoptStops(localId, start, rs, j + 1);
          return;
        }
      }
      assert rs[..|rs|] == rs;
    }

    /** Adopting listed runtimes that have no row. */
    method AdoptRuntimes(registry: seq<Provider>, listed: set<string>) returns (ok: bool, known: set<string>)
      modifies this`store, this`leases, this`cache
      ensures Adoption(store, leases, cache, known, !ok)
           == AdoptAll(localId, Adoption(old(store), old(leases), old(cache), listed, false), Inventory(registry))
    {
      ghost var start := Adoption(store, leases, cache, listed, false);
      ok, known := true, listed;
      for i := 0 to |registry|
        invariant ok && Adoption(store, leases, cache, known, false) == AdoptAll(localId, start, Inventory(registry[..i]))
      {
        var p := registry[i];
        InventoryMore(registry, i);
        if p.runtimes.Some? {
          var rs := NamedAll(p, p.runtimes.value);
          AdoptConcat(localId, start, Inventory(registry[..i]), rs);
          ok, known := AdoptFrom(rs, known);
          if !ok {
            AdoptionStops(localId, start, registry, i);
            return;
          }
        }
      }
      assert registry[..|registry|] == registry;
    }

    /** Startup reconciliation. `listing` is the table as listed, in any order. It fails when
        the adoption pass does. */
    method Reconcile(ps: Providers, listing: seq<string>) returns (ok: bool)
      requires IsListing(listing, store)
      modifies this
      ensures var done := Reconciled(ps, localId, old(Now()));
              Now() == World(done.store, done.leases, done.cache, old(runtimes)) && ok == !done.aborted
    {
      var known := set id | id in listing;
      assert known == Live(store);
      RefreshRows(ps, listing);
      ok, known := AdoptRuntimes(ps.registry, known);
    }
  }

  // ---------- Reconciliation as a function ----------

  function Lookup(m: Store, id: string): Option<SandboxRecord> {
    if id in m then Some(m[id]) else None
  }

  function LeaseOf(leases: map<string, string>, id: string): Option<string> {
    if id in leases then Some(leases[id]) else None
  }

  /** The cache entry a refresh leaves: reported sandboxes enter, gone ones leave. */
  ghost function CachedAfter(ps: Providers, localId: string, store: Store, cache: Store, id: string): Option<SandboxRecord> {
    if id !in Live(store) then Lookup(cache, id)
    else if OwnedElsewhere(store[id], localId) then
      if ps.remote(id).Unasked? then Lookup(cache, id) else Some(Refresh(ps, localId, id, store[id]))
    else match ps.probe(store[id].provider, id)
      case Reported(s) => if StateOr(s) != Destroyed then Some(Refresh(ps, localId, id, store[id])) else Lookup(cache, id)
      case Gone => None
      case _ => Lookup(cache, id)
  }

  ghost function RefreshCache(ps: Providers, localId: string, store: Store, cache: Store): Store {
    map id | id in store.Keys + cache.Keys && CachedAfter(ps, localId, store, cache, id).Some? ::
      CachedAfter(ps, localId, store, cache, id).value
  }

  lemma SameLeases(a: map<string, string>, b: map<string, string>)
    requires forall id :: LeaseOf(a, id) == LeaseOf(b, id)
    ensures a == b
  {
    forall id
      ensures id in a <==> id in b
      ensures id in a ==> a[id] == b[id]
    {
      assert LeaseOf(a, id) == LeaseOf(b, id);
    }
  }

  lemma SameTable(a: Store, b: Store)
    requires forall id :: Lookup(a, id) == Lookup(b, id)
    ensures a == b
  {
    forall id
      ensures id in a <==> id in b
      ensures id in a ==> a[id] == b[id]
    {
      assert Lookup(a, id) == Lookup(b, id);
    }
  }

  /** The rows, leases and cache entries of w when the rows in `done` have been refreshed. */
  ghost predicate RefreshedSo(ps: Providers, localId: string, w: World, now: World, done: seq<string>) {
    && now.store.Keys == w.store.Keys
    && forall id :: RefreshedAt(ps, localId, w, now, id in done, id)
  }

  ghost predicate RefreshedAt(ps: Providers, localId: string, w: World, now: World, done: bool, id: string) {
    && Lookup(now.store, id) == (if done && id in w.store then Some(Refresh(ps, localId, id, w.store[id]))
                                 else Lookup(w.store, id))
    && LeaseOf(now.leases, id) == (if done && id in w.store && LosesLease(ps, localId, id, w.store[id], w.leases) then None
                                   else LeaseOf(w.leases, id))
    && Lookup(now.cache, id) == if done then CachedAfter(ps, localId, w.store, w.cache, id) else Lookup(w.cache, id)
  }

  /** One row refreshed: the id's row, lease and cache entry follow, every other id's stay. */
  ghost predicate RefreshesOne(ps: Providers, localId: string, now: World, next: World, id: string)
    requires id in now.store
  {
    && next.store == now.store[id := Refresh(ps, localId, id, now.store[id])]
    && next.leases == (if LosesLease(ps, localId, id, now.store[id], now.leases) then now.leases - {id} else now.leases)
    && forall x :: Lookup(next.cache, x) ==
         if x == id then CachedAfter(ps, localId, now.store, now.cache, id) else Lookup(now.cache, x)
  }

  lemma OthersRefreshed(ps: Providers, localId: string, w: World, now: World, next: World, done: bool, id: string, x: string)
    requires id in now.store && RefreshesOne(ps, localId, now, next, id) && x != id
    requires RefreshedAt(ps, localId, w, now, done, x)
    ensures RefreshedAt(ps, localId, w, next, done, x)
  {
  }

  lemma OneRefreshed(ps: Providers, localId: string, w: World, now: World, next: World, id: string)
    requires id in Live(w.store) && id in now.store && RefreshesOne(ps, localId, now, next, id)
    requires RefreshedAt(ps, localId, w, now, false, id)
    ensures RefreshedAt(ps, localId, w, next, true, id)
  {
    assert now.store[id] == w.store[id];
  }

  lemma RefreshedMore(ps: Providers, localId: string, w: World, now: World, next: World, done: seq<string>, id: string)
    requires RefreshedSo(ps, localId, w, now, done) && id in Live(w.store) && id !in done
    requires RefreshesOne(ps, localId, now, next, id)
    ensures RefreshedSo(ps, localId, w, next, done + [id])
  {
    forall x ensures RefreshedAt(ps, localId, w, next, x in done + [id], x) {
      assert RefreshedAt(ps, localId, w, now, x in done, x);
      if x == id {
        OneRefreshed(ps, localId, w, now, next, id);
      } else {
        OthersRefreshed(ps, localId, w, now, next, x in done, id, x);
      }
    }
  }

  lemma RefreshedAll(ps: Providers, localId: string, w: World, now: World, listing: seq<string>)
    requires IsListing(listing, w.store) && RefreshedSo(ps, localId, w, now, listing)
    ensures now.store == RefreshAll(ps, localId, w.store)
    ensures now.leases == RefreshLeases(ps, localId, w.store, w.leases)
    ensures now.cache == RefreshCache(ps, localId, w.store, w.cache)
  {
    forall id
      ensures Lookup(now.store, id) == Lookup(RefreshAll(ps, localId, w.store), id)
      ensures LeaseOf(now.leases, id) == LeaseOf(RefreshLeases(ps, localId, w.store, w.leases), id)
      ensures Lookup(now.cache, id) == Lookup(RefreshCache(ps, localId, w.store, w.cache), id)
    {
      assert RefreshedAt(ps, localId, w, now, id in listing, id);
      assert id in listing <==> id in Live(w.store);
    }
    SameTable(now.store, RefreshAll(ps, localId, w.store));
    SameLeases(now.leases, RefreshLeases(ps, localId, w.store, w.leases));
    SameTable(now.cache, RefreshCache(ps, localId, w.store, w.cache));
  }

  ghost function Begin(ps: Providers, localId: string, w: World): Adoption {
    Adoption(RefreshAll(ps, localId, w.store), RefreshLeases(ps, localId, w.store, w.leases),
             RefreshCache(ps, localId, w.store, w.cache), Live(w.store), false)
  }

  ghost function Reconciled(ps: Providers, localId: string, w: World): Adoption {
    AdoptAll(localId, Begin(ps, localId, w), Inventory(ps.registry))
  }

  lemma {:induction false} AdoptConcat(localId: string, a: Adoption, x: seq<Runtime>, y: seq<Runtime>)
    ensures AdoptAll(localId, a, x + y) == AdoptAll(localId, AdoptAll(localId, a, x), y)
  {
    if y == [] {
      assert x + y == x;
    } else {
      assert (x + y)[..|x + y| - 1] == x + y[..|y| - 1];
      AdoptConcat(localId, a, x, y[..|y| - 1]);
    }
  }

  lemma {:induction false} AdoptStops(localId: string, a: Adoption, rs: seq<Runtime>, k: nat)
    requires k <= |rs| && AdoptAll(localId, a, rs[..k]).aborted
    ensures AdoptAll(localId, a, rs) == AdoptAll(localId, a, rs[..k])
  {
    if k < |rs| {
      assert rs[..|rs| - 1][..k] == rs[..k];
      AdoptStops(localId, a, rs[..|rs| - 1], k);
    } else {
      assert rs[..k] == rs;
    }
  }

  /** The next provider adds its inventory, if it has one. */
  lemma InventoryMore(registry: seq<Provider>, i: nat)
    requires i < |registry|
    ensures Inventory(registry[..i + 1]) == Inventory(registry[..i]) +
              if registry[i].runtimes.Some? then NamedAll(registry[i], registry[i].runtimes.value) else []
    ensures registry[i].runtimes.None? ==> Inventory(registry[..i + 1]) == Inventory(registry[..i])
  {
    assert registry[..i + 1][..i] == registry[..i];
  }

  lemma AdoptionStops(localId: string, a: Adoption, registry: seq<Provider>, i: nat)
    requires i < |registry| && registry[i].runtimes.Some?
    requires AdoptAll(localId, a, Inventory(registry[..i + 1])).aborted
    ensures AdoptAll(localId, a, Inventory(registry)) == AdoptAll(localId, a, Inventory(registry[..i + 1]))
  {
    var upTo := Inventory(registry[..i + 1]);
    InventoryMore(registry, i);
    InventoryPrefix(registry, i);
    assert Inventory(registry)[..|upTo|] == upTo;
    AdoptStops(localId, a, Inventory(registry), |upTo|);
  }

  lemma {:induction false} InventoryPrefix(registry: seq<Provider>, i: nat)
    requires i < |registry| && registry[i].runtimes.Some?
    ensures Inventory(registry[..i]) + NamedAll(registry[i], registry[i].runtimes.value) <= Inventory(registry)
  {
    if i == |registry| - 1 {
      assert registry[..i] == registry[..|registry| - 1];
    } else {
      assert registry[..|registry| - 1][..i] == registry[..i];
      InventoryPrefix(registry[..|registry| - 1], i);
    }
  }
}
