/** Spawns and Destroys that nothing disturbs, from call to return: what is in memory
    afterwards. Every result holds from any state in which the call can be made. */
module CompleteRuns {
  import opened Text
  import opened Records
  import opened Admission
  import opened Orchestrator
  import opened VmPool
  import opened Scenarios

  // ---------- Spawn ----------

  /** Thread t is at rest, nobody holds the lock, and the request passes the check. */
  ghost predicate CanSpawn(c: Config, s: State, t: nat, req: Request) {
    t in s.pcs && s.pcs[t].AtRest? && s.lock == None && Evaluate(c.limits, s.mem.store, req).Allowed?
  }

  /** An id nobody has seen. */
  predicate Unknown(m: Shared, id: string) {
    Fresh(m, id) && id !in m.store && id !in m.leases
  }

  lemma Enters(c: Config, d: Discipline, run: seq<State>, t: nat, req: Request) returns (longer: seq<State>)
    requires IsRun(c, d, run) && CanSpawn(c, Last(run), t, req)
    ensures IsRun(c, d, longer) && run <= longer
    ensures var s := Last(run); Last(longer) == State(Some(t), s.pcs[t := Admitted(req)], s.mem)
  {
    var m := Last(run).mem;
    longer := AdvanceEntry(c, d, run, t, Waiting(req), m);
    longer := AdvanceEntry(c, d, longer, t, Passed(req), m);
    longer := AdvanceEntry(c, d, longer, t, Checking(req), m);
    longer := AdvanceEntry(c, d, longer, t, Admitted(req), m);
  }

  /** Filling the cache and giving up the lock. */
  lemma Leaves(c: Config, d: Discipline, run: seq<State>, t: nat) returns (longer: seq<State>)
    requires IsRun(c, d, run) && t in Last(run).pcs && Last(run).pcs[t].Caching?
    ensures IsRun(c, d, longer) && run <= longer
    ensures var s := Last(run);
            Last(longer) == State(None, s.pcs[t := AtRest], s.mem.(cache := s.mem.cache[s.pcs[t].id := s.pcs[t].rec]))
  {
    longer := SpawnCaches(c, d, run, t);
    longer := AdvanceEntry(c, d, longer, t, AtRest, Last(longer).mem);
  }

  /** Lease, row and cache entry for a sandbox, all under its own id. */
  function WithSandbox(m: Shared, id: string, row: SandboxRecord): Shared {
    m.(used := m.used + {id}, leases := m.leases[id := row.workerId], store := m.store[id := row],
       cache := m.cache[id := row])
  }

  lemma BootsHere(c: Config, d: Discipline, run: seq<State>, t: nat, id: string) returns (longer: seq<State>)
    requires IsRun(c, d, run) && t in Last(run).pcs && Last(run).pcs[t].Placed? && Last(run).pcs[t].worker == c.Local()
    requires Unknown(Last(run).mem, id)
    ensures IsRun(c, d, longer) && run <= longer
    ensures var s := Last(run);
            var row := SandboxRecord(Running, s.pcs[t].req.provider, s.pcs[t].req.owner, "", c.Local());
            Last(longer) == s.(pcs := s.pcs[t := Leased(id, row)],
                               mem := Issue(s.mem, id).(leases := s.mem.leases[id := c.Local()]))
  {
    var pc, m := Last(run).pcs[t], Issue(Last(run).mem, id);
    longer := AdvanceDedicated(c, d, run, t, Booted(pc.req, id), m);
    m := m.(leases := m.leases[id := c.Local()]);
    longer := AdvanceDedicated(c, d, longer, t, Leased(id, NewRow(pc.req, "", c.Local())), m);
  }

  lemma BootsElsewhere(c: Config, d: Discipline, run: seq<State>, t: nat, id: string, vm: string)
    returns (longer: seq<State>)
    requires IsRun(c, d, run) && t in Last(run).pcs && Last(run).pcs[t].Placed? && Last(run).pcs[t].worker != c.Local()
    requires Unknown(Last(run).mem, id)
    ensures IsRun(c, d, longer) && run <= longer
    ensures var s := Last(run);
            var worker := s.pcs[t].worker;
            var row := SandboxRecord(Running, s.pcs[t].req.provider, s.pcs[t].req.owner, vm, worker);
            Last(longer) == s.(pcs := s.pcs[t := Leased(id, row)],
                               mem := Issue(s.mem, id).(leases := s.mem.leases[id := worker]))
  {
    var pc, m := Last(run).pcs[t], Issue(Last(run).mem, id);
    m := m.(leases := m.leases[id := pc.worker]);
    longer := AdvanceDedicated(c, d, run, t, RemoteLeased(pc.req, id, pc.worker), m);
    longer := AdvanceDedicated(c, d, longer, t, Leased(id, NewRow(pc.req, vm, pc.worker)), m);
  }

  lemma StoresAndLeaves(c: Config, d: Discipline, run: seq<State>, t: nat) returns (longer: seq<State>)
    requires IsRun(c, d, run) && t in Last(run).pcs && Last(run).pcs[t].Leased?
    requires Last(run).pcs[t].id !in Last(run).mem.store
    ensures IsRun(c, d, longer) && run <= longer
    ensures var s := Last(run);
            var id, row := s.pcs[t].id, s.pcs[t].rec;
            Last(longer) == State(None, s.pcs[t := AtRest],
                                  s.mem.(store := s.mem.store[id := row], cache := s.mem.cache[id := row]))
  {
    var pc, m := Last(run).pcs[t], Last(run).mem;
    longer := AdvanceDedicated(c, d, run, t, Caching(pc.id, pc.rec), m.(store := m.store[pc.id := pc.rec]));
    longer := Leaves(c, d, longer, t);
  }

  /** In 1:1 mode a Spawn adds one sandbox: a running row with the request's provider and
      owner on the chosen worker, a lease held by that worker, and an equal cache entry. Only
      another worker's sandbox may name a VM. Nothing else changes. */
  lemma DedicatedSpawnAdds(c: Config, d: Discipline, run: seq<State>, t: nat, req: Request, id: string, vm: string)
    returns (longer: seq<State>)
    requires IsRun(c, d, run) && CanSpawn(c, Last(run), t, req) && !c.pooled && Unknown(Last(run).mem, id)
    ensures IsRun(c, d, longer) && run <= longer
    ensures var s := Last(run);
            var worker := PlaceFor(c.limits, s.mem.store, req.provider).selected;
            var row := SandboxRecord(Running, req.provider, req.owner, if worker == c.Local() then "" else vm, worker);
            Last(longer) == s.(mem := WithSandbox(s.mem, id, row))
  {
    var s := Last(run);
    var worker := PlaceFor(c.limits, s.mem.store, req.provider).selected;
    longer := Enters(c, d, run, t, req);
    longer := AdvanceDedicated(c, d, longer, t, Placed(req, worker), s.mem);
    if worker == c.Local() {
      longer := BootsHere(c, d, longer, t, id);
    } else {
      longer := BootsElsewhere(c, d, longer, t, id, vm);
    }
    longer := StoresAndLeaves(c, d, longer, t);
    assert Last(longer).pcs == s.pcs;
  }

  /** From a slot on a VM to the end of Spawn. */
  lemma SlotToEnd(c: Config, d: Discipline, run: seq<State>, t: nat) returns (longer: seq<State>)
    requires IsRun(c, d, run) && t in Last(run).pcs && Last(run).pcs[t].Slotted?
    requires var s := Last(run); s.pcs[t].id !in s.mem.leases && s.pcs[t].id !in s.mem.store
    requires Last(run).pcs[t].id in Last(run).mem.used
    ensures IsRun(c, d, longer) && run <= longer
    ensures var s := Last(run);
            var pc := s.pcs[t];
            var row := SandboxRecord(Running, pc.req.provider, pc.req.owner, pc.vm, c.Local());
            Last(longer) == State(None, s.pcs[t := AtRest], WithSandbox(s.mem, pc.id, row))
  {
    var pc, m := Last(run).pcs[t], Last(run).mem;
    var row := NewRow(pc.req, pc.vm, c.Local());
    m := m.(leases := m.leases[pc.id := c.Local()]);
    longer := AdvancePool(c, d, run, t, SlotLeased(pc.req, pc.id, pc.vm), m);
    longer := AdvancePool(c, d, longer, t, Caching(pc.id, row), m.(store := m.store[pc.id := row]));
    longer := Leaves(c, d, longer, t);
    assert Last(longer).mem.used == Last(run).mem.used + {pc.id};
  }

  /** A pooled Spawn can join any VM below its limit: that VM has one user more, and the new
      row names it. */
  lemma PooledSpawnJoins(c: Config, d: Discipline, run: seq<State>, t: nat, req: Request, id: string, vm: string)
    returns (longer: seq<State>)
    requires IsRun(c, d, run) && CanSpawn(c, Last(run), t, req) && c.pooled && Unknown(Last(run).mem, id)
    requires vm in Last(run).mem.slots && Last(run).mem.slots[vm].userCount < Last(run).mem.slots[vm].maxUsers
    ensures IsRun(c, d, longer) && run <= longer
    ensures var s := Last(run);
            var slot := s.mem.slots[vm];
            var m := s.mem.(slots := s.mem.slots[vm := slot.(userCount := slot.userCount + 1)]);
            var row := SandboxRecord(Running, req.provider, req.owner, vm, c.Local());
            Last(longer) == s.(mem := WithSandbox(m, id, row))
  {
    var s := Last(run);
    longer := Enters(c, d, run, t, req);
    var m := Issue(s.mem, id).(slots := AddUser(s.mem.slots, vm));
    longer := AdvancePool(c, d, longer, t, Slotted(req, id, vm), m);
    longer := SlotToEnd(c, d, longer, t);
    assert Last(longer).pcs == s.pcs;
    assert m.used + {id} == s.mem.used + {id};
  }

  /** When all VMs are at their limit and the pool may grow, a pooled Spawn adds two sandboxes:
      a VM without an owner, registered with one user, and its own on that VM. */
  lemma PooledSpawnBoots(c: Config, d: Discipline, run: seq<State>, t: nat, req: Request, id: string, vm: string)
    returns (longer: seq<State>)
    requires IsRun(c, d, run) && CanSpawn(c, Last(run), t, req) && c.pooled
    requires Unknown(Last(run).mem, id) && Unknown(Last(run).mem, vm) && id != vm
    requires var m := Last(run).mem;
             |m.slots| < c.maxVMs && forall v :: v in m.slots ==> m.slots[v].userCount >= m.slots[v].maxUsers
    ensures IsRun(c, d, longer) && run <= longer
    ensures var s := Last(run);
            var m := s.mem.(slots := s.mem.slots[vm := VMSlot(vm, req.provider, "", 1, c.maxUsersPerVM)]);
            var vmRow := SandboxRecord(Running, req.provider, "", "", c.Local());
            var row := SandboxRecord(Running, req.provider, req.owner, vm, c.Local());
            Last(longer) == s.(mem := WithSandbox(WithSandbox(m, vm, vmRow), id, row))
  {
    var s := Last(run);
    longer := Enters(c, d, run, t, req);
    longer := StartFresh(c, d, longer, t, id, vm);
    longer := RegisterVm(c, d, longer, t);
    longer := SlotToEnd(c, d, longer, t);
    assert Last(longer).pcs == s.pcs;
    assert s.mem.used + {id} + {vm} + {id} == s.mem.used + {vm} + {id};
  }

  lemma StartFresh(c: Config, d: Discipline, run: seq<State>, t: nat, id: string, vm: string) returns (longer: seq<State>)
    requires IsRun(c, d, run) && t in Last(run).pcs && Last(run).pcs[t].Admitted? && c.pooled
    requires Unknown(Last(run).mem, id) && Unknown(Last(run).mem, vm) && id != vm
    requires var m := Last(run).mem; |m.slots| < c.maxVMs && forall v :: !HasRoom(m.slots, v)
    ensures IsRun(c, d, longer) && run <= longer
    ensures var s := Last(run);
            Last(longer) == s.(pcs := s.pcs[t := VmBooted(s.pcs[t].req, id, vm)], mem := Issue(Issue(s.mem, id), vm))
  {
    var s := Last(run);
    longer := AdvancePool(c, d, run, t, PoolMiss(s.pcs[t].req, id), Issue(s.mem, id));
    longer := AdvancePool(c, d, longer, t, VmBooted(s.pcs[t].req, id, vm), Issue(Issue(s.mem, id), vm));
  }

  lemma StoreVm(c: Config, d: Discipline, run: seq<State>, t: nat) returns (longer: seq<State>)
    requires IsRun(c, d, run) && t in Last(run).pcs && Last(run).pcs[t].VmBooted?
    requires var s := Last(run); s.pcs[t].vm !in s.mem.leases && s.pcs[t].vm !in s.mem.store
    ensures IsRun(c, d, longer) && run <= longer
    ensures var s := Last(run);
            var pc := s.pcs[t];
            var vmRow := SandboxRecord(Running, pc.req.provider, "", "", c.Local());
            Last(longer) == s.(pcs := s.pcs[t := VmStored(pc.req, pc.id, pc.vm)],
                               mem := s.mem.(leases := s.mem.leases[pc.vm := c.Local()],
                                             store := s.mem.store[pc.vm := vmRow]))
  {
    var pc, m := Last(run).pcs[t], Last(run).mem;
    m := m.(leases := m.leases[pc.vm := c.Local()]);
    longer := AdvancePool(c, d, run, t, VmLeased(pc.req, pc.id, pc.vm), m);
    longer := AdvancePool(c, d, longer, t, VmStored(pc.req, pc.id, pc.vm), m.(store := m.store[pc.vm := VmRow(c, pc.req)]));
  }

  lemma CacheVm(c: Config, d: Discipline, run: seq<State>, t: nat) returns (longer: seq<State>)
    requires IsRun(c, d, run) && t in Last(run).pcs && Last(run).pcs[t].VmStored?
    ensures IsRun(c, d, longer) && run <= longer
    ensures var s := Last(run);
            var pc := s.pcs[t];
            var vmRow := SandboxRecord(Running, pc.req.provider, "", "", c.Local());
            var slots := s.mem.slots[pc.vm := VMSlot(pc.vm, pc.req.provider, "", 1, c.maxUsersPerVM)];
            Last(longer) == s.(pcs := s.pcs[t := Slotted(pc.req, pc.id, pc.vm)],
                               mem := s.mem.(cache := s.mem.cache[pc.vm := vmRow], slots := slots))
  {
    var pc, m := Last(run).pcs[t], Last(run).mem;
    m := m.(cache := m.cache[pc.vm := VmRow(c, pc.req)]);
    longer := AdvancePool(c, d, run, t, VmCached(pc.req, pc.id, pc.vm), m);
    m := m.(slots := m.slots[pc.vm := VMSlot(pc.vm, pc.req.provider, "", 1, c.maxUsersPerVM)]);
    longer := AdvancePool(c, d, longer, t, Slotted(pc.req, pc.id, pc.vm), m);
  }

  lemma RegisterVm(c: Config, d: Discipline, run: seq<State>, t: nat) returns (longer: seq<State>)
    requires IsRun(c, d, run) && t in Last(run).pcs && Last(run).pcs[t].VmBooted?
    requires var s := Last(run); s.pcs[t].vm !in s.mem.leases && s.pcs[t].vm !in s.mem.store && s.pcs[t].vm in s.mem.used
    ensures IsRun(c, d, longer) && run <= longer
    ensures var s := Last(run);
            var pc := s.pcs[t];
            var vmRow := SandboxRecord(Running, pc.req.provider, "", "", c.Local());
            var slots := s.mem.slots[pc.vm := VMSlot(pc.vm, pc.req.provider, "", 1, c.maxUsersPerVM)];
            Last(longer) == s.(pcs := s.pcs[t := Slotted(pc.req, pc.id, pc.vm)],
                               mem := WithSandbox(s.mem.(slots := slots), pc.vm, vmRow))
  {
    var used, vm := Last(run).mem.used, Last(run).pcs[t].vm;
    longer := StoreVm(c, d, run, t);
    longer := CacheVm(c, d, longer, t);
    assert used == used + {vm};
  }

  /** Where an admitted Spawn goes in pool mode, whatever the order in which VMs are looked at:
      it is turned away if and only if every VM is at its limit and there are as many VMs as
      allowed; it starts one if and only if every VM is at its limit and there may be more;
      otherwise it joins one that is below its limit. */
  lemma PoolTurnsAwayIff(c: Config, s: State, s': State, t: nat)
    requires c.pooled && Step(c, s, s', t) && s.pcs[t].Admitted?
    ensures var slots, n := s.mem.slots, s'.pcs[t];
            var allFull := forall vm :: vm in slots ==> slots[vm].userCount >= slots[vm].maxUsers;
            && (n == Unlocking <==> allFull && |slots| >= c.maxVMs)
            && (n.PoolMiss? <==> allFull && |slots| < c.maxVMs)
            && (n.Slotted? <==> !allFull)
            && (n.Slotted? ==> n.vm in slots && slots[n.vm].userCount < slots[n.vm].maxUsers)
  {
    var slots := s.mem.slots;
    assert PoolMove(c, s.pcs[t], s.mem, s'.pcs[t], s'.mem);
    assert forall vm :: vm in slots ==> (HasRoom(slots, vm) <==> slots[vm].userCount < slots[vm].maxUsers);
    assert forall vm :: HasRoom(slots, vm) ==> vm in slots;
  }

  /** At either check a Spawn queues only when queueing is on and the table has reached the limit
      on sandboxes or the owner's, and goes on only below both. */
  lemma OnlyFullWaits(c: Config, s: State, s': State, t: nat)
    requires Step(c, s, s', t) && (s.pcs[t].Waiting? || s.pcs[t].Checking?)
    ensures var req, n := s.pcs[t].req, s'.pcs[t];
            var live, owned := |Live(s.mem.store)|, |OwnedLive(s.mem.store, req.owner)|;
            var quota := req.owner in c.limits.quotas && c.limits.quotas[req.owner].maxSandboxes > 0;
            var cap := if quota then c.limits.quotas[req.owner].maxSandboxes else c.limits.maxPerOwner;
            var full := || (c.limits.maxSandboxes > 0 && live >= c.limits.maxSandboxes)
                        || (req.owner != "" && cap > 0 && owned >= cap);
            && n in {AtRest, Waiting(req), if s.pcs[t].Waiting? then Passed(req) else Admitted(req)} && s'.mem == s.mem
            && (n == Waiting(req) ==> c.limits.queueing && full)
            && (n.Passed? || n.Admitted? ==> !full)
  {
    assert EntryMove(c, s.pcs[t], s.mem, s'.pcs[t], s'.mem);
    DecisionMeans(c.limits, s.mem.store, s.pcs[t].req);
  }

  /** The id under which the Spawn at `pc` has taken a lease that has no row yet, and for whom. */
  function Holds(c: Config, pc: Pc): Option<(string, string)> {
    match pc
    case RemoteLeased(_, id, worker) => Some((id, worker))
    case Leased(id, rec) => Some((id, rec.workerId))
    case VmLeased(_, _, vm) => Some((vm, c.Local()))
    case SlotLeased(_, id, _) => Some((id, c.Local()))
    case Abandoning(id, holder) => Some((id, holder))
    case _ => None
  }

  /** A Spawn that fails after taking a lease, its VM's or its own, gives exactly that lease up
      before it leaves the locked region: it goes on with the lease, writes the row, or is just
      releasing the lease. */
  lemma FailedSpawnGivesUpLease(c: Config, s: State, s': State, t: nat)
    requires Step(c, s, s', t) && Holds(c, s.pcs[t]).Some?
    ensures var (id, holder) := Holds(c, s.pcs[t]).value;
            var n := s'.pcs[t];
            if s.pcs[t].Abandoning? then
              n == Unlocking && s'.mem.store == s.mem.store && (id in s'.mem.leases ==> s'.mem.leases[id] != holder)
              && forall i :: i != id && i in s.mem.leases ==> i in s'.mem.leases && s'.mem.leases[i] == s.mem.leases[i]
            else Holds(c, n) == Some((id, holder)) || (id !in s.mem.store && id in s'.mem.store)
  {
  }

  // ---------- Destroy ----------

  /** What Destroy reads about `id`: the cache entry, else the row. */
  predicate Known(m: Shared, id: string, rec: SandboxRecord) {
    if id in m.cache then m.cache[id] == rec else id in m.store && m.store[id] == rec
  }

  /** Thread u is at rest, the record does not name another worker, and the lease is free or
      ours. */
  predicate CanDestroyHere(c: Config, s: State, u: nat, id: string, rec: SandboxRecord) {
    && u in s.pcs && s.pcs[u].AtRest? && Known(s.mem, id, rec)
    && (TrimSpace(rec.workerId) == "" || rec.workerId == c.Local())
    && (id in s.mem.leases ==> s.mem.leases[id] == c.Local())
  }

  /** The row of `id`, if any, is marked; its lease and its cache entry are gone. */
  ghost predicate Removed(m: Shared, m': Shared, id: string) {
    && m'.store.Keys == m.store.Keys
    && (forall i :: i in m.store ==> m'.store[i] == if i == id then m.store[i].(state := Destroyed) else m.store[i])
    && m'.leases == m.leases - {id} && m'.cache == m.cache - {id}
  }

  lemma ToHeld(c: Config, run: seq<State>, u: nat, id: string, rec: SandboxRecord) returns (longer: seq<State>)
    requires IsRun(c, Anything, run) && CanDestroyHere(c, Last(run), u, id, rec)
    ensures IsRun(c, Anything, longer) && run <= longer
    ensures var s := Last(run);
            Last(longer) == s.(pcs := s.pcs[u := Held(id, rec)],
                               mem := s.mem.(claimed := s.mem.claimed + {id}, leases := s.mem.leases[id := c.Local()]))
  {
    var m := Last(run).mem;
    m := m.(claimed := m.claimed + {id});
    longer := AdvanceEntry(c, Anything, run, u, Destroying(id, rec), m);
    longer := AdvanceTear(c, Anything, longer, u, Held(id, rec), m.(leases := m.leases[id := c.Local()]));
  }

  lemma HeldAndUnheld(leases: map<string, string>, id: string, holder: string)
    ensures leases[id := holder] - {id} == leases - {id}
  {
  }

  /** Destroy of a local sandbox with a runtime of its own marks its row and removes its lease
      and its cache entry; slots, other rows, leases and entries stay. */
  lemma DestroyRemoves(c: Config, run: seq<State>, u: nat, id: string, rec: SandboxRecord) returns (longer: seq<State>)
    requires IsRun(c, Anything, run) && CanDestroyHere(c, Last(run), u, id, rec) && (!c.pooled || rec.vmId == "")
    ensures IsRun(c, Anything, longer) && run <= longer
    ensures var s, s' := Last(run), Last(longer);
            && s'.pcs == s.pcs && s'.lock == s.lock && s'.mem.slots == s.mem.slots && s'.mem.freed == s.mem.freed
            && Removed(s.mem, s'.mem, id)
  {
    var s := Last(run);
    longer := ToHeld(c, run, u, id, rec);
    longer := AdvanceTear(c, Anything, longer, u, Marking(id, c.Local()), Last(longer).mem);
    longer := DestroyEnds(c, Anything, longer, u, id, c.Local());
    HeldAndUnheld(s.mem.leases, id, c.Local());
    assert Last(longer).pcs == s.pcs;
  }

  /** Destroy of a pooled sandbox whose VM has other users does the same and takes one user off
      the VM's count; that VM stays as it is otherwise. */
  lemma PooledDestroyLeaves(c: Config, run: seq<State>, u: nat, id: string, rec: SandboxRecord) returns (longer: seq<State>)
    requires IsRun(c, Anything, run) && CanDestroyHere(c, Last(run), u, id, rec) && c.pooled && rec.vmId != ""
    requires rec.vmId in Last(run).mem.slots && Last(run).mem.slots[rec.vmId].userCount > 1
    ensures IsRun(c, Anything, longer) && run <= longer
    ensures var s, s' := Last(run), Last(longer);
            var slot := s.mem.slots[rec.vmId];
            && s'.pcs == s.pcs && s'.lock == s.lock && Removed(s.mem, s'.mem, id)
            && s'.mem.slots == s.mem.slots[rec.vmId := slot.(userCount := slot.userCount - 1)]
            && s'.mem.freed == s.mem.freed + {id}
  {
    var s := Last(run);
    longer := ToHeld(c, run, u, id, rec);
    var m := Last(longer).mem;
    longer := AdvanceTear(c, Anything, longer, u, Marking(id, c.Local()), DropSlot(m, rec.vmId).(freed := m.freed + {id}));
    longer := DestroyEnds(c, Anything, longer, u, id, c.Local());
    HeldAndUnheld(s.mem.leases, id, c.Local());
    assert Last(longer).pcs == s.pcs;
  }

  /** The row, lease and cache entry of `vm` gone, in that order. */
  function WithoutVm(m: Shared, vm: string): Shared {
    m.(store := MarkDestroyed(m.store, vm), leases := m.leases - {vm}, cache := m.cache - {vm})
  }

  lemma UnleaseVm(c: Config, run: seq<State>, u: nat) returns (longer: seq<State>)
    requires IsRun(c, Anything, run) && u in Last(run).pcs && Last(run).pcs[u].VmMarking?
    requires var s := Last(run); s.pcs[u].vm in s.mem.leases ==> s.mem.leases[s.pcs[u].vm] == c.Local()
    ensures IsRun(c, Anything, longer) && run <= longer
    ensures var s := Last(run);
            var id, vm := s.pcs[u].id, s.pcs[u].vm;
            Last(longer) == s.(pcs := s.pcs[u := VmUncaching(id, vm)],
                               mem := s.mem.(store := MarkDestroyed(s.mem.store, vm), leases := s.mem.leases - {vm}))
  {
    var pc, m := Last(run).pcs[u], Last(run).mem;
    m := m.(store := MarkDestroyed(m.store, pc.vm));
    longer := AdvanceTear(c, Anything, run, u, VmUnleasing(pc.id, pc.vm), m);
    longer := AdvanceTear(c, Anything, longer, u, VmUncaching(pc.id, pc.vm), ReleaseLease(m, pc.vm, c.Local()));
    assert ReleaseLease(m, pc.vm, c.Local()).leases == m.leases - {pc.vm};
  }

  lemma TakeVmDown(c: Config, run: seq<State>, u: nat) returns (longer: seq<State>)
    requires IsRun(c, Anything, run) && u in Last(run).pcs && Last(run).pcs[u].VmMarking?
    requires var s := Last(run); s.pcs[u].vm in s.mem.leases ==> s.mem.leases[s.pcs[u].vm] == c.Local()
    ensures IsRun(c, Anything, longer) && run <= longer
    ensures var s := Last(run);
            var pc := s.pcs[u];
            Last(longer) == s.(pcs := s.pcs[u := Marking(pc.id, c.Local())], mem := WithoutVm(s.mem, pc.vm))
  {
    var pc, m := Last(run).pcs[u], Last(run).mem;
    longer := UnleaseVm(c, run, u);
    longer := AdvanceTear(c, Anything, longer, u, Marking(pc.id, c.Local()), WithoutVm(m, pc.vm));
  }

  /** The Destroy of the last user of a VM, up to the point where it turns to the VM. */
  lemma ToVmMarking(c: Config, run: seq<State>, u: nat, id: string, rec: SandboxRecord) returns (longer: seq<State>)
    requires IsRun(c, Anything, run) && CanDestroyHere(c, Last(run), u, id, rec) && c.pooled && rec.vmId != ""
    requires rec.vmId in Last(run).mem.slots && Last(run).mem.slots[rec.vmId].userCount == 1
    ensures IsRun(c, Anything, longer) && run <= longer
    ensures var s := Last(run);
            var m := s.mem.(claimed := s.mem.claimed + {id}, leases := s.mem.leases[id := c.Local()],
                            freed := s.mem.freed + {id}, slots := s.mem.slots - {rec.vmId},
                            retired := s.mem.retired + {rec.vmId});
            Last(longer) == s.(pcs := s.pcs[u := VmMarking(id, rec.vmId)], mem := m)
  {
    var s := Last(run);
    longer := ToHeld(c, run, u, id, rec);
    var m := DropSlot(Last(longer).mem, rec.vmId).(freed := s.mem.freed + {id});
    longer := AdvanceTear(c, Anything, longer, u, VmMarking(id, rec.vmId), m);
  }

  lemma VmThenSandbox(c: Config, run: seq<State>, u: nat) returns (longer: seq<State>)
    requires IsRun(c, Anything, run) && u in Last(run).pcs && Last(run).pcs[u].VmMarking?
    requires var s := Last(run); s.pcs[u].vm in s.mem.leases ==> s.mem.leases[s.pcs[u].vm] == c.Local()
    ensures IsRun(c, Anything, longer) && run <= longer
    ensures var s := Last(run);
            var id, m := s.pcs[u].id, WithoutVm(s.mem, s.pcs[u].vm);
            Last(longer) == s.(pcs := s.pcs[u := AtRest],
                               mem := ReleaseLease(m, id, c.Local()).(store := MarkDestroyed(m.store, id),
                                                                      cache := m.cache - {id}))
  {
    var id := Last(run).pcs[u].id;
    longer := TakeVmDown(c, run, u);
    longer := DestroyEnds(c, Anything, longer, u, id, c.Local());
  }

  /** Destroy of the last user of a local VM removes the VM first: its slot, its row, its lease
      and its cache entry. */
  lemma LastDestroyTakesVm(c: Config, run: seq<State>, u: nat, id: string, rec: SandboxRecord)
    returns (longer: seq<State>, between: Shared)
    requires IsRun(c, Anything, run) && CanDestroyHere(c, Last(run), u, id, rec) && c.pooled && rec.vmId !in {"", id}
    requires rec.vmId in Last(run).mem.slots && Last(run).mem.slots[rec.vmId].userCount == 1
    requires rec.vmId in Last(run).mem.leases ==> Last(run).mem.leases[rec.vmId] == c.Local()
    ensures IsRun(c, Anything, longer) && run <= longer
    ensures var s, s' := Last(run), Last(longer);
            && s'.pcs == s.pcs && s'.lock == s.lock && s'.mem.slots == s.mem.slots - {rec.vmId}
            && s'.mem.freed == s.mem.freed + {id} && s'.mem.retired == s.mem.retired + {rec.vmId}
            && Removed(s.mem, between, rec.vmId) && Removed(between, s'.mem, id)
  {
    var s, vm := Last(run), rec.vmId;
    longer := ToVmMarking(c, run, u, id, rec);
    longer := VmThenSandbox(c, longer, u);
    between := WithoutVm(s.mem, vm);
    HeldThenWithout(s.mem.leases, vm, id, c.Local());
    VmIsRemoved(s.mem, vm);
    assert Last(longer).pcs == s.pcs;
  }

  lemma HeldThenWithout(leases: map<string, string>, vm: string, id: string, holder: string)
    requires id != vm
    ensures (leases[id := holder] - {vm})[id] == holder
    ensures leases[id := holder] - {vm} - {id} == leases - {vm} - {id}
  {
  }

  lemma VmIsRemoved(m: Shared, vm: string)
    ensures Removed(m, WithoutVm(m, vm), vm)
  {
  }

  /** Destroy of another worker's sandbox goes through when that worker holds the lease, and
      removes the same things. */
  lemma RemoteDestroyRemoves(c: Config, run: seq<State>, u: nat, id: string, rec: SandboxRecord) returns (longer: seq<State>)
    requires IsRun(c, Anything, run) && u in Last(run).pcs && Last(run).pcs[u].AtRest? && Known(Last(run).mem, id, rec)
    requires TrimSpace(rec.workerId) != "" && rec.workerId != c.Local()
    requires id in Last(run).mem.leases && Last(run).mem.leases[id] == rec.workerId
    ensures IsRun(c, Anything, longer) && run <= longer
    ensures var s, s' := Last(run), Last(longer);
            && s'.pcs == s.pcs && s'.lock == s.lock && s'.mem.slots == s.mem.slots && Removed(s.mem, s'.mem, id)
  {
    longer := ToRemoteMarking(c, run, u, id, rec);
    longer := DestroyEnds(c, Anything, longer, u, id, rec.workerId);
    assert Last(longer).pcs == Last(run).pcs;
  }

  /** A Destroy gets past the lease only when nobody else has it, and for another worker's
      sandbox only when that worker has it. */
  lemma DestroyNeedsTheLease(c: Config, s: State, s': State, t: nat)
    requires Step(c, s, s', t) && s.pcs[t].Destroying? && s'.pcs[t] != AtRest
    ensures var id, owner := s.pcs[t].id, s.pcs[t].sb.workerId;
            if TrimSpace(owner) != "" && owner != c.Local() then id in s.mem.leases && s.mem.leases[id] == owner
            else id in s.mem.leases ==> s.mem.leases[id] == c.Local()
  {
    assert TeardownMove(c, s.pcs[t], s.mem, s'.pcs[t], s'.mem);
  }

  /** Past the lease a local Destroy does not stop early: when it returns, it has just removed the
      cache entry. */
  lemma LocalDestroyGoesOn(c: Config, s: State, s': State, t: nat)
    requires Step(c, s, s', t) && s'.pcs[t] == AtRest
    requires match s.pcs[t]
             case Held(_, _) | VmMarking(_, _) | VmUnleasing(_, _) | VmUncaching(_, _) => true
             case Marking(_, holder) => holder == c.Local()
             case Unleasing(_, _) | Uncaching(_) => true
             case _ => false
    ensures s.pcs[t].Uncaching? && s'.mem == s.mem.(cache := s.mem.cache - {s.pcs[t].id})
  {
    assert TeardownMove(c, s.pcs[t], s.mem, AtRest, s'.mem) || CleanupMove(c, s.pcs[t], s.mem, AtRest, s'.mem);
  }

  lemma ToRemoteMarking(c: Config, run: seq<State>, u: nat, id: string, rec: SandboxRecord) returns (longer: seq<State>)
    requires IsRun(c, Anything, run) && u in Last(run).pcs && Last(run).pcs[u].AtRest? && Known(Last(run).mem, id, rec)
    requires TrimSpace(rec.workerId) != "" && rec.workerId != c.Local()
    requires id in Last(run).mem.leases && Last(run).mem.leases[id] == rec.workerId
    ensures IsRun(c, Anything, longer) && run <= longer
    ensures var s := Last(run);
            Last(longer) == s.(pcs := s.pcs[u := Marking(id, rec.workerId)],
                               mem := s.mem.(claimed := s.mem.claimed + {id}))
  {
    var m := Last(run).mem;
    m := m.(claimed := m.claimed + {id});
    longer := AdvanceEntry(c, Anything, run, u, Destroying(id, rec), m);
    longer := AdvanceTear(c, Anything, longer, u, Marking(id, rec.workerId), m);
  }
}
