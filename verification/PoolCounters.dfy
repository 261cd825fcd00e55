/** The VM pool's user counters over whole runs in pool mode, when the slot of each pooled
    sandbox is released at most once. Nothing else is assumed of the calls of Destroy. */
module PoolCounters {
  import opened Text
  import opened Records
  import opened Admission
  import opened Orchestrator
  import opened VmPool
  import Counting

  ghost predicate Setting(c: Config) {
    c.pooled && c.maxUsersPerVM >= 1
  }

  // ---------- Who uses which VM ----------

  /** Pooled rows whose slot no Destroy has released yet. */
  ghost function StoredUsers(m: Shared): map<string, string> {
    map id | id in m.store && m.store[id].vmId != "" && id !in m.freed :: m.store[id].vmId
  }

  /** The sandbox that a Spawn has a slot for but no row yet. */
  function InFlight(pc: Pc): map<string, string> {
    match pc
    case Slotted(_, id, vm) => map[id := vm]
    case SlotLeased(_, id, vm) => map[id := vm]
    case _ => map[]
  }

  /** The pc of the thread inside the locked region, if any. */
  function Inside(s: State): Pc {
    if s.lock.Some? && s.lock.value in s.pcs then s.pcs[s.lock.value] else AtRest
  }

  ghost function UsersOf(s: State): map<string, string> {
    StoredUsers(s.mem) + InFlight(Inside(s))
  }

  /** Every pooled sandbox that is not destroyed, with its VM. */
  ghost function LiveUsers(store: Store): map<string, string> {
    map id | id in store && store[id].vmId != "" && store[id].state != Destroyed :: store[id].vmId
  }

  // ---------- Invariants ----------

  ghost predicate IsVmRow(m: Shared, vm: string) {
    vm in m.store && m.store[vm].vmId == ""
  }

  /** The VM's row is live unless somebody has called Destroy for the VM itself. */
  ghost predicate IsPoolVm(m: Shared, vm: string) {
    IsVmRow(m, vm) && (m.store[vm].state != Destroyed || vm in m.claimed)
  }

  ghost predicate MemInv(c: Config, m: Shared) {
    && m.freed <= m.store.Keys <= m.used
    && m.retired !! m.slots.Keys
    && (forall vm :: vm in m.slots ==> IsPoolVm(m, vm) && vm != "" && m.slots[vm].maxUsers == c.maxUsersPerVM)
    && (forall vm :: vm in m.retired ==> IsVmRow(m, vm))
    && (forall id :: id in m.store ==> m.store[id].workerId == c.Local())
    && (forall id :: id in m.freed ==> m.store[id].vmId != "")
    && (forall id :: id in m.cache ==>
          id in m.store && m.cache[id].vmId == m.store[id].vmId && m.cache[id].workerId == c.Local())
  }

  /** The Destroy at `pc` has released the slot of `id` and not yet marked its row. */
  predicate Released(pc: Pc, id: string) {
    match pc
    case VmMarking(i, _) => i == id
    case VmUnleasing(i, _) => i == id
    case VmUncaching(i, _) => i == id
    case Marking(i, _) => i == id
    case _ => false
  }

  ghost predicate NewSandbox(m: Shared, id: string) { id in m.used && id !in m.store }

  /** A VM on its way into the pool. */
  ghost predicate NewVm(m: Shared, vm: string) {
    vm in m.used && vm !in m.slots && vm !in m.retired && vm != ""
  }

  ghost predicate Doomed(c: Config, m: Shared, id: string, sb: SandboxRecord) {
    id in m.claimed && id in m.store && m.store[id].vmId == sb.vmId && sb.workerId == c.Local()
  }

  ghost predicate PcInv(c: Config, m: Shared, pc: Pc) {
    match pc
    case Placed(_, _) | Booted(_, _) | RemoteLeased(_, _, _) | Leased(_, _) => false
    case PoolMiss(_, id) => NewSandbox(m, id)
    case VmBooted(_, id, vm) => NewSandbox(m, id) && NewVm(m, vm) && vm !in m.store && id != vm
    case VmLeased(_, id, vm) => NewSandbox(m, id) && NewVm(m, vm) && vm !in m.store && id != vm
    case VmStored(_, id, vm) => NewSandbox(m, id) && NewVm(m, vm) && IsPoolVm(m, vm)
    case VmCached(_, id, vm) => NewSandbox(m, id) && NewVm(m, vm) && IsPoolVm(m, vm)
    case Slotted(_, id, vm) => NewSandbox(m, id) && vm != ""
    case SlotLeased(_, id, vm) => NewSandbox(m, id) && vm != ""
    case Caching(id, rec) => id in m.store && m.store[id].vmId == rec.vmId && rec.workerId == c.Local()
    case Destroying(id, sb) => Doomed(c, m, id, sb)
    case Held(id, sb) => Doomed(c, m, id, sb)
    case VmMarking(id, vm) => id in m.claimed && id in m.freed && vm in m.retired
    case VmUnleasing(id, vm) => id in m.claimed && id in m.freed && vm in m.retired
    case VmUncaching(id, vm) => id in m.claimed && id in m.freed && vm in m.retired
    case Marking(id, _) => id in m.claimed
    case _ => true
  }

  /** What a Spawn's moves leave alone for the Destroys around it. */
  ghost predicate SpawnFrame(m: Shared, m': Shared) {
    && m'.claimed == m.claimed && m'.freed == m.freed && m.retired <= m'.retired
    && forall id :: id in m.store ==> id in m'.store && m'.store[id] == m.store[id]
  }

  /** The assignment depends on the table and the released sandboxes only, and a new row
      that is not pooled is not part of it. */
  lemma SameUsers(m: Shared, m': Shared)
    requires m'.freed == m.freed
    requires m'.store == m.store || exists id, rec :: NewPlainRow(m, id, rec, m')
    ensures StoredUsers(m') == StoredUsers(m)
  {
  }

  ghost predicate NewPlainRow(m: Shared, id: string, rec: SandboxRecord, m': Shared) {
    id !in m.store && rec.vmId == "" && m'.store == m.store[id := rec]
  }

  // ---------- How moves change slots and assignment ----------

  /** Nothing about them changes. */
  ghost predicate Quiet(m: Shared, p: Pc, m': Shared, n: Pc) {
    && m'.slots == m.slots && m'.freed == m.freed && InFlight(p) == InFlight(n)
    && (m'.store == m.store || exists id, rec :: NewPlainRow(m, id, rec, m'))
  }

  /** A slot is taken, in a VM with room or with a new one. */
  ghost predicate TakesSlot(c: Config, m: Shared, p: Pc, m': Shared, n: Pc) {
    && n.Slotted? && InFlight(p) == map[] && n.id !in m.store && m'.store == m.store && m'.freed == m.freed
    && (if HasRoom(m.slots, n.vm) then m'.slots == AddUser(m.slots, n.vm)
        else n.vm !in m.slots && m'.slots == m.slots[n.vm := VMSlot(n.vm, n.req.provider, "", 1, c.maxUsersPerVM)])
  }

  /** The slot is given back. */
  ghost predicate GivesBack(m: Shared, p: Pc, m': Shared, n: Pc) {
    && (p.Slotted? || p.SlotLeased?) && InFlight(n) == map[] && p.id !in m.store
    && m'.store == m.store && m'.freed == m.freed && m'.slots == DropUser(m.slots, p.vm)
  }

  /** The slot becomes the new row's. */
  ghost predicate Settles(m: Shared, p: Pc, m': Shared, n: Pc) {
    && p.SlotLeased? && InFlight(n) == map[] && p.id !in m.store && p.id !in m.freed && p.vm != ""
    && m'.slots == m.slots && m'.freed == m.freed
    && exists rec: SandboxRecord :: rec.vmId == p.vm && m'.store == m.store[p.id := rec]
  }

  ghost predicate Shift(c: Config, m: Shared, p: Pc, m': Shared, n: Pc) {
    Quiet(m, p, m', n) || TakesSlot(c, m, p, m', n) || GivesBack(m, p, m', n) || Settles(m, p, m', n)
  }

  lemma TakesSlotDescribes(c: Config, m: Shared, p: Pc, m': Shared, n: Pc)
    requires Setting(c) && TakesSlot(c, m, p, m', n) && Describes(m.slots, StoredUsers(m) + InFlight(p))
    ensures Describes(m'.slots, StoredUsers(m') + InFlight(n))
  {
    var users := StoredUsers(m);
    SameUsers(m, m');
    assert users + InFlight(p) == users;
    assert users + InFlight(n) == users[n.id := n.vm];
    if HasRoom(m.slots, n.vm) {
      AddUserDescribes(m.slots, users, n.vm, n.id);
    } else {
      InsertDescribes(m.slots, users, VMSlot(n.vm, n.req.provider, "", 1, c.maxUsersPerVM), n.id);
    }
  }

  lemma GivesBackDescribes(m: Shared, p: Pc, m': Shared, n: Pc)
    requires GivesBack(m, p, m', n) && Describes(m.slots, StoredUsers(m) + InFlight(p))
    ensures Describes(m'.slots, StoredUsers(m') + InFlight(n))
  {
    var users := StoredUsers(m) + InFlight(p);
    SameUsers(m, m');
    assert InFlight(p) == map[p.id := p.vm];
    ReleaseDescribesIffHeld(m.slots, users, p.vm, p.id);
    assert users - {p.id} == StoredUsers(m) + InFlight(n);
  }

  lemma SettledUsers(m: Shared, p: Pc, m': Shared, n: Pc)
    requires Settles(m, p, m', n)
    ensures StoredUsers(m') == StoredUsers(m)[p.id := p.vm]
  {
    var rec: SandboxRecord :| rec.vmId == p.vm && m'.store == m.store[p.id := rec];
  }

  lemma SettlesDescribes(m: Shared, p: Pc, m': Shared, n: Pc)
    requires Settles(m, p, m', n) && Describes(m.slots, StoredUsers(m) + InFlight(p))
    ensures Describes(m'.slots, StoredUsers(m') + InFlight(n))
  {
    SettledUsers(m, p, m', n);
    PutIsPlus(StoredUsers(m), p.id, p.vm);
  }

  lemma PutIsPlus(users: map<string, string>, id: string, vm: string)
    ensures users + map[id := vm] == users[id := vm] + map[]
  {
  }

  lemma ShiftDescribes(c: Config, m: Shared, p: Pc, m': Shared, n: Pc)
    requires Setting(c) && Shift(c, m, p, m', n) && Describes(m.slots, StoredUsers(m) + InFlight(p))
    ensures Describes(m'.slots, StoredUsers(m') + InFlight(n))
  {
    if Quiet(m, p, m', n) {
      SameUsers(m, m');
    } else if TakesSlot(c, m, p, m', n) {
      TakesSlotDescribes(c, m, p, m', n);
    } else if GivesBack(m, p, m', n) {
      GivesBackDescribes(m, p, m', n);
    } else {
      SettlesDescribes(m, p, m', n);
    }
  }

  // ---------- Moves of the thread inside the locked region ----------

  lemma EntryKeeps(c: Config, p: Pc, m: Shared, n: Pc, m': Shared)
    requires MemInv(c, m) && PcInv(c, m, p) && EntryMove(c, p, m, n, m') && !StartsDestroy(p, n)
    ensures MemInv(c, m') && PcInv(c, m', n) && SpawnFrame(m, m') && Shift(c, m, p, m', n)
  {
  }

  lemma CachingKeeps(c: Config, p: Pc, m: Shared, n: Pc, m': Shared)
    requires p.Caching? && MemInv(c, m) && PcInv(c, m, p) && FinishMove(c, p, m, n, m')
    ensures MemInv(c, m') && PcInv(c, m', n) && SpawnFrame(m, m')
  {
  }

  lemma FinishKeeps(c: Config, p: Pc, m: Shared, n: Pc, m': Shared)
    requires MemInv(c, m) && PcInv(c, m, p) && FinishMove(c, p, m, n, m')
    ensures MemInv(c, m') && PcInv(c, m', n) && SpawnFrame(m, m') && Shift(c, m, p, m', n)
  {
    if p.Caching? {
      CachingKeeps(c, p, m, n, m');
    }
  }

  lemma AdmittedShifts(c: Config, p: Pc, m: Shared, n: Pc, m': Shared)
    requires p.Admitted? && MemInv(c, m) && PoolMove(c, p, m, n, m')
    ensures Shift(c, m, p, m', n)
  {
    assert n.Slotted? ==> n.id !in m.used && n.id !in m.store;
  }

  lemma AdmittedKeeps(c: Config, p: Pc, m: Shared, n: Pc, m': Shared)
    requires p.Admitted?
    requires MemInv(c, m) && PcInv(c, m, p) && PoolMove(c, p, m, n, m')
    ensures MemInv(c, m') && PcInv(c, m', n) && SpawnFrame(m, m')
  {
    if n.Slotted? {
      AddUserMem(c, m, n.vm);
      IssueMem(c, m.(slots := AddUser(m.slots, n.vm)), n.id);
    } else if n.PoolMiss? {
      IssueMem(c, m, n.id);
    }
  }

  lemma AddUserMem(c: Config, m: Shared, vm: string)
    requires MemInv(c, m) && vm in m.slots
    ensures MemInv(c, m.(slots := AddUser(m.slots, vm)))
  {
  }

  lemma IssueMem(c: Config, m: Shared, id: string)
    requires MemInv(c, m) && id !in m.claimed
    ensures MemInv(c, Issue(m, id)) && SpawnFrame(m, Issue(m, id))
  {
  }

  lemma PoolMissKeeps(c: Config, p: Pc, m: Shared, n: Pc, m': Shared)
    requires p.PoolMiss?
    requires Setting(c) && MemInv(c, m) && PcInv(c, m, p) && PoolMove(c, p, m, n, m')
    ensures MemInv(c, m') && PcInv(c, m', n) && SpawnFrame(m, m') && Shift(c, m, p, m', n)
  {
  }

  lemma VmBootedKeeps(c: Config, p: Pc, m: Shared, n: Pc, m': Shared)
    requires p.VmBooted?
    requires Setting(c) && MemInv(c, m) && PcInv(c, m, p) && PoolMove(c, p, m, n, m')
    ensures MemInv(c, m') && PcInv(c, m', n) && SpawnFrame(m, m') && Shift(c, m, p, m', n)
  {
  }

  lemma VmLeasedKeeps(c: Config, p: Pc, m: Shared, n: Pc, m': Shared)
    requires p.VmLeased?
    requires Setting(c) && MemInv(c, m) && PcInv(c, m, p) && PoolMove(c, p, m, n, m')
    ensures MemInv(c, m') && PcInv(c, m', n) && SpawnFrame(m, m')
  {
    if n.VmStored? {
      SettledMem(c, m, p.vm, VmRow(c, p.req));
    }
  }

  lemma VmLeasedShifts(c: Config, p: Pc, m: Shared, n: Pc, m': Shared)
    requires p.VmLeased? && PoolMove(c, p, m, n, m')
    ensures Quiet(m, p, m', n)
  {
    if n.VmStored? {
      assert NewPlainRow(m, p.vm, VmRow(c, p.req), m');
    }
  }

  lemma VmStoredKeeps(c: Config, p: Pc, m: Shared, n: Pc, m': Shared)
    requires p.VmStored?
    requires Setting(c) && MemInv(c, m) && PcInv(c, m, p) && PoolMove(c, p, m, n, m')
    ensures MemInv(c, m') && PcInv(c, m', n) && SpawnFrame(m, m') && Shift(c, m, p, m', n)
  {
    assert Quiet(m, p, m', n);
  }

  lemma VmCachedKeeps(c: Config, p: Pc, m: Shared, n: Pc, m': Shared)
    requires p.VmCached?
    requires Setting(c) && MemInv(c, m) && PcInv(c, m, p) && PoolMove(c, p, m, n, m')
    ensures MemInv(c, m') && PcInv(c, m', n) && SpawnFrame(m, m') && Shift(c, m, p, m', n)
  {
    assert TakesSlot(c, m, p, m', n);
  }

  lemma DropSlotMem(c: Config, m: Shared, vm: string)
    requires MemInv(c, m)
    ensures MemInv(c, DropSlot(m, vm)) && SpawnFrame(m, DropSlot(m, vm))
  {
  }

  lemma SlottedKeeps(c: Config, p: Pc, m: Shared, n: Pc, m': Shared)
    requires p.Slotted?
    requires MemInv(c, m) && PcInv(c, m, p) && SlotMove(c, p, m, n, m')
    ensures MemInv(c, m') && PcInv(c, m', n) && SpawnFrame(m, m')
  {
    DropSlotMem(c, m, p.vm);
  }

  lemma SettledMem(c: Config, m: Shared, id: string, rec: SandboxRecord)
    requires MemInv(c, m) && NewSandbox(m, id) && rec.workerId == c.Local() && rec.state == Running
    ensures var m' := m.(store := m.store[id := rec]); MemInv(c, m') && SpawnFrame(m, m')
  {
  }

  lemma SlotLeasedKeeps(c: Config, p: Pc, m: Shared, n: Pc, m': Shared)
    requires p.SlotLeased?
    requires MemInv(c, m) && PcInv(c, m, p) && SlotMove(c, p, m, n, m')
    ensures MemInv(c, m') && PcInv(c, m', n) && SpawnFrame(m, m')
  {
    if n.Abandoning? {
      DropSlotMem(c, m, p.vm);
    } else {
      SettledMem(c, m, p.id, NewRow(p.req, p.vm, c.Local()));
    }
  }

  /** A Spawn's move, of any kind that occurs in pool mode. */
  lemma SpawnKeeps(c: Config, p: Pc, m: Shared, n: Pc, m': Shared)
    requires Setting(c) && MemInv(c, m) && PcInv(c, m, p)
    requires EntryMove(c, p, m, n, m') || FinishMove(c, p, m, n, m') || PoolMove(c, p, m, n, m') || SlotMove(c, p, m, n, m')
    requires !StartsDestroy(p, n)
    ensures MemInv(c, m') && PcInv(c, m', n) && SpawnFrame(m, m') && Shift(c, m, p, m', n)
  {
    if EntryMove(c, p, m, n, m') {
      EntryKeeps(c, p, m, n, m');
    } else if FinishMove(c, p, m, n, m') {
      FinishKeeps(c, p, m, n, m');
    } else if SlotMove(c, p, m, n, m') {
      if p.Slotted? {
        SlottedKeeps(c, p, m, n, m');
      } else {
        SlotLeasedKeeps(c, p, m, n, m');
      }
    } else if p.Admitted? {
      AdmittedKeeps(c, p, m, n, m');
      AdmittedShifts(c, p, m, n, m');
    } else if p.PoolMiss? {
      PoolMissKeeps(c, p, m, n, m');
    } else if p.VmBooted? {
      VmBootedKeeps(c, p, m, n, m');
    } else if p.VmLeased? {
      VmLeasedKeeps(c, p, m, n, m');
      VmLeasedShifts(c, p, m, n, m');
    } else if p.VmStored? {
      VmStoredKeeps(c, p, m, n, m');
    } else {
      VmCachedKeeps(c, p, m, n, m');
    }
  }

  // ---------- Destroy's moves ----------

  /** What a Destroy's moves leave alone for everyone else. */
  ghost predicate TearFrame(m: Shared, m': Shared) {
    && m'.used == m.used && m'.claimed == m.claimed && m'.store.Keys == m.store.Keys
    && (forall id :: id in m.store ==>
          m'.store[id].vmId == m.store[id].vmId && m'.store[id].workerId == m.store[id].workerId)
    && (forall id :: id in m.store && m'.store[id] != m.store[id] ==> id in m.claimed || id in m.retired)
    && m.freed <= m'.freed
    && m'.slots.Keys <= m.slots.Keys && m.retired <= m'.retired <= m.retired + m.slots.Keys
  }

  ghost predicate OnlyLeasesAndCache(m: Shared, m': Shared) {
    && m' == m.(leases := m'.leases, cache := m'.cache)
    && forall id :: id in m'.cache ==> id in m.cache && m'.cache[id] == m.cache[id]
  }

  ghost predicate MarksRow(m: Shared, id: string, m': Shared) {
    m' == m.(store := MarkDestroyed(m.store, id)) && (id in m.claimed || id in m.retired)
  }

  ghost predicate FreesSlot(m: Shared, id: string, vm: string, m': Shared) {
    && m' == DropSlot(m, vm).(freed := m.freed + {id})
    && id in m.store && id !in m.freed && m.store[id].vmId == vm != ""
  }

  /** The three ways a Destroy's move touches memory. */
  ghost predicate Tearing(m: Shared, p: Pc, m': Shared) {
    || OnlyLeasesAndCache(m, m')
    || (p.Marking? && MarksRow(m, p.id, m'))
    || (p.VmMarking? && MarksRow(m, p.vm, m'))
    || (p.Held? && FreesSlot(m, p.id, p.sb.vmId, m'))
  }

  /** Where Destroy goes up to the release. */
  ghost predicate GoesOn(c: Config, p: Pc, m: Shared, n: Pc, m': Shared) {
    || (p.Destroying? && (n == AtRest || n == Held(p.id, p.sb)))
    || (p.Held? && m' == m && n == Marking(p.id, c.Local()))
    || (p.Held? && FreesSlot(m, p.id, p.sb.vmId, m')
        && n == if Empties(m.slots, p.sb.vmId) then VmMarking(p.id, p.sb.vmId) else Marking(p.id, c.Local()))
  }

  lemma TeardownTears(c: Config, p: Pc, m: Shared, n: Pc, m': Shared)
    requires Setting(c) && PcInv(c, m, p) && TeardownMove(c, p, m, n, m') && ReleasesFirst(p, m)
    ensures Tearing(m, p, m')
    ensures GoesOn(c, p, m, n, m')
  {
  }

  lemma CleanupTears(c: Config, p: Pc, m: Shared, n: Pc, m': Shared)
    requires Setting(c) && MemInv(c, m) && PcInv(c, m, p) && CleanupMove(c, p, m, n, m')
    ensures Tearing(m, p, m') && !p.Held?
    ensures PcInv(c, m, n)
  {
  }

  lemma LeasesAndCacheMem(c: Config, m: Shared, p: Pc, m': Shared)
    requires MemInv(c, m) && OnlyLeasesAndCache(m, m')
    ensures MemInv(c, m') && TearFrame(m, m')
  {
  }

  lemma FreesSlotMem(c: Config, m: Shared, id: string, vm: string, m': Shared)
    requires MemInv(c, m) && FreesSlot(m, id, vm, m')
    ensures MemInv(c, m') && TearFrame(m, m')
    ensures Empties(m.slots, vm) ==> vm in m'.retired
  {
    DropSlotMem(c, m, vm);
  }

  lemma MarksRowFrame(m: Shared, id: string, m': Shared)
    requires MarksRow(m, id, m')
    ensures TearFrame(m, m')
  {
  }

  lemma MarksRowMem(c: Config, m: Shared, id: string, m': Shared)
    requires MemInv(c, m) && MarksRow(m, id, m')
    ensures MemInv(c, m')
  {
  }

  lemma TearingKeeps(c: Config, m: Shared, p: Pc, m': Shared)
    requires MemInv(c, m) && Tearing(m, p, m')
    ensures MemInv(c, m') && TearFrame(m, m')
  {
    if p.Held? && FreesSlot(m, p.id, p.sb.vmId, m') {
      FreesSlotMem(c, m, p.id, p.sb.vmId, m');
    } else if p.Marking? && MarksRow(m, p.id, m') {
      MarksRowMem(c, m, p.id, m');
      MarksRowFrame(m, p.id, m');
    } else if p.VmMarking? && MarksRow(m, p.vm, m') {
      MarksRowMem(c, m, p.vm, m');
      MarksRowFrame(m, p.vm, m');
    } else {
      LeasesAndCacheMem(c, m, p, m');
    }
  }

  lemma FreedUsers(m: Shared, id: string, vm: string, m': Shared)
    requires FreesSlot(m, id, vm, m')
    ensures StoredUsers(m') == StoredUsers(m) - {id} && id in StoredUsers(m) && StoredUsers(m)[id] == vm
  {
  }

  lemma MinusThenPlus(stored: map<string, string>, flight: map<string, string>, id: string)
    requires id in stored && id !in flight
    ensures stored - {id} + flight == stored + flight - {id} && (stored + flight)[id] == stored[id]
  {
  }

  lemma MarkedUsers(m: Shared, id: string, m': Shared)
    requires MarksRow(m, id, m')
    ensures StoredUsers(m') == StoredUsers(m)
  {
  }

  /** Only the release of the slot touches counters and assignment, and it is made for a
      sandbox that holds one. */
  lemma TearingDescribes(c: Config, m: Shared, p: Pc, m': Shared, inside: Pc)
    requires Tearing(m, p, m') && PcInv(c, m, inside) && Describes(m.slots, StoredUsers(m) + InFlight(inside))
    ensures Describes(m'.slots, StoredUsers(m') + InFlight(inside))
  {
    if p.Held? && FreesSlot(m, p.id, p.sb.vmId, m') {
      FreedUsers(m, p.id, p.sb.vmId, m');
      MinusThenPlus(StoredUsers(m), InFlight(inside), p.id);
      ReleaseDescribesIffHeld(m.slots, StoredUsers(m) + InFlight(inside), p.sb.vmId, p.id);
    } else if p.Marking? && MarksRow(m, p.id, m') {
      MarkedUsers(m, p.id, m');
    } else if p.VmMarking? && MarksRow(m, p.vm, m') {
      MarkedUsers(m, p.vm, m');
    } else {
      SameUsers(m, m');
    }
  }

  lemma TeardownKeeps(c: Config, p: Pc, m: Shared, n: Pc, m': Shared)
    requires MemInv(c, m) && PcInv(c, m, p) && TearFrame(m, m') && GoesOn(c, p, m, n, m')
    ensures PcInv(c, m', n)
  {
    if p.Held? && FreesSlot(m, p.id, p.sb.vmId, m') {
      FreesSlotMem(c, m, p.id, p.sb.vmId, m');
    }
  }

  lemma TearKeeps(c: Config, p: Pc, m: Shared, n: Pc, m': Shared)
    requires Setting(c) && MemInv(c, m) && PcInv(c, m, p) && ReleasesFirst(p, m)
    requires TeardownMove(c, p, m, n, m') || CleanupMove(c, p, m, n, m')
    ensures Tearing(m, p, m') && MemInv(c, m') && PcInv(c, m', n) && TearFrame(m, m')
  {
    if TeardownMove(c, p, m, n, m') {
      TeardownTears(c, p, m, n, m');
      TearingKeeps(c, m, p, m');
      TeardownKeeps(c, p, m, n, m');
    } else {
      CleanupTears(c, p, m, n, m');
      TearingKeeps(c, m, p, m');
      OthersUnderTear(c, m, m', n);
    }
  }

  lemma StartKeeps(c: Config, m: Shared, n: Pc, m': Shared)
    requires MemInv(c, m) && EntryMove(c, AtRest, m, n, m') && StartsDestroy(AtRest, n)
    ensures MemInv(c, m') && PcInv(c, m', n) && m' == m.(claimed := m.claimed + {n.id})
  {
  }

  // ---------- Other threads ----------

  lemma OthersUnderSpawn(c: Config, m: Shared, m': Shared, pc: Pc)
    requires MemInv(c, m') && PcInv(c, m, pc) && !HoldsLock(pc) && SpawnFrame(m, m')
    ensures PcInv(c, m', pc)
  {
  }

  lemma OthersUnderTear(c: Config, m: Shared, m': Shared, pc: Pc)
    requires MemInv(c, m) && PcInv(c, m, pc) && TearFrame(m, m')
    ensures PcInv(c, m', pc)
  {
  }

  // ---------- Steps ----------

  ghost predicate Inv(c: Config, s: State) {
    && LockInv(s) && MemInv(c, s.mem)
    && (forall t :: t in s.pcs ==> PcInv(c, s.mem, s.pcs[t]))
    && Describes(s.mem.slots, UsersOf(s))
  }

  lemma StartStep(c: Config, s: State, s': State, t: nat)
    requires Inv(c, s) && Turn(s, s', t) && StartsDestroy(s.pcs[t], s'.pcs[t])
    requires s'.mem == s.mem.(claimed := s.mem.claimed + {s'.pcs[t].id})
    requires MemInv(c, s'.mem) && PcInv(c, s'.mem, s'.pcs[t])
    ensures Inv(c, s')
  {
    LockStep(s, s', t);
    SameUsers(s.mem, s'.mem);
    assert Inside(s') == Inside(s);
    StartOthers(c, s, s', t);
  }

  lemma StartOthers(c: Config, s: State, s': State, t: nat)
    requires Turn(s, s', t) && StartsDestroy(s.pcs[t], s'.pcs[t])
    requires s'.mem == s.mem.(claimed := s.mem.claimed + {s'.pcs[t].id})
    requires forall u :: u in s.pcs ==> PcInv(c, s.mem, s.pcs[u])
    ensures forall u :: u in s'.pcs && u != t ==> PcInv(c, s'.mem, s'.pcs[u])
  {
    forall u | u in s'.pcs && u != t ensures PcInv(c, s'.mem, s'.pcs[u]) {
      assert s'.pcs[u] == s.pcs[u];
    }
  }

  lemma SpawnOthers(c: Config, s: State, s': State, t: nat)
    requires LockInv(s) && Turn(s, s', t) && MemInv(c, s'.mem) && SpawnFrame(s.mem, s'.mem)
    requires HoldsLock(s.pcs[t]) || s'.mem == s.mem
    requires forall u :: u in s.pcs ==> PcInv(c, s.mem, s.pcs[u])
    ensures forall u :: u in s'.pcs && u != t ==> PcInv(c, s'.mem, s'.pcs[u])
  {
    forall u | u in s'.pcs && u != t
      ensures PcInv(c, s'.mem, s'.pcs[u])
    {
      assert s'.pcs[u] == s.pcs[u];
      if !HoldsLock(s.pcs[u]) {
        OthersUnderSpawn(c, s.mem, s'.mem, s.pcs[u]);
      }
    }
  }

  lemma SpawnUsers(c: Config, s: State, s': State, t: nat)
    requires Setting(c) && LockInv(s) && Turn(s, s', t)
    requires HoldsLock(s.pcs[t]) || s'.mem == s.mem
    requires Shift(c, s.mem, s.pcs[t], s'.mem, s'.pcs[t])
    requires Describes(s.mem.slots, UsersOf(s))
    ensures Describes(s'.mem.slots, UsersOf(s'))
  {
    var p, n := s.pcs[t], s'.pcs[t];
    if HoldsLock(p) || HoldsLock(n) {
      assert InFlight(Inside(s)) == InFlight(p) && InFlight(Inside(s')) == InFlight(n);
      ShiftDescribes(c, s.mem, p, s'.mem, n);
    } else {
      assert s'.mem == s.mem && Inside(s') == Inside(s);
    }
  }

  lemma SpawnStep(c: Config, s: State, s': State, t: nat)
    requires Setting(c) && Inv(c, s) && Turn(s, s', t)
    requires var p, m, n, m' := s.pcs[t], s.mem, s'.pcs[t], s'.mem;
             && MemInv(c, m') && PcInv(c, m', n) && SpawnFrame(m, m') && Shift(c, m, p, m', n)
             && (HoldsLock(p) || m' == m)
    ensures Inv(c, s')
  {
    LockStep(s, s', t);
    SpawnOthers(c, s, s', t);
    SpawnUsers(c, s, s', t);
  }

  lemma TearOthers(c: Config, s: State, s': State, t: nat)
    requires MemInv(c, s.mem) && Turn(s, s', t) && TearFrame(s.mem, s'.mem)
    requires forall u :: u in s.pcs ==> PcInv(c, s.mem, s.pcs[u])
    ensures forall u :: u in s'.pcs && u != t ==> PcInv(c, s'.mem, s'.pcs[u])
  {
    forall u | u in s'.pcs && u != t
      ensures PcInv(c, s'.mem, s'.pcs[u])
    {
      assert s'.pcs[u] == s.pcs[u];
      OthersUnderTear(c, s.mem, s'.mem, s.pcs[u]);
    }
  }

  lemma TearUsers(c: Config, s: State, s': State, t: nat)
    requires LockInv(s) && Turn(s, s', t) && !HoldsLock(s.pcs[t]) && !HoldsLock(s'.pcs[t])
    requires Tearing(s.mem, s.pcs[t], s'.mem) && Describes(s.mem.slots, UsersOf(s))
    requires forall u :: u in s.pcs ==> PcInv(c, s.mem, s.pcs[u])
    ensures Describes(s'.mem.slots, UsersOf(s'))
  {
    assert Inside(s') == Inside(s);
    TearingDescribes(c, s.mem, s.pcs[t], s'.mem, Inside(s));
  }

  lemma TearStep(c: Config, s: State, s': State, t: nat)
    requires Setting(c) && Inv(c, s) && Turn(s, s', t)
    requires var p, m, n, m' := s.pcs[t], s.mem, s'.pcs[t], s'.mem;
             && Tearing(m, p, m') && MemInv(c, m') && PcInv(c, m', n) && TearFrame(m, m')
             && !HoldsLock(p) && !HoldsLock(n)
    ensures Inv(c, s')
  {
    LockStep(s, s', t);
    TearOthers(c, s, s', t);
    TearUsers(c, s, s', t);
  }

  lemma StartCase(c: Config, s: State, s': State, t: nat)
    requires Setting(c) && Inv(c, s) && StepBy(c, ReleasedOnce, s, s', t)
    requires StartsDestroy(s.pcs[t], s'.pcs[t])
    ensures Inv(c, s') && s'.mem.retired == s.mem.retired
  {
    StartKeeps(c, s.mem, s'.pcs[t], s'.mem);
    StartStep(c, s, s', t);
  }

  lemma TearCase(c: Config, s: State, s': State, t: nat)
    requires Setting(c) && Inv(c, s) && Turn(s, s', t) && ReleasesFirst(s.pcs[t], s.mem)
    requires TeardownMove(c, s.pcs[t], s.mem, s'.pcs[t], s'.mem) || CleanupMove(c, s.pcs[t], s.mem, s'.pcs[t], s'.mem)
    ensures Inv(c, s') && s.mem.retired <= s'.mem.retired
  {
    assert PcInv(c, s.mem, s.pcs[t]);
    TearKeeps(c, s.pcs[t], s.mem, s'.pcs[t], s'.mem);
    TearStep(c, s, s', t);
  }

  /** In pool mode a move is a start of Destroy, a Destroy's move, or a Spawn's move. */
  lemma SpawnCase(c: Config, s: State, s': State, t: nat)
    requires Setting(c) && Inv(c, s) && Step(c, s, s', t) && !StartsDestroy(s.pcs[t], s'.pcs[t])
    requires !TeardownMove(c, s.pcs[t], s.mem, s'.pcs[t], s'.mem) && !CleanupMove(c, s.pcs[t], s.mem, s'.pcs[t], s'.mem)
    ensures Inv(c, s') && s.mem.retired <= s'.mem.retired
  {
    assert PcInv(c, s.mem, s.pcs[t]);
    SpawnKeeps(c, s.pcs[t], s.mem, s'.pcs[t], s'.mem);
    SpawnStep(c, s, s', t);
  }

  lemma StepKeeps(c: Config, s: State, s': State, t: nat)
    requires Setting(c) && Inv(c, s) && StepBy(c, ReleasedOnce, s, s', t)
    ensures Inv(c, s') && s.mem.retired <= s'.mem.retired
  {
    var p, m, n, m' := s.pcs[t], s.mem, s'.pcs[t], s'.mem;
    if StartsDestroy(p, n) {
      StartCase(c, s, s', t);
    } else if TeardownMove(c, p, m, n, m') || CleanupMove(c, p, m, n, m') {
      TearCase(c, s, s', t);
    } else {
      SpawnCase(c, s, s', t);
    }
  }
}
