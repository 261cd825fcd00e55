/** The sandbox manager as a step system: any number of threads, each running Spawn or
    Destroy, interleaved at every access to shared state. A step is one critical section
    with the store or provider call that decides it, of one thread. Provider calls, leases,
    row inserts and listings can fail at any time, and with an unreliable store so can the
    placement's listing and Destroy's updates. Destroy's look-up of cache and row is one
    step, in which the row is not misread. */
module Orchestrator {
  import opened Text
  import opened Records
  import opened Admission
  import opened VmPool

  datatype Config = Config(
    limits: Limits, pooled: bool, maxVMs: int, maxUsersPerVM: int,
    reliableStore: bool, reliableReads: bool)
  {
    function Local(): string { limits.cluster.localId }
  }

  /** Where a thread is. Up to Passed it holds no lock; from Checking to Unlocking it holds
      the admission lock; the rest belongs to Destroy. */
  datatype Pc =
    | AtRest
    | Waiting(req: Request)                             // head of the admission loop
    | Passed(req: Request)                              // unlocked check passed, lock wanted
    | Checking(req: Request)                            // lock held, second check pending
    | Admitted(req: Request)
    | Placed(req: Request, worker: string)              // placement recomputed
    | Booted(req: Request, id: string)                  // local runtime started
    | RemoteLeased(req: Request, id: string, worker: string)
    | Leased(id: string, rec: SandboxRecord)            // lease held, row to be written
    | PoolMiss(req: Request, id: string)                // no VM has room, a new one is allowed
    | VmBooted(req: Request, id: string, vm: string)
    | VmLeased(req: Request, id: string, vm: string)
    | VmStored(req: Request, id: string, vm: string)
    | VmCached(req: Request, id: string, vm: string)
    | Slotted(req: Request, id: string, vm: string)     // one user slot of vm is taken
    | SlotLeased(req: Request, id: string, vm: string)
    | Caching(id: string, rec: SandboxRecord)           // row written, cache entry pending
    | Abandoning(id: string, holder: string)            // spawn failed, lease to be released
    | Unlocking
    | Destroying(id: string, sb: SandboxRecord)         // snapshot taken
    | Held(id: string, sb: SandboxRecord)               // lease (re)acquired
    | VmMarking(id: string, vm: string)                 // vm was emptied by this release
    | VmUnleasing(id: string, vm: string)
    | VmUncaching(id: string, vm: string)
    | Marking(id: string, holder: string)
    | Unleasing(id: string, holder: string)
    | Uncaching(id: string)

  /** Shared memory and the database. `used`, `claimed`, `freed` and `retired` only record
      history: the ids ever issued, the ids ever passed to Destroy, the pooled sandboxes
      whose slot was released by Destroy, and the VMs that a release emptied. */
  datatype Shared = Shared(
    store: Store, leases: map<string, string>, cache: Store, slots: Slots,
    used: set<string>, claimed: set<string>, freed: set<string>, retired: set<string>)

  datatype State = State(lock: Option<nat>, pcs: map<nat, Pc>, mem: Shared)

  /** The region between `admissionMu.Lock` and its unlock. */
  predicate HoldsLock(pc: Pc) {
    match pc
    case AtRest | Waiting(_) | Passed(_) => false
    case Destroying(_, _) | Held(_, _) | VmMarking(_, _) | VmUnleasing(_, _) | VmUncaching(_, _) => false
    case Marking(_, _) | Unleasing(_, _) | Uncaching(_) => false
    case _ => true
  }

  predicate Fresh(m: Shared, id: string) { id !in m.used && id !in m.claimed && id != "" }

  function Issue(m: Shared, id: string): Shared { m.(used := m.used + {id}) }

  /** `ReleaseLease`: only the holder's lease goes. */
  function ReleaseLease(m: Shared, id: string, holder: string): Shared {
    if id in m.leases && m.leases[id] == holder then m.(leases := m.leases - {id}) else m
  }

  /** `AcquireLease` on a lease that is free or already the holder's. */
  predicate Acquires(m: Shared, id: string, holder: string, m': Shared) {
    (id !in m.leases || m.leases[id] == holder) && m' == m.(leases := m.leases[id := holder])
  }

  /** `CreateSandbox`: a plain insert, refused when the id has a row already. */
  predicate Inserts(m: Shared, id: string, rec: SandboxRecord, m': Shared) {
    id !in m.store && m' == m.(store := m.store[id := rec])
  }

  /** Destroy's state update, which an unreliable store may lose. */
  predicate Marks(c: Config, m: Shared, id: string, m': Shared) {
    m' == m.(store := MarkDestroyed(m.store, id)) || (!c.reliableStore && m' == m)
  }

  /** `VMPoolManager.Release`. */
  function DropSlot(m: Shared, vm: string): Shared {
    m.(slots := DropUser(m.slots, vm), retired := if Empties(m.slots, vm) then m.retired + {vm} else m.retired)
  }

  function NewRow(req: Request, vm: string, worker: string): SandboxRecord {
    SandboxRecord(Running, req.provider, req.owner, vm, worker)
  }

  function VmRow(c: Config, req: Request): SandboxRecord {
    SandboxRecord(Running, req.provider, "", "", c.Local())
  }

  predicate IsRemote(c: Config, sb: SandboxRecord) { OwnedElsewhere(sb, c.Local()) }

  /** What Destroy knows about `id` when it starts: the cache entry, else the row, else nothing. */
  function Snapshot(c: Config, m: Shared, id: string): Pc {
    if id in m.cache then Destroying(id, m.cache[id])
    else if id in m.store then Destroying(id, m.store[id])
    else Marking(id, c.Local())
  }

  // ---------- Moves: one thread goes from p to n and memory from m to m' ----------

  predicate StartsDestroy(p: Pc, n: Pc) { p.AtRest? && (n.Destroying? || n.Marking?) }

  /** Entering Spawn or Destroy, and the admission loop. */
  ghost predicate EntryMove(c: Config, p: Pc, m: Shared, n: Pc, m': Shared) {
    match p
    case AtRest =>
      || (n.Waiting? && m' == m)
      || (StartsDestroy(p, n) && n == Snapshot(c, m, n.id) && m' == m.(claimed := m.claimed + {n.id}))
    case Waiting(req) =>
      m' == m &&
      var d := Evaluate(c.limits, m.store, req);
      n == AtRest || (d.Allowed? && n == Passed(req)) || (d.Denied? && d.queueable && c.limits.queueing && n == p)
    case Passed(req) => m' == m && n == Checking(req)
    case Checking(req) =>
      m' == m &&
      (n == AtRest
       || match Evaluate(c.limits, m.store, req)
          case Allowed => n == Admitted(req)
          case Denied(_, queueable) => queueable && c.limits.queueing && n == Waiting(req))
    case Unlocking => m' == m && n == AtRest
    case _ => false
  }

  /** Spawn with one runtime per sandbox, local or on a remote worker, once admitted. A failed
      listing places it locally. */
  ghost predicate DedicatedMove(c: Config, p: Pc, m: Shared, n: Pc, m': Shared) {
    match p
    case Admitted(req) =>
      !c.pooled && m' == m &&
      var chosen := PlaceFor(c.limits, m.store, req.provider).selected;
      || n == Placed(req, if chosen == "" then c.Local() else chosen)
      || (!c.reliableReads && n == Placed(req, c.Local()))
    case Placed(req, worker) =>
      || (n == Unlocking && m' == m)
      || (worker == c.Local() && n.Booted? && n.req == req && Fresh(m, n.id) && m' == Issue(m, n.id))
      || (worker != c.Local() && n.RemoteLeased? && n.req == req && n.worker == worker && Fresh(m, n.id)
          && Acquires(Issue(m, n.id), n.id, worker, m'))
    case Booted(req, id) =>
      || (n == Unlocking && m' == m)
      || (n == Leased(id, NewRow(req, "", c.Local())) && Acquires(m, id, c.Local(), m'))
    case RemoteLeased(req, id, worker) =>
      && m' == m
      && (n == Abandoning(id, worker) || (n.Leased? && n == Leased(id, NewRow(req, n.rec.vmId, worker))))
    case _ => false
  }

  /** Writing the row, filling the cache, and giving up; shared by the spawn paths. */
  ghost predicate FinishMove(c: Config, p: Pc, m: Shared, n: Pc, m': Shared) {
    match p
    case Leased(id, rec) =>
      || (n == Abandoning(id, rec.workerId) && m' == m)
      || (n == Caching(id, rec) && Inserts(m, id, rec, m'))
    case Caching(id, rec) => n == Unlocking && m' == m.(cache := m.cache[id := rec])
    case Abandoning(id, holder) => n == Unlocking && m' == ReleaseLease(m, id, holder)
    case _ => false
  }

  /** Finding a VM for a pooled sandbox, booting a new one when none has room. */
  ghost predicate PoolMove(c: Config, p: Pc, m: Shared, n: Pc, m': Shared) {
    match p
    case Admitted(req) =>
      c.pooled &&
      ( || (n.Slotted? && n.req == req && HasRoom(m.slots, n.vm) && Fresh(m, n.id)
            && m' == Issue(m, n.id).(slots := AddUser(m.slots, n.vm)))
        || ((forall vm :: !HasRoom(m.slots, vm)) &&
            if |m.slots| >= c.maxVMs then n == Unlocking && m' == m
            else n.PoolMiss? && n.req == req && Fresh(m, n.id) && m' == Issue(m, n.id)))
    case PoolMiss(req, id) =>
      || (n == Unlocking && m' == m)
      || (n.VmBooted? && n == VmBooted(req, id, n.vm) && Fresh(m, n.vm) && m' == Issue(m, n.vm))
    case VmBooted(req, id, vm) =>
      || (n == Unlocking && m' == m)
      || (n == VmLeased(req, id, vm) && Acquires(m, vm, c.Local(), m'))
    case VmLeased(req, id, vm) =>
      || (n == Abandoning(vm, c.Local()) && m' == m)
      || (n == VmStored(req, id, vm) && Inserts(m, vm, VmRow(c, req), m'))
    case VmStored(req, id, vm) => n == VmCached(req, id, vm) && m' == m.(cache := m.cache[vm := VmRow(c, req)])
    case VmCached(req, id, vm) =>
      n == Slotted(req, id, vm)
      && m' == m.(slots := m.slots[vm := VMSlot(vm, req.provider, "", 1, c.maxUsersPerVM)])
    case _ => false
  }

  /** From a slot on a VM to a pooled sandbox. A failure gives the slot back and ignores
      whether that emptied the VM. */
  ghost predicate SlotMove(c: Config, p: Pc, m: Shared, n: Pc, m': Shared) {
    match p
    case Slotted(req, id, vm) =>
      || (n == Unlocking && m' == DropSlot(m, vm))
      || (n == SlotLeased(req, id, vm) && Acquires(m, id, c.Local(), m'))
    case SlotLeased(req, id, vm) =>
      || (n == Abandoning(id, c.Local()) && m' == DropSlot(m, vm))
      || (n == Caching(id, NewRow(req, vm, c.Local())) && Inserts(m, id, NewRow(req, vm, c.Local()), m'))
    case _ => false
  }

  /** Destroy up to the release of the pool slot. */
  ghost predicate TeardownMove(c: Config, p: Pc, m: Shared, n: Pc, m': Shared) {
    match p
    case Destroying(id, sb) =>
      || (n == AtRest && m' == m)
      || (if IsRemote(c, sb) then
            n == Marking(id, sb.workerId) && id in m.leases && m.leases[id] == sb.workerId && m' == m
          else n == Held(id, sb) && Acquires(m, id, c.Local(), m'))
    case Held(id, sb) =>
      if c.pooled && sb.vmId != "" then
        && m' == DropSlot(m, sb.vmId).(freed := m.freed + {id})
        && n == if Empties(m.slots, sb.vmId) then VmMarking(id, sb.vmId) else Marking(id, c.Local())
      else n == Marking(id, c.Local()) && m' == m
    case _ => false
  }

  /** The rest of Destroy: the emptied VM's row, lease and cache entry, then the sandbox's. */
  ghost predicate CleanupMove(c: Config, p: Pc, m: Shared, n: Pc, m': Shared) {
    match p
    case VmMarking(id, vm) => n == VmUnleasing(id, vm) && Marks(c, m, vm, m')
    case VmUnleasing(id, vm) => n == VmUncaching(id, vm) && m' == ReleaseLease(m, vm, c.Local())
    case VmUncaching(id, vm) => n == Marking(id, c.Local()) && m' == m.(cache := m.cache - {vm})
    case Marking(id, holder) =>
      || (n == Unleasing(id, holder) && Marks(c, m, id, m'))
      || (!c.reliableStore && holder != c.Local() && n == AtRest && m' == m)
    case Unleasing(id, holder) => n == Uncaching(id) && m' == ReleaseLease(m, id, holder)
    case Uncaching(id) => n == AtRest && m' == m.(cache := m.cache - {id})
    case _ => false
  }

  ghost predicate Move(c: Config, p: Pc, m: Shared, n: Pc, m': Shared) {
    || EntryMove(c, p, m, n, m') || DedicatedMove(c, p, m, n, m') || FinishMove(c, p, m, n, m')
    || PoolMove(c, p, m, n, m') || SlotMove(c, p, m, n, m')
    || TeardownMove(c, p, m, n, m') || CleanupMove(c, p, m, n, m')
  }

  // ---------- Steps and runs ----------

  /** Only thread t advances. Entering the locked region takes a free lock, leaving it gives
      the lock up. */
  ghost predicate Turn(s: State, s': State, t: nat) {
    && t in s.pcs && t in s'.pcs
    && s'.pcs == s.pcs[t := s'.pcs[t]]
    && (if HoldsLock(s.pcs[t]) == HoldsLock(s'.pcs[t]) then s'.lock == s.lock
        else if HoldsLock(s'.pcs[t]) then s.lock == None && s'.lock == Some(t)
        else s'.lock == None)
  }

  /** Thread t makes one move. */
  ghost predicate Step(c: Config, s: State, s': State, t: nat) {
    Turn(s, s', t) && Move(c, s.pcs[t], s.mem, s'.pcs[t], s'.mem)
  }

  ghost predicate Initially(s: State) {
    && s.lock == None
    && s.mem == Shared(map[], map[], map[], map[], {}, {}, {}, {})
    && forall t :: t in s.pcs ==> s.pcs[t] == AtRest
  }

  /** What is known of the calls of Destroy: nothing; that no pooled sandbox's slot is released
      twice; that, moreover, Destroy is not called for a pooled sandbox whose row is still to
      be written; that nobody calls Destroy for a sandbox whose slot was released or is about
      to be; or that it is not called for an id that a Spawn has issued and is still
      creating with a runtime of its own. */
  datatype Discipline = Anything | ReleasedOnce | ReleasedAfterRow | NotAgain | AfterSpawnReturned

  /** The sandbox whose slot the Destroy at `pc` has yet to release. */
  function Tears(pc: Pc): Option<string> {
    match pc
    case Destroying(id, sb) => if sb.vmId != "" then Some(id) else None
    case Held(id, sb) => if sb.vmId != "" then Some(id) else None
    case _ => None
  }

  /** The pooled Spawn at `pc` has issued `id` for its sandbox and may still write its row. */
  predicate Bears(pc: Pc, id: string) {
    match pc
    case PoolMiss(_, i) => i == id
    case VmBooted(_, i, _) => i == id
    case VmLeased(_, i, _) => i == id
    case VmStored(_, i, _) => i == id
    case VmCached(_, i, _) => i == id
    case Slotted(_, i, _) => i == id
    case SlotLeased(_, i, _) => i == id
    case _ => false
  }

  /** The Spawn at `pc`, with a runtime of its own, has issued `id` and may still give it a
      lease, a row or a cache entry. */
  predicate Creates(pc: Pc, id: string) {
    match pc
    case Booted(_, i) => i == id
    case RemoteLeased(_, i, _) => i == id
    case Leased(i, _) => i == id
    case Caching(i, _) => i == id
    case _ => false
  }

  /** A release at `pc` is the first one for its sandbox. */
  predicate ReleasesFirst(pc: Pc, m: Shared) {
    pc.Held? && Tears(pc).Some? ==> pc.id !in m.freed
  }

  ghost predicate Obeys(d: Discipline, s: State, t: nat, n: Pc)
    requires t in s.pcs
  {
    match d
    case Anything => true
    case ReleasedOnce => ReleasesFirst(s.pcs[t], s.mem)
    case ReleasedAfterRow =>
      && ReleasesFirst(s.pcs[t], s.mem)
      && (StartsDestroy(s.pcs[t], n) ==> forall u :: u in s.pcs ==> !Bears(s.pcs[u], n.id))
    case NotAgain =>
      StartsDestroy(s.pcs[t], n) ==>
        n.id !in s.mem.freed && forall u :: u in s.pcs ==> Tears(s.pcs[u]) != Some(n.id)
    case AfterSpawnReturned =>
      StartsDestroy(s.pcs[t], n) ==> forall u :: u in s.pcs ==> !Creates(s.pcs[u], n.id)
  }

  ghost predicate StepBy(c: Config, d: Discipline, s: State, s': State, t: nat) {
    Step(c, s, s', t) && Obeys(d, s, t, s'.pcs[t])
  }

  ghost predicate Next(c: Config, d: Discipline, s: State, s': State) {
    exists t :: StepBy(c, d, s, s', t)
  }

  ghost predicate Follows(c: Config, d: Discipline, run: seq<State>, i: nat)
    requires 0 < i < |run|
  {
    Next(c, d, run[i - 1], run[i])
  }

  ghost predicate IsRun(c: Config, d: Discipline, run: seq<State>) {
    && |run| > 0 && Initially(run[0])
    && forall i :: 0 < i < |run| ==> Follows(c, d, run, i)
  }

  // ---------- The lock ----------

  /** Exactly the thread recorded in the lock is between Checking and Unlocking. */
  ghost predicate LockInv(s: State) {
    && (forall t :: t in s.pcs && HoldsLock(s.pcs[t]) ==> s.lock == Some(t))
    && (s.lock.Some? ==> s.lock.value in s.pcs && HoldsLock(s.pcs[s.lock.value]))
  }

  lemma LockStep(s: State, s': State, t: nat)
    requires LockInv(s) && Turn(s, s', t)
    ensures LockInv(s')
  {
  }

  /** Admissions exclude one another in every run. */
  lemma {:induction false} OneAdmissionAtATime(c: Config, d: Discipline, run: seq<State>, i: nat)
    requires IsRun(c, d, run) && i < |run|
    ensures LockInv(run[i])
  {
    if i > 0 {
      OneAdmissionAtATime(c, d, run, i - 1);
      assert Follows(c, d, run, i);
      var t :| StepBy(c, d, run[i - 1], run[i], t);
      LockStep(run[i - 1], run[i], t);
    }
  }
}
