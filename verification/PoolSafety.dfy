/** What the pool guarantees over whole runs in which no slot is released twice: exact
    counters, VMs that stay retired, a bounded number of VMs, and the one way a VM is
    stranded. */
module PoolSafety {
  import opened Text
  import opened Records
  import opened Admission
  import opened Orchestrator
  import opened VmPool
  import opened PoolCounters
  import Counting

  // ---------- Slots that were given back ----------

  /** A slot given back by Destroy belongs to a destroyed row, or its Destroy is on the way
      to marking it. */
  ghost predicate FreedInv(s: State) {
    forall id :: id in s.mem.freed && id in s.mem.store && s.mem.store[id].state != Destroyed ==>
      exists t :: t in s.pcs && Released(s.pcs[t], id)
  }

  lemma NotReleasing(c: Config, p: Pc, m: Shared, n: Pc, m': Shared, id: string)
    requires Released(p, id) && Move(c, p, m, n, m')
    ensures CleanupMove(c, p, m, n, m')
  {
    NotSpawning(c, p, m, n, m', id);
  }

  /** Until the row is marked, the Destroy that gave the slot back stays on its way. */
  lemma StillReleasing(c: Config, p: Pc, m: Shared, n: Pc, m': Shared, id: string)
    requires c.reliableStore && Released(p, id) && CleanupMove(c, p, m, n, m')
    requires id in m'.store && m'.store[id].state != Destroyed
    ensures Released(n, id)
  {
  }

  lemma NotSpawning(c: Config, p: Pc, m: Shared, n: Pc, m': Shared, id: string)
    requires Released(p, id)
    ensures !EntryMove(c, p, m, n, m') && !DedicatedMove(c, p, m, n, m') && !FinishMove(c, p, m, n, m')
    ensures !PoolMove(c, p, m, n, m') && !SlotMove(c, p, m, n, m') && !TeardownMove(c, p, m, n, m')
  {
  }

  /** How one move changes the released sandboxes and their rows. */
  ghost predicate FreesOnlyFor(m: Shared, n: Pc, m': Shared) {
    && (forall id :: id in m.freed && id in m'.store && m'.store[id].state != Destroyed ==>
          id in m.store && m.store[id].state != Destroyed)
    && (forall id :: id in m'.freed && id !in m.freed ==> Released(n, id))
  }

  lemma GoingOnFrees(c: Config, p: Pc, m: Shared, n: Pc, m': Shared)
    requires Tearing(m, p, m') && GoesOn(c, p, m, n, m') && !p.Marking? && !p.VmMarking?
    ensures FreesOnlyFor(m, n, m')
  {
  }

  lemma TeardownFrees(c: Config, p: Pc, m: Shared, n: Pc, m': Shared)
    requires Setting(c) && MemInv(c, m) && PcInv(c, m, p) && TeardownMove(c, p, m, n, m')
    requires ReleasesFirst(p, m)
    ensures FreesOnlyFor(m, n, m')
  {
    TeardownTears(c, p, m, n, m');
    GoingOnFrees(c, p, m, n, m');
  }

  lemma CleanupFrees(c: Config, p: Pc, m: Shared, n: Pc, m': Shared)
    requires Setting(c) && MemInv(c, m) && PcInv(c, m, p) && CleanupMove(c, p, m, n, m')
    ensures FreesOnlyFor(m, n, m')
  {
    CleanupTears(c, p, m, n, m');
  }

  lemma TearFrees(c: Config, p: Pc, m: Shared, n: Pc, m': Shared)
    requires Setting(c) && MemInv(c, m) && PcInv(c, m, p) && ReleasesFirst(p, m)
    requires TeardownMove(c, p, m, n, m') || CleanupMove(c, p, m, n, m')
    ensures FreesOnlyFor(m, n, m')
  {
    if TeardownMove(c, p, m, n, m') {
      TeardownFrees(c, p, m, n, m');
    } else {
      CleanupFrees(c, p, m, n, m');
    }
  }

  lemma FreedChange(c: Config, s: State, s': State, t: nat)
    requires Setting(c) && Inv(c, s) && StepBy(c, ReleasedOnce, s, s', t)
    ensures FreesOnlyFor(s.mem, s'.pcs[t], s'.mem)
  {
    var p, m, n, m' := s.pcs[t], s.mem, s'.pcs[t], s'.mem;
    assert PcInv(c, m, p);
    if StartsDestroy(p, n) {
      StartKeeps(c, m, n, m');
    } else if TeardownMove(c, p, m, n, m') || CleanupMove(c, p, m, n, m') {
      TearFrees(c, p, m, n, m');
    } else {
      SpawnKeeps(c, p, m, n, m');
    }
  }

  lemma FreedStep(c: Config, s: State, s': State, t: nat)
    requires Setting(c) && c.reliableStore && Inv(c, s) && StepBy(c, ReleasedOnce, s, s', t) && FreedInv(s)
    ensures FreedInv(s')
  {
    FreedChange(c, s, s', t);
    forall id | id in s'.mem.freed && id in s'.mem.store && s'.mem.store[id].state != Destroyed
      ensures exists u :: u in s'.pcs && Released(s'.pcs[u], id)
    {
      if id in s.mem.freed {
        var u :| u in s.pcs && Released(s.pcs[u], id);
        if u == t {
          NotReleasing(c, s.pcs[t], s.mem, s'.pcs[t], s'.mem, id);
          StillReleasing(c, s.pcs[t], s.mem, s'.pcs[t], s'.mem, id);
        } else {
          assert s'.pcs[u] == s.pcs[u];
        }
      }
    }
  }

  // ---------- Counters ----------

  lemma InitiallyExact(c: Config, s: State)
    requires Initially(s)
    ensures Inv(c, s) && FreedInv(s)
  {
    assert UsersOf(s) == map[];
  }

  ghost predicate Consistent(c: Config, s: State) { Inv(c, s) && (c.reliableStore ==> FreedInv(s)) }

  lemma ConsistentStep(c: Config, s: State, s': State, t: nat)
    requires Setting(c) && Consistent(c, s) && StepBy(c, ReleasedOnce, s, s', t)
    ensures Consistent(c, s') && s.mem.retired <= s'.mem.retired
  {
    StepKeeps(c, s, s', t);
    if c.reliableStore {
      FreedStep(c, s, s', t);
    }
  }

  lemma {:induction false} AlwaysConsistent(c: Config, run: seq<State>, i: nat)
    requires Setting(c) && IsRun(c, ReleasedOnce, run) && i < |run|
    ensures Consistent(c, run[i])
  {
    if i == 0 {
      InitiallyExact(c, run[0]);
    } else {
      AlwaysConsistent(c, run, i - 1);
      assert Follows(c, ReleasedOnce, run, i);
      ConsistentNext(c, run[i - 1], run[i]);
    }
  }

  lemma ConsistentNext(c: Config, s: State, s': State)
    requires Setting(c) && Consistent(c, s) && Next(c, ReleasedOnce, s, s')
    ensures Consistent(c, s') && s.mem.retired <= s'.mem.retired
  {
    var t :| StepBy(c, ReleasedOnce, s, s', t);
    ConsistentStep(c, s, s', t);
  }

  /** In every run every slot's count is the number of sandboxes on that VM, counting the
      Spawn that has its slot but no row yet and not counting those whose Destroy has given
      the slot back; it lies between one and the limit; and the total that Status reports is
      the number of such sandboxes. */
  lemma CountersAreExact(c: Config, run: seq<State>, i: nat)
    requires Setting(c) && IsRun(c, ReleasedOnce, run) && i < |run|
    ensures forall vm :: vm in run[i].mem.slots ==>
              && run[i].mem.slots[vm].userCount == |Counting.Fiber(UsersOf(run[i]), vm)|
              && 1 <= run[i].mem.slots[vm].userCount <= c.maxUsersPerVM
    ensures forall sb :: sb in UsersOf(run[i]) ==> UsersOf(run[i])[sb] in run[i].mem.slots
    ensures Counting.Total(Users(run[i].mem.slots)) == |UsersOf(run[i])|
  {
    AlwaysConsistent(c, run, i);
    TotalUsersIsAssignmentSize(run[i].mem.slots, UsersOf(run[i]));
  }

  /** Every slot belongs to a VM with a row of its own, which is live unless somebody called
      Destroy for the VM itself. */
  lemma SlotsHaveVms(c: Config, run: seq<State>, i: nat, vm: string)
    requires Setting(c) && IsRun(c, ReleasedOnce, run) && i < |run| && vm in run[i].mem.slots
    ensures vm in run[i].mem.store && run[i].mem.store[vm].vmId == ""
    ensures vm in Live(run[i].mem.store) || vm in run[i].mem.claimed
  {
    AlwaysConsistent(c, run, i);
  }

  // ---------- Retired VMs ----------

  lemma {:induction false} RetiredGrows(c: Config, run: seq<State>, i: nat, j: nat)
    requires Setting(c) && IsRun(c, ReleasedOnce, run) && i <= j < |run|
    ensures run[i].mem.retired <= run[j].mem.retired
    decreases j - i
  {
    if i < j {
      RetiredGrows(c, run, i, j - 1);
      RetiredStep(c, run, j);
    }
  }

  lemma RetiredStep(c: Config, run: seq<State>, j: nat)
    requires Setting(c) && IsRun(c, ReleasedOnce, run) && 0 < j < |run|
    ensures run[j - 1].mem.retired <= run[j].mem.retired
  {
    AlwaysConsistent(c, run, j - 1);
    assert Follows(c, ReleasedOnce, run, j);
    ConsistentNext(c, run[j - 1], run[j]);
  }

  /** The VM that the Destroy at `pc` is taking down. */
  function TakesDown(pc: Pc): Option<string> {
    match pc
    case VmMarking(_, vm) => Some(vm)
    case VmUnleasing(_, vm) => Some(vm)
    case VmUncaching(_, vm) => Some(vm)
    case _ => None
  }

  /** A VM that a Destroy takes down because its release emptied it has, from then on and
      for ever, no slot and no sandbox: it is referenced by nobody and never handed out
      again. */
  lemma EmptiedVmStaysUnused(c: Config, run: seq<State>, i: nat, j: nat, t: nat, vm: string)
    requires Setting(c) && IsRun(c, ReleasedOnce, run) && i <= j < |run|
    requires t in run[i].pcs && TakesDown(run[i].pcs[t]) == Some(vm)
    ensures vm !in run[j].mem.slots
    ensures forall id :: id in UsersOf(run[j]) ==> UsersOf(run[j])[id] != vm
  {
    AlwaysConsistent(c, run, i);
    assert PcInv(c, run[i].mem, run[i].pcs[t]);
    RetiredGrows(c, run, i, j);
    AlwaysConsistent(c, run, j);
  }

  lemma GivenBackVm(c: Config, s: State, m': Shared, n: Pc)
    requires Inv(c, s) && GivesBack(s.mem, Inside(s), m', n)
    ensures var vm := Inside(s).vm;
            && vm in s.mem.slots && m'.store == s.mem.store && vm in s.mem.store
            && (s.mem.store[vm].state != Destroyed || vm in s.mem.claimed)
            && (vm !in m'.slots <==> s.mem.slots[vm].userCount == 1)
  {
    var p := Inside(s);
    assert p.id in UsersOf(s) && UsersOf(s)[p.id] == p.vm;
  }

  /** The Spawn at p gives up the slot it holds on p.vm. */
  ghost predicate FailsWithSlot(c: Config, p: Pc, m: Shared, n: Pc, m': Shared) {
    SlotMove(c, p, m, n, m') && (n.Unlocking? || n.Abandoning?)
  }

  /** A pooled Spawn that fails after getting its slot strands a live VM, with a row but
      neither slot nor sandbox, exactly when it was the VM's only user; otherwise the VM
      keeps its slot. The VM is live unless somebody called Destroy for the VM itself. */
  lemma FailedSpawnStrandsVmIffAlone(c: Config, run: seq<State>, i: nat, t: nat, n: Pc, m': Shared)
    requires Setting(c) && IsRun(c, ReleasedOnce, run) && i < |run| && t in run[i].pcs
    requires FailsWithSlot(c, run[i].pcs[t], run[i].mem, n, m')
    ensures (run[i].pcs[t].Slotted? || run[i].pcs[t].SlotLeased?) && run[i].pcs[t].vm in run[i].mem.slots
    ensures var m, vm := run[i].mem, run[i].pcs[t].vm;
            && (vm in Live(m.store) || vm in m.claimed)
            && (vm in Live(m'.store) && vm !in m'.slots <==> vm in Live(m.store) && m.slots[vm].userCount == 1)
  {
    AlwaysConsistent(c, run, i);
    assert Inside(run[i]) == run[i].pcs[t];
    GivenBackVm(c, run[i], m', n);
  }

  // ---------- The number of VMs ----------

  /** The pool slot the Spawn at `pc` may still insert. */
  function VmRoom(pc: Pc): nat {
    match pc
    case PoolMiss(_, _) => 1
    case VmBooted(_, _, _) => 1
    case VmLeased(_, _, _) => 1
    case VmStored(_, _, _) => 1
    case VmCached(_, _, _) => 1
    case _ => 0
  }

  ghost predicate SizeInv(c: Config, s: State) {
    && |s.mem.slots| <= (if c.maxVMs > 0 then c.maxVMs else 0)
    && forall t :: t in s.pcs ==> |s.mem.slots| + VmRoom(s.pcs[t]) <= if c.maxVMs > 0 then c.maxVMs else 0
  }

  lemma PoolSize(c: Config, p: Pc, m: Shared, n: Pc, m': Shared)
    requires PoolMove(c, p, m, n, m')
    ensures |m'.slots| + VmRoom(n) <= |m.slots| + VmRoom(p) || (n.PoolMiss? && m'.slots == m.slots && |m.slots| < c.maxVMs)
  {
    match p
    case Admitted(req) => AdmittedSize(c, req, m, n, m');
    case VmCached(req, id, vm) => CachedSize(c, p, m, n, m');
    case _ => QuietSize(c, p, m, n, m');
  }

  lemma CachedSize(c: Config, p: Pc, m: Shared, n: Pc, m': Shared)
    requires p.VmCached? && PoolMove(c, p, m, n, m')
    ensures |m'.slots| <= |m.slots| + 1 && VmRoom(n) == 0
  {
    InsertSize(m.slots, p.vm, VMSlot(p.vm, p.req.provider, "", 1, c.maxUsersPerVM));
  }

  lemma InsertSize(slots: Slots, vm: string, slot: VMSlot)
    ensures |slots[vm := slot]| <= |slots| + 1
  {
    assert slots[vm := slot].Keys == slots.Keys + {vm};
  }

  lemma QuietSize(c: Config, p: Pc, m: Shared, n: Pc, m': Shared)
    requires !p.VmCached? && !p.Admitted? && PoolMove(c, p, m, n, m')
    ensures m'.slots == m.slots && VmRoom(n) <= VmRoom(p)
  {
  }

  lemma AdmittedSize(c: Config, req: Request, m: Shared, n: Pc, m': Shared)
    requires PoolMove(c, Admitted(req), m, n, m')
    ensures |m'.slots| == |m.slots|
    ensures VmRoom(n) == 0 || (n.PoolMiss? && m'.slots == m.slots && |m.slots| < c.maxVMs)
  {
    if n.Slotted? {
      assert m'.slots.Keys == m.slots.Keys;
    }
  }

  lemma SlotSize(c: Config, p: Pc, m: Shared, n: Pc, m': Shared)
    requires SlotMove(c, p, m, n, m')
    ensures |m'.slots| <= |m.slots| && VmRoom(n) == 0
  {
    DropSize(m.slots, p.vm);
  }

  lemma DropSize(slots: Slots, vm: string)
    ensures |DropUser(slots, vm)| <= |slots|
  {
    Counting.SubsetSize(DropUser(slots, vm).Keys, slots.Keys);
  }

  lemma EntrySize(c: Config, p: Pc, m: Shared, n: Pc, m': Shared)
    requires EntryMove(c, p, m, n, m') || FinishMove(c, p, m, n, m')
    ensures m'.slots == m.slots && VmRoom(n) == 0
  {
  }

  lemma OtherSize(c: Config, p: Pc, m: Shared, n: Pc, m': Shared)
    requires EntryMove(c, p, m, n, m') || DedicatedMove(c, p, m, n, m') || FinishMove(c, p, m, n, m')
    ensures m'.slots == m.slots && VmRoom(n) == 0
  {
    if !DedicatedMove(c, p, m, n, m') {
      EntrySize(c, p, m, n, m');
    }
  }

  lemma CleanupSize(c: Config, p: Pc, m: Shared, n: Pc, m': Shared)
    requires CleanupMove(c, p, m, n, m')
    ensures m'.slots == m.slots && VmRoom(n) == 0
  {
  }

  lemma TeardownSize(c: Config, p: Pc, m: Shared, n: Pc, m': Shared)
    requires TeardownMove(c, p, m, n, m')
    ensures |m'.slots| <= |m.slots| && VmRoom(n) == 0
  {
    if p.Held? {
      DropSize(m.slots, p.sb.vmId);
    }
  }

  lemma TearSize(c: Config, p: Pc, m: Shared, n: Pc, m': Shared)
    requires TeardownMove(c, p, m, n, m') || CleanupMove(c, p, m, n, m')
    ensures |m'.slots| <= |m.slots| && VmRoom(n) == 0
  {
    if CleanupMove(c, p, m, n, m') {
      CleanupSize(c, p, m, n, m');
    } else {
      TeardownSize(c, p, m, n, m');
    }
  }

  lemma SizeStep(c: Config, s: State, s': State, t: nat)
    requires LockInv(s) && SizeInv(c, s) && Step(c, s, s', t)
    ensures SizeInv(c, s')
  {
    var p, m, n, m' := s.pcs[t], s.mem, s'.pcs[t], s'.mem;
    if EntryMove(c, p, m, n, m') || DedicatedMove(c, p, m, n, m') || FinishMove(c, p, m, n, m') {
      OtherSize(c, p, m, n, m');
    } else if PoolMove(c, p, m, n, m') || SlotMove(c, p, m, n, m') {
      if PoolMove(c, p, m, n, m') {
        PoolSize(c, p, m, n, m');
      } else {
        SlotSize(c, p, m, n, m');
      }
      assert forall u :: u in s.pcs && u != t ==> !HoldsLock(s.pcs[u]) && VmRoom(s'.pcs[u]) == 0;
    } else {
      TearSize(c, p, m, n, m');
    }
  }

  /** The pool never has more than MaxVMs slots, although the capacity check and the
      insertion are separate critical sections with a VM boot in between, and whatever
      callers do with Destroy. */
  lemma {:induction false} PoolSizeHolds(c: Config, d: Discipline, run: seq<State>, i: nat)
    requires IsRun(c, d, run) && i < |run|
    ensures SizeInv(c, run[i])
    ensures c.maxVMs > 0 ==> |run[i].mem.slots| <= c.maxVMs
  {
    if i > 0 {
      PoolSizeHolds(c, d, run, i - 1);
      SizeFollows(c, d, run, i);
    } else {
      assert Initially(run[0]);
    }
  }

  lemma SizeFollows(c: Config, d: Discipline, run: seq<State>, i: nat)
    requires IsRun(c, d, run) && 0 < i < |run| && SizeInv(c, run[i - 1])
    ensures SizeInv(c, run[i])
  {
    OneAdmissionAtATime(c, d, run, i - 1);
    assert Follows(c, d, run, i);
    SizeNext(c, d, run[i - 1], run[i]);
  }

  lemma SizeNext(c: Config, d: Discipline, s: State, s': State)
    requires LockInv(s) && SizeInv(c, s) && Next(c, d, s, s')
    ensures SizeInv(c, s')
  {
    var t :| StepBy(c, d, s, s', t);
    SizeStep(c, s, s', t);
  }
}
