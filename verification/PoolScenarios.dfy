/** How Destroy has to be called for the pool's counters to stay right, and runs that show
    what happens otherwise and what a failed Spawn leaves behind. */
module PoolScenarios {
  import opened Text
  import opened Records
  import opened Admission
  import opened Orchestrator
  import opened VmPool
  import opened PoolCounters
  import opened PoolSafety
  import opened Scenarios
  import Counting

  // ---------- Callers that do not repeat a successful Destroy ----------

  /** Destroys of different threads are for different sandboxes, none of them released. */
  ghost predicate TearsApart(s: State) {
    && (forall t :: t in s.pcs && Tears(s.pcs[t]).Some? ==> Tears(s.pcs[t]).value !in s.mem.freed)
    && forall t, u :: t in s.pcs && u in s.pcs && t != u && Tears(s.pcs[t]).Some? ==>
         Tears(s.pcs[t]) != Tears(s.pcs[u])
  }

  /** Only the release of a slot changes who was released, and it ends its Destroy's claim. */
  ghost predicate TearsLess(p: Pc, m: Shared, n: Pc, m': Shared) {
    || (m'.freed == m.freed && Tears(n) in {None, Tears(p)})
    || (p.Held? && Tears(p) == Some(p.id) && m'.freed == m.freed + {p.id} && Tears(n) == None)
  }

  ghost predicate StartsTearing(p: Pc, m: Shared, n: Pc, m': Shared) {
    StartsDestroy(p, n) && m'.freed == m.freed && Tears(n) in {None, Some(n.id)}
  }

  lemma DedicatedTears(c: Config, p: Pc, m: Shared, n: Pc, m': Shared)
    requires DedicatedMove(c, p, m, n, m')
    ensures TearsLess(p, m, n, m')
  {
  }

  lemma SlotTears(c: Config, p: Pc, m: Shared, n: Pc, m': Shared)
    requires FinishMove(c, p, m, n, m') || SlotMove(c, p, m, n, m')
    ensures TearsLess(p, m, n, m')
  {
  }

  lemma PoolTears(c: Config, p: Pc, m: Shared, n: Pc, m': Shared)
    requires PoolMove(c, p, m, n, m')
    ensures TearsLess(p, m, n, m')
  {
  }

  lemma CleanupTearsLess(c: Config, p: Pc, m: Shared, n: Pc, m': Shared)
    requires CleanupMove(c, p, m, n, m')
    ensures TearsLess(p, m, n, m')
  {
  }

  lemma EntryTears(c: Config, p: Pc, m: Shared, n: Pc, m': Shared)
    requires EntryMove(c, p, m, n, m')
    ensures StartsTearing(p, m, n, m') || TearsLess(p, m, n, m')
  {
  }

  lemma TeardownTearsLess(c: Config, p: Pc, m: Shared, n: Pc, m': Shared)
    requires TeardownMove(c, p, m, n, m')
    ensures TearsLess(p, m, n, m')
  {
  }

  lemma MoveTears(c: Config, p: Pc, m: Shared, n: Pc, m': Shared)
    requires Move(c, p, m, n, m')
    ensures StartsTearing(p, m, n, m') || TearsLess(p, m, n, m')
  {
    if EntryMove(c, p, m, n, m') {
      EntryTears(c, p, m, n, m');
    } else if TeardownMove(c, p, m, n, m') {
      TeardownTearsLess(c, p, m, n, m');
    } else if CleanupMove(c, p, m, n, m') {
      CleanupTearsLess(c, p, m, n, m');
    } else if PoolMove(c, p, m, n, m') {
      PoolTears(c, p, m, n, m');
    } else if DedicatedMove(c, p, m, n, m') {
      DedicatedTears(c, p, m, n, m');
    } else {
      SlotTears(c, p, m, n, m');
    }
  }

  lemma StillApart(s: State, s': State, t: nat)
    requires TearsApart(s) && Turn(s, s', t) && TearsLess(s.pcs[t], s.mem, s'.pcs[t], s'.mem)
    ensures TearsApart(s')
  {
    assert forall u :: u in s'.pcs && u != t ==> s'.pcs[u] == s.pcs[u];
  }

  lemma ApartAfterStart(s: State, s': State, t: nat)
    requires TearsApart(s) && Turn(s, s', t) && StartsTearing(s.pcs[t], s.mem, s'.pcs[t], s'.mem)
    requires Obeys(NotAgain, s, t, s'.pcs[t])
    ensures TearsApart(s')
  {
    assert forall u :: u in s'.pcs && u != t ==> s'.pcs[u] == s.pcs[u];
  }

  lemma NotAgainStep(c: Config, s: State, s': State, t: nat)
    requires TearsApart(s) && StepBy(c, NotAgain, s, s', t)
    ensures TearsApart(s') && StepBy(c, ReleasedOnce, s, s', t)
  {
    MoveTears(c, s.pcs[t], s.mem, s'.pcs[t], s'.mem);
    if TearsLess(s.pcs[t], s.mem, s'.pcs[t], s'.mem) {
      StillApart(s, s', t);
    } else {
      ApartAfterStart(s, s', t);
    }
  }

  lemma {:induction false} NotAgainApart(c: Config, run: seq<State>, i: nat)
    requires IsRun(c, NotAgain, run) && i < |run|
    ensures TearsApart(run[i])
  {
    if i > 0 {
      NotAgainApart(c, run, i - 1);
      assert Follows(c, NotAgain, run, i);
      NotAgainNext(c, run[i - 1], run[i]);
    }
  }

  lemma NotAgainNext(c: Config, s: State, s': State)
    requires TearsApart(s) && Next(c, NotAgain, s, s')
    ensures TearsApart(s') && Next(c, ReleasedOnce, s, s')
  {
    var t :| StepBy(c, NotAgain, s, s', t);
    NotAgainStep(c, s, s', t);
  }

  /** Callers meet the pool theorems' hypothesis by never calling Destroy for a pooled sandbox
      whose slot was released or that another Destroy is releasing. A Destroy that failed at
      the lease may be called again, as the reaper does. */
  lemma CallersCanReleaseOnce(c: Config, run: seq<State>)
    requires IsRun(c, NotAgain, run)
    ensures IsRun(c, ReleasedOnce, run)
  {
    forall i | 0 < i < |run| ensures Follows(c, ReleasedOnce, run, i) {
      NotAgainApart(c, run, i - 1);
      assert Follows(c, NotAgain, run, i);
      NotAgainNext(c, run[i - 1], run[i]);
    }
  }

  // ---------- A second release ----------

  /** Where Destroy is after Release. */
  function AfterRelease(c: Config, slots: Slots, id: string, vm: string): Pc {
    if Empties(slots, vm) then VmMarking(id, vm) else Marking(id, c.Local())
  }

  function MemAfterRelease(m: Shared, id: string, vm: string): Shared {
    DropSlot(m, vm).(freed := m.freed + {id})
  }

  /** The Destroy of a pooled sandbox at u is about to release a slot. */
  ghost predicate AboutToRelease(c: Config, s: State, u: nat) {
    c.pooled && u in s.pcs && s.pcs[u].Held? && s.pcs[u].sb.vmId != ""
  }

  ghost predicate Releases(c: Config, s: State, s': State, u: nat)
    requires AboutToRelease(c, s, u)
  {
    var id, vm := s.pcs[u].id, s.pcs[u].sb.vmId;
    s' == Turned(s, u, AfterRelease(c, s.mem.slots, id, vm), MemAfterRelease(s.mem, id, vm))
  }

  lemma HeldReleases(c: Config, s: State, s': State, u: nat)
    requires AboutToRelease(c, s, u) && Step(c, s, s', u)
    ensures Releases(c, s, s', u)
  {
    assert TeardownMove(c, s.pcs[u], s.mem, s'.pcs[u], s'.mem);
  }

  lemma SameInside(c: Config, s: State, u: nat, n: Pc, m': Shared)
    requires LockInv(s) && u in s.pcs && !HoldsLock(s.pcs[u]) && !HoldsLock(n)
    ensures Inside(Turned(s, u, n, m')) == Inside(s)
  {
  }

  /** Releasing for a sandbox that had been released before changes no assignment. */
  lemma SameAssignmentAgain(c: Config, s: State, u: nat, n: Pc, id: string, vm: string)
    requires LockInv(s) && u in s.pcs && !HoldsLock(s.pcs[u]) && !HoldsLock(n) && id in s.mem.freed
    ensures UsersOf(Turned(s, u, n, MemAfterRelease(s.mem, id, vm))) == UsersOf(s)
  {
    var m' := MemAfterRelease(s.mem, id, vm);
    SameInside(c, s, u, n, m');
    assert m'.freed == s.mem.freed;
    SameUsers(s.mem, m');
  }

  lemma NotInFlight(c: Config, s: State, id: string)
    requires Inv(c, s) && id in s.mem.freed && id in s.mem.store
    ensures id !in UsersOf(s)
  {
    assert PcInv(c, s.mem, Inside(s));
  }

  lemma AgainEffect(c: Config, s: State, s': State, u: nat)
    requires LockInv(s) && AboutToRelease(c, s, u) && Releases(c, s, s', u) && s.pcs[u].id in s.mem.freed
    ensures UsersOf(s') == UsersOf(s)
  {
    SameAssignmentAgain(c, s, u, s'.pcs[u], s.pcs[u].id, s.pcs[u].sb.vmId);
  }

  /** What a release does when nobody holds the slot for `id`: the count is wrong unless there
      is no such slot; and the last user's slot goes. */
  lemma ReleaseForNobody(slots: Slots, users: map<string, string>, vm: string, id: string)
    requires Describes(slots, users) && id !in users
    ensures Describes(DropUser(slots, vm), users) <==> vm !in slots
    ensures vm in slots && slots[vm].userCount == 1 ==>
              Empties(slots, vm) && exists other :: other in users && other != id && users[other] == vm
  {
    assert users - {id} == users;
    ReleaseDescribesIffHeld(slots, users, vm, id);
    if vm in slots && slots[vm].userCount == 1 {
      var other :| other in Counting.Fiber(users, vm);
    }
  }

  /** The counters are wrong unless `vm` had left the pool, and its only remaining user loses
      it. */
  ghost predicate Broken(s: State, s': State, u: nat, id: string, vm: string) {
    && (Describes(s'.mem.slots, UsersOf(s')) <==> vm !in s.mem.slots)
    && (vm in s.mem.slots && s.mem.slots[vm].userCount == 1 ==>
          && u in s'.pcs && s'.pcs[u] == VmMarking(id, vm)
          && exists other :: other in UsersOf(s') && other != id && UsersOf(s')[other] == vm)
  }

  lemma ReleasedAgain(c: Config, s: State, s': State, u: nat)
    requires Inv(c, s) && AboutToRelease(c, s, u) && Releases(c, s, s', u) && s.pcs[u].id in s.mem.freed
    ensures Broken(s, s', u, s.pcs[u].id, s.pcs[u].sb.vmId)
  {
    AgainEffect(c, s, s', u);
    NotInFlight(c, s, s.pcs[u].id);
    ReleaseForNobody(s.mem.slots, UsersOf(s), s.pcs[u].sb.vmId, s.pcs[u].id);
  }

  /** One release in any state that a run with single releases can reach: afterwards the
      counters are right if and only if the slot had not been given back before, or the VM
      has left the pool meanwhile. So the hypothesis of the pool theorems is needed release
      by release. */
  lemma ReleaseKeepsCountersIff(c: Config, run: seq<State>, u: nat, s': State)
    requires Setting(c) && IsRun(c, ReleasedOnce, run)
    requires u in Last(run).pcs && Last(run).pcs[u].Held? && Step(c, Last(run), s', u)
    ensures var s := Last(run);
            Describes(s'.mem.slots, UsersOf(s')) <==>
              s.pcs[u].id !in s.mem.freed || s.pcs[u].sb.vmId !in s.mem.slots
  {
    var s := Last(run);
    AlwaysConsistent(c, run, |run| - 1);
    assert PcInv(c, s.mem, s.pcs[u]);
    if s.pcs[u].id in s.mem.freed {
      HeldReleases(c, s, s', u);
      ReleasedAgain(c, s, s', u);
    } else {
      ConsistentStep(c, s, s', u);
    }
  }

  // ---------- Two Destroys of one sandbox ----------

  /** Thread u can call Destroy for a row whose lease it can have. */
  ghost predicate CanDestroy(c: Config, s: State, u: nat, id: string) {
    && u in s.pcs && s.pcs[u].AtRest? && id in s.mem.store
    && (id !in s.mem.leases || s.mem.leases[id] == c.Local())
  }

  lemma StartDestroy(c: Config, run: seq<State>, u: nat, id: string) returns (longer: seq<State>, sb: SandboxRecord)
    requires IsRun(c, ReleasedOnce, run) && MemInv(c, Last(run).mem) && CanDestroy(c, Last(run), u, id)
    ensures IsRun(c, ReleasedOnce, longer) && run <= longer
    ensures sb.vmId == Last(run).mem.store[id].vmId && sb.workerId == c.Local()
    ensures var s := Last(run);
            Last(longer) == Turned(s, u, Destroying(id, sb), s.mem.(claimed := s.mem.claimed + {id}))
  {
    var m := Last(run).mem;
    sb := if id in m.cache then m.cache[id] else m.store[id];
    longer := AdvanceEntry(c, ReleasedOnce, run, u, Destroying(id, sb), m.(claimed := m.claimed + {id}));
  }

  lemma TakeHold(c: Config, run: seq<State>, u: nat, id: string, sb: SandboxRecord) returns (longer: seq<State>)
    requires IsRun(c, ReleasedOnce, run) && sb.workerId == c.Local()
    requires u in Last(run).pcs && Last(run).pcs[u] == Destroying(id, sb)
    requires id !in Last(run).mem.leases || Last(run).mem.leases[id] == c.Local()
    ensures IsRun(c, ReleasedOnce, longer) && run <= longer
    ensures var s := Last(run);
            Last(longer) == Turned(s, u, Held(id, sb), s.mem.(leases := s.mem.leases[id := c.Local()]))
  {
    var m := Last(run).mem;
    longer := AdvanceTear(c, ReleasedOnce, run, u, Held(id, sb), m.(leases := m.leases[id := c.Local()]));
  }

  /** Two turns of a thread that stays outside the locked region. */
  lemma OneThread(s: State, u: nat, n: Pc, m: Shared, n': Pc, m': Shared)
    requires u in s.pcs && !HoldsLock(s.pcs[u]) && !HoldsLock(n) && !HoldsLock(n')
    ensures Turned(Turned(s, u, n, m), u, n', m') == Turned(s, u, n', m')
  {
    assert s.pcs[u := n][u := n'] == s.pcs[u := n'];
  }

  /** Destroy up to the lease, which its holder may take again: any number of threads can be
      here with the same sandbox. */
  lemma DestroyToHeld(c: Config, run: seq<State>, u: nat, id: string) returns (longer: seq<State>, sb: SandboxRecord)
    requires IsRun(c, ReleasedOnce, run) && MemInv(c, Last(run).mem) && CanDestroy(c, Last(run), u, id)
    ensures IsRun(c, ReleasedOnce, longer) && run <= longer
    ensures sb.vmId == Last(run).mem.store[id].vmId
    ensures var s := Last(run);
            Last(longer) == Turned(s, u, Held(id, sb), s.mem.(claimed := s.mem.claimed + {id},
                                                              leases := s.mem.leases[id := c.Local()]))
  {
    longer, sb := StartDestroy(c, run, u, id);
    var m := Last(longer).mem;
    longer := TakeHold(c, longer, u, id, sb);
    OneThread(Last(run), u, Destroying(id, sb), m, Held(id, sb), m.(leases := m.leases[id := c.Local()]));
  }

  lemma ReleaseHeld(c: Config, d: Discipline, run: seq<State>, u: nat) returns (longer: seq<State>)
    requires IsRun(c, d, run) && AboutToRelease(c, Last(run), u)
    requires d == Anything || (d == ReleasedOnce && Last(run).pcs[u].id !in Last(run).mem.freed)
    ensures IsRun(c, d, longer) && run <= longer && Releases(c, Last(run), Last(longer), u)
  {
    var s := Last(run);
    var id, vm := s.pcs[u].id, s.pcs[u].sb.vmId;
    longer := AdvanceTear(c, d, run, u, AfterRelease(c, s.mem.slots, id, vm), MemAfterRelease(s.mem, id, vm));
  }

  lemma ReleaseAgain(c: Config, run: seq<State>, u: nat) returns (longer: seq<State>)
    requires Setting(c) && IsRun(c, ReleasedOnce, run) && u in Last(run).pcs && Last(run).pcs[u].Held?
    requires Last(run).pcs[u].id in Last(run).mem.freed
    ensures IsRun(c, Anything, longer) && run <= longer
    ensures Broken(Last(run), Last(longer), u, Last(run).pcs[u].id, Last(run).pcs[u].sb.vmId)
  {
    var s := Last(run);
    AlwaysConsistent(c, run, |run| - 1);
    assert PcInv(c, s.mem, s.pcs[u]);
    WithoutDiscipline(c, ReleasedOnce, run);
    longer := ReleaseHeld(c, Anything, run, u);
    ReleasedAgain(c, s, Last(longer), u);
  }

  /** Destroying a pooled sandbox again, at any time after its slot was given back: the row
      is reloaded, the lease is free or ours, and Release is called a second time. From every
      reachable state of that kind the counters are right afterwards if and only if the VM
      had left the pool; and if one other sandbox was using it, that sandbox's VM is taken
      down. */
  lemma SecondDestroyBreaksCountersIff(c: Config, run: seq<State>, u: nat, id: string) returns (longer: seq<State>)
    requires Setting(c) && IsRun(c, ReleasedOnce, run) && CanDestroy(c, Last(run), u, id)
    requires id in Last(run).mem.freed
    ensures IsRun(c, Anything, longer) && run <= longer
    ensures Broken(Last(run), Last(longer), u, id, Last(run).mem.store[id].vmId)
  {
    AlwaysConsistent(c, run, |run| - 1);
    var held, _ := DestroyToHeld(c, run, u, id);
    longer := ReleaseAgain(c, held, u);
  }

  /** A live pooled sandbox that shares its VM. */
  ghost predicate Shares(s: State, id: string) {
    && id in s.mem.store && id !in s.mem.freed && s.mem.store[id].vmId in s.mem.slots
    && s.mem.slots[s.mem.store[id].vmId].userCount >= 2
  }

  /** The counters are wrong; with two users the other one loses its VM. */
  ghost predicate OneUserTooFew(s: State, s': State, u: nat, id: string)
    requires Shares(s, id)
  {
    var vm := s.mem.store[id].vmId;
    && !Describes(s'.mem.slots, UsersOf(s'))
    && (s.mem.slots[vm].userCount == 2 ==>
          && u in s'.pcs && s'.pcs[u] == VmMarking(id, vm)
          && exists other :: other in UsersOf(s') && other != id && UsersOf(s')[other] == vm)
  }

  /** The first release leaves a shared VM in the pool. */
  lemma FirstRelease(c: Config, run: seq<State>, u: nat, id: string, vm: string) returns (longer: seq<State>)
    requires IsRun(c, ReleasedOnce, run) && u in Last(run).pcs && Last(run).pcs[u].Held? && c.pooled
    requires Last(run).pcs[u].id == id && Last(run).pcs[u].sb.vmId == vm != "" && id !in Last(run).mem.freed
    requires vm in Last(run).mem.slots && Last(run).mem.slots[vm].userCount >= 2
    ensures IsRun(c, ReleasedOnce, longer) && run <= longer
    ensures var s, s' := Last(run), Last(longer);
            && s'.pcs == s.pcs[u := Marking(id, c.Local())] && s'.lock == s.lock && id in s'.mem.freed
            && s'.mem.store == s.mem.store && s'.mem.cache == s.mem.cache && s'.mem.leases == s.mem.leases
            && vm in s'.mem.slots && s'.mem.slots[vm].userCount == s.mem.slots[vm].userCount - 1
  {
    longer := ReleaseHeld(c, ReleasedOnce, run, u);
  }

  /** States in which a sandbox can be destroyed a second time are reachable from every live
      pooled sandbox that shares its VM: let one thread destroy it completely. */
  lemma DestroyOnce(c: Config, run: seq<State>, u: nat, id: string) returns (longer: seq<State>)
    requires c.pooled && IsRun(c, ReleasedOnce, run) && MemInv(c, Last(run).mem)
    requires CanDestroy(c, Last(run), u, id) && Shares(Last(run), id)
    ensures IsRun(c, ReleasedOnce, longer) && run <= longer
    ensures var s, s' := Last(run), Last(longer);
            var vm := s.mem.store[id].vmId;
            && CanDestroy(c, s', u, id) && id in s'.mem.freed && s'.mem.store[id].vmId == vm
            && vm in s'.mem.slots && s'.mem.slots[vm].userCount == s.mem.slots[vm].userCount - 1
  {
    var sb;
    longer, sb := DestroyToHeld(c, run, u, id);
    longer := FirstRelease(c, longer, u, id, sb.vmId);
    longer := DestroyEnds(c, ReleasedOnce, longer, u, id, c.Local());
  }

  /** Calling Destroy twice in a row for a sandbox that shares its VM. */
  lemma DestroyedTwice(c: Config, run: seq<State>, u: nat, id: string) returns (longer: seq<State>)
    requires Setting(c) && IsRun(c, ReleasedOnce, run) && CanDestroy(c, Last(run), u, id) && Shares(Last(run), id)
    ensures IsRun(c, Anything, longer) && run <= longer
    ensures OneUserTooFew(Last(run), Last(longer), u, id)
  {
    AlwaysConsistent(c, run, |run| - 1);
    longer := DestroyOnce(c, run, u, id);
    longer := SecondDestroyBreaksCountersIff(c, longer, u, id);
  }

  lemma BothHold(c: Config, run: seq<State>, u: nat, v: nat, id: string)
    returns (longer: seq<State>, sb: SandboxRecord, sb': SandboxRecord)
    requires IsRun(c, ReleasedOnce, run) && MemInv(c, Last(run).mem) && u != v
    requires CanDestroy(c, Last(run), u, id) && CanDestroy(c, Last(run), v, id)
    ensures IsRun(c, ReleasedOnce, longer) && run <= longer
    ensures sb.vmId == sb'.vmId == Last(run).mem.store[id].vmId
    ensures var s, s' := Last(run), Last(longer);
            && s'.pcs == s.pcs[u := Held(id, sb)][v := Held(id, sb')]
            && s'.mem.store == s.mem.store && s'.mem.slots == s.mem.slots && s'.mem.freed == s.mem.freed
  {
    longer, sb := DestroyToHeld(c, run, u, id);
    longer, sb' := DestroyToHeld(c, longer, v, id);
  }

  /** Two overlapping calls, say of the reaper and of a client: both take the lease, which
      does not keep its own holder out, and both release. */
  lemma OverlappingDestroys(c: Config, run: seq<State>, u: nat, v: nat, id: string) returns (longer: seq<State>)
    requires Setting(c) && IsRun(c, ReleasedOnce, run) && u != v && Shares(Last(run), id)
    requires CanDestroy(c, Last(run), u, id) && CanDestroy(c, Last(run), v, id)
    ensures IsRun(c, Anything, longer) && run <= longer
    ensures OneUserTooFew(Last(run), Last(longer), v, id)
  {
    AlwaysConsistent(c, run, |run| - 1);
    var both, sb, sb' := BothHold(c, run, u, v, id);
    longer := FirstRelease(c, both, u, id, sb.vmId);
    longer := ReleaseAgain(c, longer, v);
  }

  // ---------- A Destroy of a VM ----------

  lemma VmHeld(c: Config, run: seq<State>, u: nat, vm: string) returns (longer: seq<State>)
    requires Setting(c) && IsRun(c, ReleasedOnce, run) && CanDestroy(c, Last(run), u, vm)
    requires MemInv(c, Last(run).mem) && vm in Last(run).mem.slots
    ensures IsRun(c, ReleasedOnce, longer) && run <= longer
    ensures var s, s' := Last(run), Last(longer);
            && s'.pcs == s.pcs[u := Marking(vm, c.Local())] && s'.mem.store == s.mem.store && s'.mem.slots == s.mem.slots
  {
    var sb;
    longer, sb := DestroyToHeld(c, run, u, vm);
    longer := AdvanceTear(c, ReleasedOnce, longer, u, Marking(vm, c.Local()), Last(longer).mem);
  }

  /** Destroying a VM of the pool by its own id does not go through the pool: its row is
      destroyed and its slot stays as it is, open to the next Spawn. */
  lemma DestroyedVmStaysInPool(c: Config, run: seq<State>, u: nat, vm: string) returns (longer: seq<State>)
    requires Setting(c) && IsRun(c, ReleasedOnce, run) && CanDestroy(c, Last(run), u, vm)
    requires vm in Last(run).mem.slots
    ensures IsRun(c, ReleasedOnce, longer) && run <= longer
    ensures var s, s' := Last(run), Last(longer);
            && u in s'.pcs && s'.pcs[u].AtRest? && vm !in Live(s'.mem.store) && s'.mem.slots == s.mem.slots
  {
    AlwaysConsistent(c, run, |run| - 1);
    longer := VmHeld(c, run, u, vm);
    longer := DestroyEnds(c, ReleasedOnce, longer, u, vm, c.Local());
  }

  // ---------- A failed Spawn ----------

  /** From every reachable state in which a pooled Spawn has to boot a VM, the run can go on so
      that the Spawn fails after getting its slot and leaves the VM's live row without a slot. */
  lemma FailedSpawnStrandsItsVm(c: Config, d: Discipline, run: seq<State>, t: nat, sb: string, vm: string)
    returns (longer: seq<State>)
    requires IsRun(c, d, run) && MissesPool(c, Last(run), t, sb, vm)
    ensures IsRun(c, d, longer) && run <= longer
    ensures var s := Last(longer);
            t in s.pcs && s.pcs[t].Unlocking? && vm in Live(s.mem.store) && vm !in s.mem.slots
  {
    longer := BootVm(c, d, run, t, sb, vm);
    longer := JoinNewVm(c, d, longer, t);
    longer := AdvancePool(c, d, longer, t, Unlocking, DropSlot(Last(longer).mem, vm));
  }

  /** It happens to the first pooled Spawn. */
  lemma FirstSpawnCanStrandItsVm(c: Config, d: Discipline, req: Request) returns (run: seq<State>)
    requires Plain(c) && req.owner == "" && c.pooled && c.maxVMs > 0
    ensures IsRun(c, d, run) && "vm" in Live(Last(run).mem.store) && "vm" !in Last(run).mem.slots
  {
    run := FirstAdmission(c, d, req);
    run := FailedSpawnStrandsItsVm(c, d, run, 0, "sb", "vm");
  }
}
