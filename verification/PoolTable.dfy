/** When nothing is in progress: how far the sandbox table and the pool's counters agree, and
    which calls of Destroy keep them agreeing. */
module PoolTable {
  import opened Text
  import opened Records
  import opened Admission
  import opened Orchestrator
  import opened VmPool
  import opened PoolCounters
  import opened PoolSafety
  import Counting

  ghost predicate Quiescent(s: State) { forall t :: t in s.pcs ==> s.pcs[t].AtRest? }

  // ---------- Rows and slots ----------

  /** Live rows of `vm` whose slot was given back: Destroy's row update was lost. */
  ghost function Lost(m: Shared, vm: string): set<string> {
    set id | id in m.store && id in m.freed && m.store[id].state != Destroyed && m.store[id].vmId == vm != ""
  }

  /** Destroyed rows of `vm` that still hold a slot: their Destroy never got to Release. */
  ghost function Orphans(m: Shared, vm: string): set<string> {
    set id | id in m.store && id !in m.freed && m.store[id].state == Destroyed && m.store[id].vmId == vm != ""
  }

  lemma ExchangeSize(all: set<string>, gone: set<string>, added: set<string>)
    requires gone <= all && added !! all
    ensures |all - gone + added| == |all| - |gone| + |added|
  {
    assert all == (all - gone) + gone;
  }

  lemma FiberSizes(m: Shared, vm: string)
    requires vm != ""
    ensures |Counting.Fiber(LiveUsers(m.store), vm)|
         == |Counting.Fiber(StoredUsers(m), vm)| - |Orphans(m, vm)| + |Lost(m, vm)|
  {
    var stored := Counting.Fiber(StoredUsers(m), vm);
    ExchangeSize(stored, Orphans(m, vm), Lost(m, vm));
    assert Counting.Fiber(LiveUsers(m.store), vm) == stored - Orphans(m, vm) + Lost(m, vm);
  }

  ghost predicate Balanced(m: Shared) {
    forall vm :: |Lost(m, vm)| == |Orphans(m, vm)|
  }

  lemma UsersAtRest(s: State)
    requires Quiescent(s)
    ensures UsersOf(s) == StoredUsers(s.mem)
  {
    assert InFlight(Inside(s)) == map[];
  }

  lemma DescribesTableIff(m: Shared)
    requires Describes(m.slots, StoredUsers(m)) && "" !in m.slots
    ensures Describes(m.slots, LiveUsers(m.store)) <==> Balanced(m)
  {
    var live, stored := LiveUsers(m.store), StoredUsers(m);
    if Balanced(m) {
      TableDescribed(m);
    } else if Describes(m.slots, live) {
      var vm :| |Lost(m, vm)| != |Orphans(m, vm)|;
      assert vm != "";
      FiberSizes(m, vm);
      NoFiber(m.slots, live, vm);
      NoFiber(m.slots, stored, vm);
    }
  }

  /** A VM without a slot has no users. */
  lemma NoFiber(slots: Slots, users: map<string, string>, vm: string)
    requires Describes(slots, users)
    ensures |Counting.Fiber(users, vm)| == if vm in slots then slots[vm].userCount else 0
  {
    if vm !in slots {
      assert Counting.Fiber(users, vm) == {};
    }
  }

  lemma TableDescribed(m: Shared)
    requires Describes(m.slots, StoredUsers(m)) && "" !in m.slots && Balanced(m)
    ensures Describes(m.slots, LiveUsers(m.store))
  {
    var live, stored := LiveUsers(m.store), StoredUsers(m);
    forall vm | vm in m.slots ensures m.slots[vm].userCount == |Counting.Fiber(live, vm)| {
      FiberSizes(m, vm);
    }
    forall id | id in live ensures live[id] in m.slots {
      FiberSizes(m, live[id]);
      NoFiber(m.slots, stored, live[id]);
      assert id in Counting.Fiber(live, live[id]);
    }
  }

  /** Whenever nothing is in progress, the slots describe the table exactly (every VM's count
      is the number of live pooled sandboxes on it, and every live pooled sandbox is on a VM
      with a slot) if and only if every VM has as many live rows without a slot as destroyed
      rows with one. */
  lemma CountersMatchTableIff(c: Config, run: seq<State>, i: nat)
    requires Setting(c) && IsRun(c, ReleasedOnce, run) && i < |run| && Quiescent(run[i])
    ensures Describes(run[i].mem.slots, LiveUsers(run[i].mem.store)) <==> Balanced(run[i].mem)
  {
    AlwaysConsistent(c, run, i);
    UsersAtRest(run[i]);
    DescribesTableIff(run[i].mem);
  }

  /** No row of a sandbox whose slot was given back is still live. */
  ghost predicate NothingFreedIsLive(m: Shared) {
    forall id :: id in m.freed && id in m.store ==> m.store[id].state == Destroyed
  }

  // ---------- Destroy only after the row ----------

  /** A row that holds a slot is not destroyed. */
  ghost predicate Whole(m: Shared) {
    forall id :: id in StoredUsers(m) ==> m.store[id].state != Destroyed
  }

  /** The row a Destroy marks next holds no slot, and nobody has called Destroy for a sandbox
      that is still to get its row. */
  ghost predicate Careful(m: Shared, pc: Pc) {
    && (pc.Marking? ==> pc.id !in StoredUsers(m))
    && forall id :: Bears(pc, id) ==> id !in m.claimed
  }

  ghost predicate TableInv(c: Config, s: State) {
    && Inv(c, s) && Whole(s.mem)
    && forall t :: t in s.pcs ==> Careful(s.mem, s.pcs[t])
  }

  /** A move that destroys no row with a slot, and gives a slot only to a row it bore. */
  ghost predicate KeepsWhole(p: Pc, m: Shared, n: Pc, m': Shared) {
    && Whole(m')
    && (forall id :: id in StoredUsers(m') ==> id in StoredUsers(m) || Bears(p, id))
    && (n.Marking? ==> n.id !in StoredUsers(m'))
    && (forall id :: Bears(n, id) ==> Bears(p, id) || id !in m.claimed)
  }

  lemma SpawnKeepsWhole(c: Config, p: Pc, m: Shared, n: Pc, m': Shared)
    requires PcInv(c, m, p) && Whole(m) && !StartsDestroy(p, n)
    requires EntryMove(c, p, m, n, m') || FinishMove(c, p, m, n, m')
    ensures KeepsWhole(p, m, n, m') && m'.claimed == m.claimed
  {
  }

  lemma PoolKeepsWhole(c: Config, p: Pc, m: Shared, n: Pc, m': Shared)
    requires Whole(m) && PoolMove(c, p, m, n, m')
    ensures KeepsWhole(p, m, n, m') && m'.claimed == m.claimed
  {
  }

  lemma SlotKeepsWhole(c: Config, p: Pc, m: Shared, n: Pc, m': Shared)
    requires Whole(m) && SlotMove(c, p, m, n, m')
    ensures KeepsWhole(p, m, n, m') && m'.claimed == m.claimed
  {
  }

  lemma TearingKeepsWhole(c: Config, m: Shared, p: Pc, m': Shared)
    requires MemInv(c, m) && PcInv(c, m, p) && Tearing(m, p, m') && Whole(m) && Careful(m, p)
    ensures Whole(m') && forall id :: id in StoredUsers(m') ==> id in StoredUsers(m)
  {
  }

  lemma TeardownMarks(c: Config, p: Pc, m: Shared, n: Pc, m': Shared)
    requires Setting(c) && MemInv(c, m) && PcInv(c, m, p) && TeardownMove(c, p, m, n, m')
    ensures n.Marking? ==> n.id !in StoredUsers(m')
    ensures m'.claimed == m.claimed && forall id :: !Bears(n, id)
  {
  }

  lemma CleanupMarks(c: Config, p: Pc, m: Shared, n: Pc, m': Shared)
    requires PcInv(c, m, p) && CleanupMove(c, p, m, n, m')
    ensures n.Marking? ==> n.id !in StoredUsers(m')
    ensures m'.claimed == m.claimed && forall id :: !Bears(n, id)
  {
  }

  lemma TearKeepsWhole(c: Config, p: Pc, m: Shared, n: Pc, m': Shared)
    requires Setting(c) && MemInv(c, m) && PcInv(c, m, p) && ReleasesFirst(p, m)
    requires Whole(m) && Careful(m, p)
    requires TeardownMove(c, p, m, n, m') || CleanupMove(c, p, m, n, m')
    ensures KeepsWhole(p, m, n, m') && m'.claimed == m.claimed
  {
    TearKeeps(c, p, m, n, m');
    TearingKeepsWhole(c, m, p, m');
    if TeardownMove(c, p, m, n, m') {
      TeardownMarks(c, p, m, n, m');
    } else {
      CleanupMarks(c, p, m, n, m');
    }
  }

  lemma OthersCareful(c: Config, s: State, s': State, t: nat)
    requires TableInv(c, s) && Turn(s, s', t) && KeepsWhole(s.pcs[t], s.mem, s'.pcs[t], s'.mem)
    requires s'.mem.claimed == s.mem.claimed
    ensures Whole(s'.mem) && forall u :: u in s'.pcs ==> Careful(s'.mem, s'.pcs[u])
  {
    assert Careful(s.mem, s.pcs[t]);
    forall u | u in s'.pcs && u != t ensures Careful(s'.mem, s'.pcs[u]) {
      assert s'.pcs[u] == s.pcs[u] && Careful(s.mem, s.pcs[u]) && PcInv(c, s.mem, s.pcs[u]);
    }
  }

  lemma StartCareful(c: Config, s: State, s': State, t: nat)
    requires TableInv(c, s) && StepBy(c, ReleasedAfterRow, s, s', t) && StartsDestroy(s.pcs[t], s'.pcs[t])
    ensures Whole(s'.mem) && forall u :: u in s'.pcs ==> Careful(s'.mem, s'.pcs[u])
  {
    StartKeeps(c, s.mem, s'.pcs[t], s'.mem);
    assert StoredUsers(s'.mem) == StoredUsers(s.mem);
    forall u | u in s'.pcs && u != t ensures Careful(s'.mem, s'.pcs[u]) {
      assert s'.pcs[u] == s.pcs[u] && Careful(s.mem, s.pcs[u]);
    }
  }

  lemma MoveKeepsWhole(c: Config, s: State, s': State, t: nat)
    requires Setting(c) && TableInv(c, s) && StepBy(c, ReleasedAfterRow, s, s', t)
    requires !StartsDestroy(s.pcs[t], s'.pcs[t])
    ensures KeepsWhole(s.pcs[t], s.mem, s'.pcs[t], s'.mem) && s'.mem.claimed == s.mem.claimed
  {
    var p, m, n, m' := s.pcs[t], s.mem, s'.pcs[t], s'.mem;
    assert PcInv(c, m, p) && Careful(m, p);
    if EntryMove(c, p, m, n, m') || FinishMove(c, p, m, n, m') {
      SpawnKeepsWhole(c, p, m, n, m');
    } else if PoolMove(c, p, m, n, m') {
      PoolKeepsWhole(c, p, m, n, m');
    } else if SlotMove(c, p, m, n, m') {
      SlotKeepsWhole(c, p, m, n, m');
    } else {
      TearKeepsWhole(c, p, m, n, m');
    }
  }

  lemma TableStep(c: Config, s: State, s': State, t: nat)
    requires Setting(c) && TableInv(c, s) && StepBy(c, ReleasedAfterRow, s, s', t)
    ensures TableInv(c, s')
  {
    StepKeeps(c, s, s', t);
    if StartsDestroy(s.pcs[t], s'.pcs[t]) {
      StartCareful(c, s, s', t);
    } else {
      MoveKeepsWhole(c, s, s', t);
      OthersCareful(c, s, s', t);
    }
  }

  lemma {:induction false} TableHolds(c: Config, run: seq<State>, i: nat)
    requires Setting(c) && IsRun(c, ReleasedAfterRow, run) && i < |run|
    ensures TableInv(c, run[i])
  {
    if i == 0 {
      InitiallyExact(c, run[0]);
    } else {
      TableHolds(c, run, i - 1);
      assert Follows(c, ReleasedAfterRow, run, i);
      TableNext(c, run[i - 1], run[i]);
    }
  }

  lemma TableNext(c: Config, s: State, s': State)
    requires Setting(c) && TableInv(c, s) && Next(c, ReleasedAfterRow, s, s')
    ensures TableInv(c, s')
  {
    var t :| StepBy(c, ReleasedAfterRow, s, s', t);
    TableStep(c, s, s', t);
  }

  /** The stronger discipline is a case of the weaker one. */
  lemma AfterRowIsOnce(c: Config, run: seq<State>)
    requires IsRun(c, ReleasedAfterRow, run)
    ensures IsRun(c, ReleasedOnce, run)
  {
    forall i | 0 < i < |run| ensures Follows(c, ReleasedOnce, run, i) {
      assert Follows(c, ReleasedAfterRow, run, i);
      var t :| StepBy(c, ReleasedAfterRow, run[i - 1], run[i], t);
      assert StepBy(c, ReleasedOnce, run[i - 1], run[i], t);
    }
  }

  lemma BalancedIff(m: Shared)
    requires Whole(m) && forall id :: id in m.freed ==> id in m.store && m.store[id].vmId != ""
    ensures Balanced(m) <==> NothingFreedIsLive(m)
  {
    forall vm ensures Orphans(m, vm) == {} {
      assert forall id :: id in Orphans(m, vm) ==> id in StoredUsers(m);
    }
    if NothingFreedIsLive(m) {
      assert forall vm :: Lost(m, vm) == {};
    } else {
      var id :| id in m.freed && id in m.store && m.store[id].state != Destroyed;
      assert id in Lost(m, m.store[id].vmId);
    }
  }

  /** When, moreover, nobody calls Destroy for a pooled sandbox before its row is written, the
      slots describe the table at rest if and only if no Destroy that gave a slot back lost
      its row update. */
  lemma CountersMatchTableAfterRowIff(c: Config, run: seq<State>, i: nat)
    requires Setting(c) && IsRun(c, ReleasedAfterRow, run) && i < |run| && Quiescent(run[i])
    ensures Describes(run[i].mem.slots, LiveUsers(run[i].mem.store)) <==> NothingFreedIsLive(run[i].mem)
  {
    AfterRowIsOnce(c, run);
    CountersMatchTableIff(c, run, i);
    TableHolds(c, run, i);
    BalancedIff(run[i].mem);
  }

  /** With a store that loses no write they always do. */
  lemma CountersMatchTableAtRest(c: Config, run: seq<State>, i: nat)
    requires Setting(c) && c.reliableStore && IsRun(c, ReleasedAfterRow, run) && i < |run| && Quiescent(run[i])
    ensures Describes(run[i].mem.slots, LiveUsers(run[i].mem.store))
    ensures Counting.Total(Users(run[i].mem.slots)) == |LiveUsers(run[i].mem.store)|
  {
    AfterRowIsOnce(c, run);
    AlwaysConsistent(c, run, i);
    assert forall id, t :: t in run[i].pcs ==> !Released(run[i].pcs[t], id);
    CountersMatchTableAfterRowIff(c, run, i);
    TotalUsersIsAssignmentSize(run[i].mem.slots, LiveUsers(run[i].mem.store));
  }
}
