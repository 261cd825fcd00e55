/** Runs that show what the orchestrator does not guarantee. */
module Scenarios {
  import opened Text
  import opened Records
  import opened Admission
  import opened Orchestrator
  import opened VmPool
  import Agreement
  import Caps
  import WorkerCaps

  function Last(run: seq<State>): State
    requires |run| > 0
  {
    run[|run| - 1]
  }

  /** The state after thread t goes to n and memory to m'. */
  function Turned(s: State, t: nat, n: Pc, m': Shared): State
    requires t in s.pcs
  {
    var lock := if HoldsLock(s.pcs[t]) == HoldsLock(n) then s.lock else if HoldsLock(n) then Some(t) else None;
    State(lock, s.pcs[t := n], m')
  }

  lemma Extend(c: Config, d: Discipline, run: seq<State>, s': State, t: nat) returns (longer: seq<State>)
    requires IsRun(c, d, run) && StepBy(c, d, Last(run), s', t)
    ensures longer == run + [s'] && IsRun(c, d, longer)
  {
    longer := run + [s'];
    forall i | 0 < i < |longer|
      ensures Follows(c, d, longer, i)
    {
      if i < |run| {
        assert Follows(c, d, run, i) && longer[i - 1] == run[i - 1] && longer[i] == run[i];
      }
    }
  }

  ghost predicate CanTurn(c: Config, d: Discipline, run: seq<State>, t: nat, n: Pc) {
    && IsRun(c, d, run) && t in Last(run).pcs
    && (HoldsLock(n) && !HoldsLock(Last(run).pcs[t]) ==> Last(run).lock == None)
    && Obeys(d, Last(run), t, n)
  }

  lemma AdvanceEntry(c: Config, d: Discipline, run: seq<State>, t: nat, n: Pc, m': Shared) returns (longer: seq<State>)
    requires CanTurn(c, d, run, t, n) && EntryMove(c, Last(run).pcs[t], Last(run).mem, n, m')
    ensures IsRun(c, d, longer) && run <= longer && Last(longer) == Turned(Last(run), t, n, m')
  {
    longer := Extend(c, d, run, Turned(Last(run), t, n, m'), t);
  }

  lemma AdvanceDedicated(c: Config, d: Discipline, run: seq<State>, t: nat, n: Pc, m': Shared) returns (longer: seq<State>)
    requires CanTurn(c, d, run, t, n)
    requires var s := Last(run); DedicatedMove(c, s.pcs[t], s.mem, n, m') || FinishMove(c, s.pcs[t], s.mem, n, m')
    ensures IsRun(c, d, longer) && run <= longer && Last(longer) == Turned(Last(run), t, n, m')
  {
    longer := Extend(c, d, run, Turned(Last(run), t, n, m'), t);
  }

  lemma AdvancePool(c: Config, d: Discipline, run: seq<State>, t: nat, n: Pc, m': Shared) returns (longer: seq<State>)
    requires CanTurn(c, d, run, t, n)
    requires var s := Last(run); PoolMove(c, s.pcs[t], s.mem, n, m') || SlotMove(c, s.pcs[t], s.mem, n, m')
    ensures IsRun(c, d, longer) && run <= longer && Last(longer) == Turned(Last(run), t, n, m')
  {
    longer := Extend(c, d, run, Turned(Last(run), t, n, m'), t);
  }

  lemma AdvanceTear(c: Config, d: Discipline, run: seq<State>, t: nat, n: Pc, m': Shared) returns (longer: seq<State>)
    requires CanTurn(c, d, run, t, n)
    requires var s := Last(run); TeardownMove(c, s.pcs[t], s.mem, n, m') || CleanupMove(c, s.pcs[t], s.mem, n, m')
    ensures IsRun(c, d, longer) && run <= longer && Last(longer) == Turned(Last(run), t, n, m')
  {
    longer := Extend(c, d, run, Turned(Last(run), t, n, m'), t);
  }

  /** What is done under any discipline is done under none. */
  lemma WithoutDiscipline(c: Config, d: Discipline, run: seq<State>)
    requires IsRun(c, d, run)
    ensures IsRun(c, Anything, run)
  {
    forall i | 0 < i < |run| ensures Follows(c, Anything, run, i) {
      assert Follows(c, d, run, i);
      var t :| StepBy(c, d, run[i - 1], run[i], t);
      assert StepBy(c, Anything, run[i - 1], run[i], t);
    }
  }

  // ---------- Pool mode exceeds the cap by one ----------

  /** A thread that was admitted when the pool has no room but may grow. */
  ghost predicate MissesPool(c: Config, s: State, t: nat, sb: string, vm: string) {
    && t in s.pcs && s.pcs[t].Admitted? && c.pooled && |s.mem.slots| < c.maxVMs
    && (forall v :: !HasRoom(s.mem.slots, v))
    && Fresh(s.mem, sb) && Fresh(s.mem, vm) && sb != vm
    && sb !in s.mem.store && vm !in s.mem.store && sb !in s.mem.leases && vm !in s.mem.leases
  }

  lemma StartVm(c: Config, d: Discipline, run: seq<State>, t: nat, sb: string, vm: string) returns (longer: seq<State>)
    requires IsRun(c, d, run) && MissesPool(c, Last(run), t, sb, vm)
    ensures IsRun(c, d, longer) && run <= longer
    ensures var s, s' := Last(run), Last(longer);
            && t in s'.pcs && s'.pcs[t] == VmBooted(s.pcs[t].req, sb, vm)
            && s'.mem.store == s.mem.store && s'.mem.leases == s.mem.leases
  {
    var req, m := Last(run).pcs[t].req, Issue(Last(run).mem, sb);
    longer := AdvancePool(c, d, run, t, PoolMiss(req, sb), m);
    m := Issue(m, vm);
    longer := AdvancePool(c, d, longer, t, VmBooted(req, sb, vm), m);
  }

  lemma BootVm(c: Config, d: Discipline, run: seq<State>, t: nat, sb: string, vm: string) returns (longer: seq<State>)
    requires IsRun(c, d, run) && MissesPool(c, Last(run), t, sb, vm)
    ensures IsRun(c, d, longer) && run <= longer
    ensures var s, s' := Last(run), Last(longer);
            var req := s.pcs[t].req;
            && t in s'.pcs && s'.pcs[t] == VmStored(req, sb, vm)
            && s'.mem.store == s.mem.store[vm := VmRow(c, req)] && sb !in s'.mem.leases
  {
    longer := StartVm(c, d, run, t, sb, vm);
    var req, m := Last(run).pcs[t].req, Last(longer).mem;
    m := m.(leases := m.leases[vm := c.Local()]);
    longer := AdvancePool(c, d, longer, t, VmLeased(req, sb, vm), m);
    m := m.(store := m.store[vm := VmRow(c, req)]);
    longer := AdvancePool(c, d, longer, t, VmStored(req, sb, vm), m);
  }

  lemma JoinNewVm(c: Config, d: Discipline, run: seq<State>, t: nat) returns (longer: seq<State>)
    requires IsRun(c, d, run) && t in Last(run).pcs && Last(run).pcs[t].VmStored?
    ensures IsRun(c, d, longer) && run <= longer
    ensures var s, s' := Last(run), Last(longer);
            var pc := s.pcs[t];
            && t in s'.pcs && s'.pcs[t] == Slotted(pc.req, pc.id, pc.vm)
            && s'.mem.store == s.mem.store && s'.mem.leases == s.mem.leases
            && pc.vm in s'.mem.slots && s'.mem.slots[pc.vm].userCount == 1
  {
    var pc, m := Last(run).pcs[t], Last(run).mem;
    m := m.(cache := m.cache[pc.vm := VmRow(c, pc.req)]);
    longer := AdvancePool(c, d, run, t, VmCached(pc.req, pc.id, pc.vm), m);
    m := m.(slots := m.slots[pc.vm := VMSlot(pc.vm, pc.req.provider, "", 1, c.maxUsersPerVM)]);
    longer := AdvancePool(c, d, longer, t, Slotted(pc.req, pc.id, pc.vm), m);
  }

  lemma FillSlot(c: Config, d: Discipline, run: seq<State>, t: nat) returns (longer: seq<State>)
    requires IsRun(c, d, run) && t in Last(run).pcs && Last(run).pcs[t].Slotted?
    requires var s := Last(run); s.pcs[t].id !in s.mem.leases && s.pcs[t].id !in s.mem.store
    ensures IsRun(c, d, longer) && run <= longer
    ensures var s, s' := Last(run), Last(longer);
            var pc := s.pcs[t];
            s'.mem.store == s.mem.store[pc.id := NewRow(pc.req, pc.vm, c.Local())]
  {
    var pc, m := Last(run).pcs[t], Last(run).mem;
    var row := NewRow(pc.req, pc.vm, c.Local());
    m := m.(leases := m.leases[pc.id := c.Local()]);
    longer := AdvancePool(c, d, run, t, SlotLeased(pc.req, pc.id, pc.vm), m);
    m := m.(store := m.store[pc.id := row]);
    longer := AdvancePool(c, d, longer, t, Caching(pc.id, row), m);
  }

  lemma OneMoreLive(store: Store, id: string, rec: SandboxRecord)
    requires id !in store && rec.state == Running
    ensures |Live(store[id := rec])| == |Live(store)| + 1
  {
    assert Live(store[id := rec]) == Live(store) + {id};
  }

  lemma TwoMoreLive(store: Store, a: string, rec: SandboxRecord, b: string, rec': SandboxRecord)
    requires a != b && a !in store && b !in store && rec.state == Running == rec'.state
    ensures |Live(store[a := rec][b := rec'])| == |Live(store)| + 2
  {
    OneMoreLive(store, a, rec);
    OneMoreLive(store[a := rec], b, rec');
  }

  /** From every reachable state in which a pooled Spawn has to boot a VM without room for two
      rows under the cap, the run can go on to one row above the cap. Together with
      Caps.CapHoldsIfMissesHaveRoom that is exactly when the cap can be exceeded. */
  lemma PoolModeExceedsTheCap(c: Config, d: Discipline, run: seq<State>, t: nat, sb: string, vm: string)
    returns (longer: seq<State>)
    requires IsRun(c, d, run) && MissesPool(c, Last(run), t, sb, vm) && c.limits.maxSandboxes > 0
    requires |Live(Last(run).mem.store)| + 2 > c.limits.maxSandboxes
    ensures IsRun(c, d, longer) && run <= longer
    ensures |Live(Last(longer).mem.store)| == c.limits.maxSandboxes + 1
  {
    Caps.SandboxCapHolds(c, d, run, |run| - 1);
    assert |Live(Last(run).mem.store)| + Caps.Room(c, Last(run).pcs[t]) <= Caps.Bound(c);
    longer := BootVm(c, d, run, t, sb, vm);
    longer := JoinNewVm(c, d, longer, t);
    longer := FillSlot(c, d, longer, t);
    var req := Last(run).pcs[t].req;
    TwoMoreLive(Last(run).mem.store, vm, VmRow(c, req), sb, NewRow(req, vm, c.Local()));
  }

  /** A table without workers places everything locally. */
  ghost predicate Plain(c: Config) {
    && c.limits.cluster.workers == [] && WorkerCaps.Trimmed(c.Local())
    && c.limits.maxTTL <= 0 && c.limits.maxSandboxes == 1
  }

  const EMPTY := Shared(map[], map[], map[], map[], {}, {}, {}, {})

  /** The first admission: thread 0 in the locked region, thread 1 at rest, nothing stored. */
  lemma FirstAdmission(c: Config, d: Discipline, req: Request) returns (run: seq<State>)
    requires Plain(c) && req.owner == ""
    ensures IsRun(c, d, run)
    ensures Last(run) == State(Some(0), map[0 := Admitted(req), 1 := AtRest], EMPTY)
  {
    assert Live(EMPTY.store) == {};
    assert Evaluate(c.limits, EMPTY.store, req) == Allowed;
    run := [State(None, map[0 := AtRest, 1 := AtRest], EMPTY)];
    run := AdvanceEntry(c, d, run, 0, Waiting(req), EMPTY);
    run := AdvanceEntry(c, d, run, 0, Passed(req), EMPTY);
    run := AdvanceEntry(c, d, run, 0, Checking(req), EMPTY);
    run := AdvanceEntry(c, d, run, 0, Admitted(req), EMPTY);
    assert Last(run).pcs == map[0 := Admitted(req), 1 := AtRest];
  }

  /** The overshoot happens on the very first pooled Spawn under a cap of one. */
  lemma PoolCapIsReallyExceeded(c: Config, d: Discipline, req: Request) returns (run: seq<State>)
    requires Plain(c) && req.owner == "" && c.pooled && c.maxVMs > 0
    ensures IsRun(c, d, run) && |Live(Last(run).mem.store)| == 2 > c.limits.maxSandboxes
  {
    run := FirstAdmission(c, d, req);
    assert Live(EMPTY.store) == {};
    run := PoolModeExceedsTheCap(c, d, run, 0, "sb", "vm");
  }

  // ---------- A Destroy of an id that is still being created ----------

  /** Row, lease and cache entry of `id` as they are when nobody works on it any more. */
  ghost predicate Settled(s: State, id: string) {
    forall w :: w in s.pcs ==> Agreement.Concerns(s.pcs[w]) != Some(id)
  }

  /** Thread t is creating `id`, nobody else works on it, and thread u is free. */
  ghost predicate Alone(s: State, t: nat, u: nat, id: string) {
    && t in s.pcs && u in s.pcs && t != u && Creates(s.pcs[t], id) && s.pcs[u].AtRest?
    && forall w :: w in s.pcs && w != t ==> Agreement.Concerns(s.pcs[w]) != Some(id)
  }

  /** The id has been issued and nothing is stored about it but perhaps its lease. */
  ghost predicate Unstored(m: Shared, id: string) { id !in m.store && id !in m.cache }

  lemma DestroyMarks(c: Config, d: Discipline, run: seq<State>, u: nat, id: string, holder: string)
    returns (longer: seq<State>)
    requires IsRun(c, d, run) && u in Last(run).pcs && Last(run).pcs[u] == Marking(id, holder)
    ensures IsRun(c, d, longer) && run <= longer
    ensures var s := Last(run);
            Last(longer) == Turned(s, u, Unleasing(id, holder), s.mem.(store := MarkDestroyed(s.mem.store, id)))
  {
    var m := Last(run).mem;
    longer := AdvanceTear(c, d, run, u, Unleasing(id, holder), m.(store := MarkDestroyed(m.store, id)));
  }

  lemma DestroyEnds(c: Config, d: Discipline, run: seq<State>, u: nat, id: string, holder: string)
    returns (longer: seq<State>)
    requires IsRun(c, d, run) && u in Last(run).pcs && Last(run).pcs[u] == Marking(id, holder)
    ensures IsRun(c, d, longer) && run <= longer
    ensures var s, s' := Last(run), Last(longer);
            && s'.pcs == s.pcs[u := AtRest] && s'.lock == s.lock
            && s'.mem == ReleaseLease(s.mem, id, holder).(store := MarkDestroyed(s.mem.store, id),
                                                          cache := s.mem.cache - {id})
  {
    longer := DestroyMarks(c, d, run, u, id, holder);
    var m := ReleaseLease(Last(longer).mem, id, holder);
    longer := AdvanceTear(c, d, longer, u, Uncaching(id), m);
    m := m.(cache := m.cache - {id});
    longer := AdvanceTear(c, d, longer, u, AtRest, m);
  }

  /** Thread t writes its row and fills the cache. */
  lemma SpawnInserts(c: Config, run: seq<State>, t: nat) returns (longer: seq<State>)
    requires IsRun(c, Anything, run) && t in Last(run).pcs && Last(run).pcs[t].Leased?
    requires Last(run).pcs[t].id !in Last(run).mem.store
    ensures IsRun(c, Anything, longer) && run <= longer
    ensures var s := Last(run);
            var id, rec := s.pcs[t].id, s.pcs[t].rec;
            Last(longer) == Turned(s, t, Caching(id, rec), s.mem.(store := s.mem.store[id := rec]))
  {
    var s := Last(run);
    var id, rec := s.pcs[t].id, s.pcs[t].rec;
    longer := AdvanceDedicated(c, Anything, run, t, Caching(id, rec), s.mem.(store := s.mem.store[id := rec]));
  }

  lemma SpawnCaches(c: Config, d: Discipline, run: seq<State>, t: nat) returns (longer: seq<State>)
    requires IsRun(c, d, run) && t in Last(run).pcs && Last(run).pcs[t].Caching?
    ensures IsRun(c, d, longer) && run <= longer
    ensures var s := Last(run);
            var id, rec := s.pcs[t].id, s.pcs[t].rec;
            Last(longer) == Turned(s, t, Unlocking, s.mem.(cache := s.mem.cache[id := rec]))
  {
    var s := Last(run);
    longer := AdvanceDedicated(c, d, run, t, Unlocking, s.mem.(cache := s.mem.cache[s.pcs[t].id := s.pcs[t].rec]));
  }

  /** Thread t holds the lease for a live row it has yet to write, and the Destroy at u, which
      found nothing, is about to mark, unlease and uncache `id`. */
  ghost predicate Crossing(c: Config, s: State, t: nat, u: nat, id: string) {
    && t in s.pcs && u in s.pcs && t != u && s.pcs[t].Leased? && s.pcs[t].id == id
    && s.pcs[u] == Marking(id, c.Local()) && Unstored(s.mem, id) && s.pcs[t].rec.state == Running
    && id in s.mem.leases && s.mem.leases[id] == s.pcs[t].rec.workerId
    && forall w :: w in s.pcs && w != t && w != u ==> Agreement.Concerns(s.pcs[w]) != Some(id)
  }

  /** The lease is ours: Destroy gives it up before the row is written. The sandbox stays
      alive without a lease. */
  lemma CrossedLocally(c: Config, run: seq<State>, t: nat, u: nat, id: string) returns (longer: seq<State>)
    requires IsRun(c, Anything, run) && Crossing(c, Last(run), t, u, id) && Last(run).pcs[t].rec.workerId == c.Local()
    ensures IsRun(c, Anything, longer) && run <= longer
    ensures var s := Last(longer);
            Settled(s, id) && id in s.mem.cache && id in Live(s.mem.store) && id !in s.mem.leases
  {
    longer := DestroyEnds(c, Anything, run, u, id, c.Local());
    longer := SpawnInserts(c, longer, t);
    longer := SpawnCaches(c, Anything, longer, t);
  }

  /** The lease is another worker's: Destroy marks the row as soon as it is written, cannot
      release the lease, and uncaches before the cache is filled. */
  lemma CrossedRemotely(c: Config, run: seq<State>, t: nat, u: nat, id: string) returns (longer: seq<State>)
    requires IsRun(c, Anything, run) && Crossing(c, Last(run), t, u, id) && Last(run).pcs[t].rec.workerId != c.Local()
    ensures IsRun(c, Anything, longer) && run <= longer
    ensures var s := Last(longer);
            Settled(s, id) && id in s.mem.cache && id !in Live(s.mem.store) && id in s.mem.leases
  {
    longer := SpawnInserts(c, run, t);
    longer := DestroyEnds(c, Anything, longer, u, id, c.Local());
    longer := SpawnCaches(c, Anything, longer, t);
  }

  /** Thread t's Spawn has no row yet; what a Destroy of `id` finds is nothing. */
  ghost predicate BeforeRow(c: Config, s: State, t: nat, id: string) {
    && t in s.pcs && Unstored(s.mem, id)
    && match s.pcs[t]
       case Booted(_, i) => i == id && id !in s.mem.leases
       case RemoteLeased(_, i, w) => i == id && id in s.mem.leases && s.mem.leases[id] == w
       case Leased(i, rec) => i == id && rec.state == Running && id in s.mem.leases && s.mem.leases[id] == rec.workerId
       case _ => false
  }

  /** The worker whose lease the new sandbox gets. */
  function HolderOf(c: Config, pc: Pc): string {
    match pc
    case RemoteLeased(_, _, w) => w
    case Leased(_, rec) => rec.workerId
    case _ => c.Local()
  }

  lemma LeaseTaken(c: Config, run: seq<State>, t: nat, id: string) returns (longer: seq<State>)
    requires IsRun(c, Anything, run) && BeforeRow(c, Last(run), t, id)
    ensures IsRun(c, Anything, longer) && run <= longer
    ensures var s, s' := Last(run), Last(longer);
            && t in s'.pcs && s'.pcs == s.pcs[t := s'.pcs[t]]
            && s'.pcs[t].Leased? && BeforeRow(c, s', t, id) && s'.pcs[t].rec.workerId == HolderOf(c, s.pcs[t])
  {
    longer := run;
    var m := Last(run).mem;
    match Last(run).pcs[t]
    case Booted(req, _) =>
      m := m.(leases := m.leases[id := c.Local()]);
      longer := AdvanceDedicated(c, Anything, run, t, Leased(id, NewRow(req, "", c.Local())), m);
    case RemoteLeased(req, _, w) =>
      longer := AdvanceDedicated(c, Anything, run, t, Leased(id, NewRow(req, "", w)), m);
    case _ =>
  }

  lemma DestroyFindsNothing(c: Config, run: seq<State>, t: nat, u: nat, id: string) returns (longer: seq<State>)
    requires IsRun(c, Anything, run) && Alone(Last(run), t, u, id) && BeforeRow(c, Last(run), t, id)
    ensures IsRun(c, Anything, longer) && run <= longer && BeforeRow(c, Last(longer), t, id)
    ensures Last(longer).pcs == Last(run).pcs[u := Marking(id, c.Local())]
  {
    var m := Last(run).mem;
    longer := AdvanceEntry(c, Anything, run, u, Marking(id, c.Local()), m.(claimed := m.claimed + {id}));
  }

  /** A Destroy that starts before the row is written crosses the insert. */
  lemma DestroyCrosses(c: Config, run: seq<State>, t: nat, u: nat, id: string) returns (longer: seq<State>)
    requires IsRun(c, Anything, run) && Alone(Last(run), t, u, id) && BeforeRow(c, Last(run), t, id)
    ensures IsRun(c, Anything, longer) && run <= longer && Crossing(c, Last(longer), t, u, id)
    ensures Last(longer).pcs[t].rec.workerId == HolderOf(c, Last(run).pcs[t])
  {
    longer := DestroyFindsNothing(c, run, t, u, id);
    longer := LeaseTaken(c, longer, t, id);
  }

  /** From every state before Spawn's row is written, a Destroy of its id can leave a live
      cached sandbox without a lease, or, when the sandbox is on another worker, that worker's
      lease and a cache entry for a destroyed row. */
  lemma OvertakenBeforeRow(c: Config, run: seq<State>, t: nat, u: nat, id: string) returns (longer: seq<State>)
    requires IsRun(c, Anything, run) && Alone(Last(run), t, u, id) && BeforeRow(c, Last(run), t, id)
    ensures IsRun(c, Anything, longer) && run <= longer
    ensures var s, ours := Last(longer), HolderOf(c, Last(run).pcs[t]) == c.Local();
            && Settled(s, id) && id in s.mem.cache
            && (id in Live(s.mem.store) <==> ours) && (id in s.mem.leases <==> !ours)
  {
    longer := DestroyCrosses(c, run, t, u, id);
    if Last(longer).pcs[t].rec.workerId == c.Local() {
      longer := CrossedLocally(c, longer, t, u, id);
    } else {
      longer := CrossedRemotely(c, longer, t, u, id);
    }
  }

  /** Thread t has written its row, here or for another worker, and not filled the cache. */
  ghost predicate AfterRow(c: Config, s: State, t: nat, id: string) {
    && t in s.pcs && s.pcs[t].Caching? && s.pcs[t].id == id && id !in s.mem.cache
    && id in s.mem.store && id in s.mem.leases && s.mem.leases[id] == s.mem.store[id].workerId
    && (IsRemote(c, s.mem.store[id]) || s.mem.store[id].workerId == c.Local())
  }

  /** The steps of Destroy from its look-up to the row update. */
  lemma DestroyReachesRow(c: Config, run: seq<State>, t: nat, u: nat, id: string) returns (longer: seq<State>)
    requires !c.pooled && IsRun(c, Anything, run) && Alone(Last(run), t, u, id) && AfterRow(c, Last(run), t, id)
    ensures IsRun(c, Anything, longer) && run <= longer
    ensures var s, s' := Last(run), Last(longer);
            && s'.pcs == s.pcs[u := Marking(id, s.mem.store[id].workerId)]
            && s'.mem.leases == s.mem.leases && s'.mem.store == s.mem.store && s'.lock == s.lock
  {
    var m := Last(run).mem;
    var sb := m.store[id];
    m := m.(claimed := m.claimed + {id});
    longer := AdvanceEntry(c, Anything, run, u, Destroying(id, sb), m);
    if IsRemote(c, sb) {
      longer := AdvanceTear(c, Anything, longer, u, Marking(id, sb.workerId), m);
    } else {
      m := m.(leases := m.leases[id := c.Local()]);
      longer := AdvanceTear(c, Anything, longer, u, Held(id, sb), m);
      longer := AdvanceTear(c, Anything, longer, u, Marking(id, c.Local()), m);
    }
  }

  /** From every state between Spawn's row and its cache entry, a complete Destroy by another
      thread leads to a cache entry with neither a live row nor a lease. */
  lemma OvertakenSpawnLeavesCacheEntry(c: Config, run: seq<State>, t: nat, u: nat, id: string) returns (longer: seq<State>)
    requires !c.pooled && IsRun(c, Anything, run) && Alone(Last(run), t, u, id) && AfterRow(c, Last(run), t, id)
    ensures IsRun(c, Anything, longer) && run <= longer
    ensures var s := Last(longer);
            Settled(s, id) && id in s.mem.cache && id !in Live(s.mem.store) && id !in s.mem.leases
  {
    longer := DestroyReachesRow(c, run, t, u, id);
    longer := DestroyEnds(c, Anything, longer, u, id, Last(run).mem.store[id].workerId);
    longer := SpawnCaches(c, Anything, longer, t);
  }

  /** Row, lease and cache entry of `id` exist together or not at all. */
  ghost predicate Agreeing(m: Shared, id: string) {
    (id in Live(m.store) <==> id in m.leases) && (id in Live(m.store) <==> id in m.cache)
  }

  lemma CreatorIsAlone(c: Config, s: State, t: nat, u: nat, id: string)
    requires Agreement.Inv(c, s) && t in s.pcs && u in s.pcs && Creates(s.pcs[t], id) && s.pcs[u].AtRest?
    ensures Alone(s, t, u, id)
  {
    assert Agreement.PcInv(c, s.mem, s.pcs[t]);
    forall w | w in s.pcs && w != t ensures Agreement.Concerns(s.pcs[w]) != Some(id) {
      assert Agreement.PcInv(c, s.mem, s.pcs[w]);
    }
  }

  lemma CreatorsMemory(c: Config, s: State, t: nat, id: string)
    requires Agreement.Setup(c) && Agreement.Inv(c, s) && t in s.pcs && Creates(s.pcs[t], id)
    ensures BeforeRow(c, s, t, id) || AfterRow(c, s, t, id)
  {
    assert Agreement.PcInv(c, s.mem, s.pcs[t]);
    assert Agreement.ViewOk(Agreement.At(s.mem, id));
    assert Agreement.Agrees(Agreement.At(s.mem, id), Agreement.Someone(s, id));
  }

  /** The agreement theorem's discipline is exact: from every state that a run under it can
      reach, starting any Destroy that it forbids there can end with nobody working on the id
      and row, lease and cache entry in disagreement. */
  lemma DestroyDuringSpawnBreaksAgreement(c: Config, run: seq<State>, t: nat, u: nat, id: string)
    returns (longer: seq<State>)
    requires Agreement.Setup(c) && IsRun(c, AfterSpawnReturned, run)
    requires t in Last(run).pcs && u in Last(run).pcs && Creates(Last(run).pcs[t], id) && Last(run).pcs[u].AtRest?
    ensures IsRun(c, Anything, longer) && run <= longer
    ensures Settled(Last(longer), id) && !Agreeing(Last(longer).mem, id)
  {
    Agreement.AlwaysAgrees(c, run, |run| - 1);
    CreatorIsAlone(c, Last(run), t, u, id);
    CreatorsMemory(c, Last(run), t, id);
    WithoutDiscipline(c, AfterSpawnReturned, run);
    if BeforeRow(c, Last(run), t, id) {
      longer := OvertakenBeforeRow(c, run, t, u, id);
    } else {
      longer := OvertakenSpawnLeavesCacheEntry(c, run, t, u, id);
    }
  }

  lemma FirstBoot(c: Config, d: Discipline, req: Request, id: string) returns (run: seq<State>)
    requires Plain(c) && !c.pooled && req.owner == "" && id != ""
    ensures IsRun(c, d, run)
    ensures Last(run) == State(Some(0), map[0 := Booted(req, id), 1 := AtRest], Issue(EMPTY, id))
  {
    run := FirstAdmission(c, d, req);
    run := AdvanceDedicated(c, d, run, 0, Placed(req, c.Local()), EMPTY);
    run := AdvanceDedicated(c, d, run, 0, Booted(req, id), Issue(EMPTY, id));
    assert Last(run).pcs == map[0 := Booted(req, id), 1 := AtRest];
  }

  /** Such states occur already in the first Spawn of a manager, before its lease, before its
      row and before its cache entry. */
  lemma FirstSpawnIsOvertakable(c: Config, d: Discipline, req: Request, id: string)
    returns (run: seq<State>, leased: seq<State>, stored: seq<State>)
    requires Plain(c) && !c.pooled && req.owner == "" && id != ""
    ensures IsRun(c, d, run) && IsRun(c, d, leased) && IsRun(c, d, stored)
    ensures Alone(Last(run), 0, 1, id) && Last(run).pcs[0].Booted? && BeforeRow(c, Last(run), 0, id)
    ensures Alone(Last(leased), 0, 1, id) && Last(leased).pcs[0].Leased? && BeforeRow(c, Last(leased), 0, id)
    ensures Alone(Last(stored), 0, 1, id) && AfterRow(c, Last(stored), 0, id)
  {
    run := FirstBoot(c, d, req, id);
    var m := Issue(EMPTY, id);
    m := m.(leases := m.leases[id := c.Local()]);
    var row := NewRow(req, "", c.Local());
    leased := AdvanceDedicated(c, d, run, 0, Leased(id, row), m);
    m := m.(store := m.store[id := row]);
    stored := AdvanceDedicated(c, d, leased, 0, Caching(id, row), m);
  }
}
