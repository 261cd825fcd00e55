/** A Destroy that starts before a pooled sandbox's row is written leaves the slot behind. */
module PoolOrphans {
  import opened Text
  import opened Records
  import opened Admission
  import opened Orchestrator
  import opened VmPool
  import opened PoolCounters
  import opened PoolSafety
  import opened PoolTable
  import opened Scenarios

  // ---------- Leases in pool mode ----------

  ghost predicate LeasesOurs(c: Config, m: Shared) {
    forall id :: id in m.leases ==> m.leases[id] == c.Local()
  }

  lemma SpawnLeases(c: Config, p: Pc, m: Shared, n: Pc, m': Shared)
    requires PcInv(c, m, p) && LeasesOurs(c, m) && Setting(c)
    requires EntryMove(c, p, m, n, m') || DedicatedMove(c, p, m, n, m') || FinishMove(c, p, m, n, m')
    ensures LeasesOurs(c, m')
  {
  }

  lemma PoolLeases(c: Config, p: Pc, m: Shared, n: Pc, m': Shared)
    requires LeasesOurs(c, m) && (PoolMove(c, p, m, n, m') || SlotMove(c, p, m, n, m'))
    ensures LeasesOurs(c, m')
  {
  }

  lemma TearLeases(c: Config, p: Pc, m: Shared, n: Pc, m': Shared)
    requires LeasesOurs(c, m) && (TeardownMove(c, p, m, n, m') || CleanupMove(c, p, m, n, m'))
    ensures LeasesOurs(c, m')
  {
  }

  lemma LeasesStep(c: Config, s: State, s': State, t: nat)
    requires Setting(c) && Inv(c, s) && LeasesOurs(c, s.mem) && Step(c, s, s', t)
    ensures LeasesOurs(c, s'.mem)
  {
    var p, m, n, m' := s.pcs[t], s.mem, s'.pcs[t], s'.mem;
    assert PcInv(c, m, p);
    if PoolMove(c, p, m, n, m') || SlotMove(c, p, m, n, m') {
      PoolLeases(c, p, m, n, m');
    } else if TeardownMove(c, p, m, n, m') || CleanupMove(c, p, m, n, m') {
      TearLeases(c, p, m, n, m');
    } else {
      SpawnLeases(c, p, m, n, m');
    }
  }

  lemma {:induction false} LeasesAreOurs(c: Config, run: seq<State>, i: nat)
    requires Setting(c) && IsRun(c, ReleasedOnce, run) && i < |run|
    ensures LeasesOurs(c, run[i].mem)
  {
    if i > 0 {
      LeasesAreOurs(c, run, i - 1);
      AlwaysConsistent(c, run, i - 1);
      assert Follows(c, ReleasedOnce, run, i);
      LeasesNext(c, run[i - 1], run[i]);
    }
  }

  lemma LeasesNext(c: Config, s: State, s': State)
    requires Setting(c) && Inv(c, s) && LeasesOurs(c, s.mem) && Next(c, ReleasedOnce, s, s')
    ensures LeasesOurs(c, s'.mem)
  {
    var t :| StepBy(c, ReleasedOnce, s, s', t);
    LeasesStep(c, s, s', t);
  }

  // ---------- An id that was never used ----------

  lemma {:induction false} LongerThanAll(ids: set<string>) returns (n: nat)
    ensures forall id :: id in ids ==> |id| <= n
    decreases |ids|
  {
    if ids == {} {
      n := 0;
    } else {
      var x :| x in ids;
      n := LongerThanAll(ids - {x});
      n := if n < |x| then |x| else n;
    }
  }

  lemma SomeFreshId(m: Shared) returns (id: string)
    ensures Fresh(m, id)
  {
    var n := LongerThanAll(m.used + m.claimed);
    id := seq(n + 1, _ => 'x');
  }

  // ---------- A pooled Spawn goes on to its row ----------

  /** How many steps thread t is from holding the lease for its row. */
  function Distance(pc: Pc): nat {
    match pc
    case PoolMiss(_, _) => 6
    case VmBooted(_, _, _) => 5
    case VmLeased(_, _, _) => 4
    case VmStored(_, _, _) => 3
    case VmCached(_, _, _) => 2
    case Slotted(_, _, _) => 1
    case _ => 0
  }

  /** Only thread t moves; no row changes and nothing is given back. */
  ghost predicate Steady(s: State, s': State, t: nat) {
    && t in s.pcs && t in s'.pcs && s'.pcs == s.pcs[t := s'.pcs[t]]
    && s'.mem.freed == s.mem.freed
    && forall id :: id in s.mem.store ==> id in s'.mem.store && s'.mem.store[id] == s.mem.store[id]
  }

  lemma SteadyTwice(s: State, s': State, s'': State, t: nat)
    requires Steady(s, s', t) && Steady(s', s'', t)
    ensures Steady(s, s'', t)
  {
  }

  lemma TowardsVm(c: Config, run: seq<State>, t: nat) returns (longer: seq<State>)
    requires IsRun(c, ReleasedOnce, run) && t in Last(run).pcs && LeasesOurs(c, Last(run).mem)
    requires PcInv(c, Last(run).mem, Last(run).pcs[t]) && 4 <= Distance(Last(run).pcs[t])
    ensures IsRun(c, ReleasedOnce, longer) && run <= longer && Steady(Last(run), Last(longer), t)
    ensures var p, n := Last(run).pcs[t], Last(longer).pcs[t];
            Distance(n) < Distance(p) && forall id :: Bears(p, id) ==> Bears(n, id)
  {
    var m := Last(run).mem;
    match Last(run).pcs[t]
    case PoolMiss(req, id) =>
      var vm := SomeFreshId(m);
      longer := AdvancePool(c, ReleasedOnce, run, t, VmBooted(req, id, vm), Issue(m, vm));
    case VmBooted(req, id, vm) =>
      longer := AdvancePool(c, ReleasedOnce, run, t, VmLeased(req, id, vm), m.(leases := m.leases[vm := c.Local()]));
    case VmLeased(req, id, vm) =>
      longer := AdvancePool(c, ReleasedOnce, run, t, VmStored(req, id, vm), m.(store := m.store[vm := VmRow(c, req)]));
  }

  lemma TowardsSlot(c: Config, run: seq<State>, t: nat) returns (longer: seq<State>)
    requires IsRun(c, ReleasedOnce, run) && t in Last(run).pcs && LeasesOurs(c, Last(run).mem)
    requires 1 <= Distance(Last(run).pcs[t]) < 4
    ensures IsRun(c, ReleasedOnce, longer) && run <= longer && Steady(Last(run), Last(longer), t)
    ensures var p, n := Last(run).pcs[t], Last(longer).pcs[t];
            Distance(n) < Distance(p) && forall id :: Bears(p, id) ==> Bears(n, id)
  {
    var m := Last(run).mem;
    match Last(run).pcs[t]
    case VmStored(req, id, vm) =>
      longer := AdvancePool(c, ReleasedOnce, run, t, VmCached(req, id, vm), m.(cache := m.cache[vm := VmRow(c, req)]));
    case VmCached(req, id, vm) =>
      var slot := VMSlot(vm, req.provider, "", 1, c.maxUsersPerVM);
      longer := AdvancePool(c, ReleasedOnce, run, t, Slotted(req, id, vm), m.(slots := m.slots[vm := slot]));
    case Slotted(req, id, vm) =>
      longer := AdvancePool(c, ReleasedOnce, run, t, SlotLeased(req, id, vm), m.(leases := m.leases[id := c.Local()]));
  }

  /** Wherever a pooled Spawn is before its row, it can get to writing it. */
  lemma {:induction false} ReachesLease(c: Config, run: seq<State>, t: nat, id: string) returns (longer: seq<State>)
    requires Setting(c) && IsRun(c, ReleasedOnce, run) && t in Last(run).pcs && Bears(Last(run).pcs[t], id)
    ensures IsRun(c, ReleasedOnce, longer) && run <= longer && Steady(Last(run), Last(longer), t)
    ensures Last(longer).pcs[t].SlotLeased? && Last(longer).pcs[t].id == id
    decreases Distance(Last(run).pcs[t])
  {
    var s := Last(run);
    if s.pcs[t].SlotLeased? {
      longer := run;
    } else {
      AlwaysConsistent(c, run, |run| - 1);
      LeasesAreOurs(c, run, |run| - 1);
      assert PcInv(c, s.mem, s.pcs[t]);
      var next;
      if Distance(s.pcs[t]) < 4 {
        next := TowardsSlot(c, run, t);
      } else {
        next := TowardsVm(c, run, t);
      }
      longer := ReachesLease(c, next, t, id);
      SteadyTwice(s, Last(next), Last(longer), t);
    }
  }

  // ---------- Destroy before the row ----------

  /** Thread u can destroy a sandbox that thread t is still to write the row of. */
  ghost predicate Overtakes(s: State, t: nat, u: nat, id: string) {
    t in s.pcs && u in s.pcs && Bears(s.pcs[t], id) && s.pcs[u].AtRest?
  }

  /** The row is destroyed, its slot is still counted, and nobody is going to give it back. */
  ghost predicate Orphaned(s: State, id: string) {
    && id in s.mem.store && id in Orphans(s.mem, s.mem.store[id].vmId) && s.mem.store[id].vmId in s.mem.slots
    && forall w :: w in s.pcs ==> Tears(s.pcs[w]) != Some(id)
  }

  /** Destroy finds neither cache entry nor row, and so takes no lease and sees no VM. */
  lemma DestroyFindsNoRow(c: Config, run: seq<State>, t: nat, u: nat, id: string) returns (longer: seq<State>)
    requires IsRun(c, ReleasedOnce, run) && Overtakes(Last(run), t, u, id) && Unstored(Last(run).mem, id)
    ensures IsRun(c, ReleasedOnce, longer) && run <= longer
    ensures var s := Last(run);
            Last(longer) == Turned(s, u, Marking(id, c.Local()), s.mem.(claimed := s.mem.claimed + {id}))
  {
    var m := Last(run).mem;
    longer := AdvanceEntry(c, ReleasedOnce, run, u, Marking(id, c.Local()), m.(claimed := m.claimed + {id}));
  }

  lemma RowIsWritten(c: Config, run: seq<State>, t: nat, id: string) returns (longer: seq<State>)
    requires IsRun(c, ReleasedOnce, run) && t in Last(run).pcs && Last(run).pcs[t].SlotLeased?
    requires Last(run).pcs[t].id == id && id !in Last(run).mem.store
    ensures IsRun(c, ReleasedOnce, longer) && run <= longer
    ensures var s := Last(run);
            var row := NewRow(s.pcs[t].req, s.pcs[t].vm, c.Local());
            Last(longer) == Turned(s, t, Caching(id, row), s.mem.(store := s.mem.store[id := row]))
  {
    var s := Last(run);
    var row := NewRow(s.pcs[t].req, s.pcs[t].vm, c.Local());
    longer := AdvancePool(c, ReleasedOnce, run, t, Caching(id, row), s.mem.(store := s.mem.store[id := row]));
  }

  lemma SpawnReturns(c: Config, run: seq<State>, t: nat) returns (longer: seq<State>)
    requires IsRun(c, ReleasedOnce, run) && t in Last(run).pcs && Last(run).pcs[t].Caching?
    ensures IsRun(c, ReleasedOnce, longer) && run <= longer
    ensures var s, s' := Last(run), Last(longer);
            && s'.pcs == s.pcs[t := AtRest] && s'.lock == None
            && s'.mem == s.mem.(cache := s.mem.cache[s.pcs[t].id := s.pcs[t].rec])
  {
    longer := SpawnCaches(c, ReleasedOnce, run, t);
    longer := AdvanceEntry(c, ReleasedOnce, longer, t, AtRest, Last(longer).mem);
  }

  /** The row is written, marked at once by the Destroy that had found nothing, and cached. */
  lemma RowIsMarked(c: Config, run: seq<State>, t: nat, u: nat, id: string) returns (longer: seq<State>)
    requires IsRun(c, ReleasedOnce, run) && t in Last(run).pcs && u in Last(run).pcs && t != u
    requires Last(run).pcs[t].SlotLeased? && Last(run).pcs[t].id == id && id !in Last(run).mem.store
    requires Last(run).pcs[u] == Marking(id, c.Local())
    ensures IsRun(c, ReleasedOnce, longer) && run <= longer
    ensures var s, s' := Last(run), Last(longer);
            var row := NewRow(s.pcs[t].req, s.pcs[t].vm, c.Local());
            && s'.pcs == s.pcs[u := AtRest][t := AtRest] && s'.lock == None
            && s'.mem.store == s.mem.store[id := row.(state := Destroyed)]
            && s'.mem.freed == s.mem.freed && s'.mem.slots == s.mem.slots
  {
    longer := RowIsWritten(c, run, t, id);
    longer := DestroyEnds(c, ReleasedOnce, longer, u, id, c.Local());
    longer := SpawnReturns(c, longer, t);
  }

  lemma NobodyTears(c: Config, s: State, t: nat, id: string)
    requires Inv(c, s) && t in s.pcs && Bears(s.pcs[t], id)
    ensures forall w :: w in s.pcs ==> Tears(s.pcs[w]) != Some(id)
  {
    assert PcInv(c, s.mem, s.pcs[t]);
    forall w | w in s.pcs ensures Tears(s.pcs[w]) != Some(id) {
      assert PcInv(c, s.mem, s.pcs[w]);
    }
  }

  /** An orphan makes the slots differ from the table, unless a lost row update hides it. */
  lemma OrphanShows(m: Shared, id: string)
    requires Describes(m.slots, StoredUsers(m)) && "" !in m.slots
    requires id in m.store && id in Orphans(m, m.store[id].vmId)
    ensures m.store[id].vmId in m.slots
    ensures NothingFreedIsLive(m) ==> !Describes(m.slots, LiveUsers(m.store))
  {
    var vm := m.store[id].vmId;
    assert id in StoredUsers(m) && StoredUsers(m)[id] == vm;
    DescribesTableIff(m);
    if NothingFreedIsLive(m) {
      assert Lost(m, vm) == {};
    }
  }

  /** The Spawn at t is about to write the row that the Destroy at u is about to mark; all
      else is as in s. */
  ghost predicate Meeting(c: Config, s: State, meet: State, t: nat, u: nat, id: string) {
    && t in meet.pcs && u in meet.pcs && t != u && meet.pcs[t].SlotLeased? && meet.pcs[t].id == id
    && meet.pcs[u] == Marking(id, c.Local()) && id !in meet.mem.store && meet.mem.freed == s.mem.freed
    && (forall x :: x in s.mem.store ==> x in meet.mem.store && meet.mem.store[x] == s.mem.store[x])
    && forall w :: w in meet.pcs && w != t && w != u ==> w in s.pcs && meet.pcs[w] == s.pcs[w]
  }

  lemma DestroyMeetsSpawn(c: Config, run: seq<State>, t: nat, u: nat, id: string) returns (longer: seq<State>)
    requires Setting(c) && IsRun(c, ReleasedOnce, run)
    requires Overtakes(Last(run), t, u, id) && Unstored(Last(run).mem, id)
    ensures IsRun(c, ReleasedOnce, longer) && run <= longer && Meeting(c, Last(run), Last(longer), t, u, id)
  {
    var started := DestroyFindsNoRow(c, run, t, u, id);
    longer := ReachesLease(c, started, t, id);
    NoRowYet(c, longer, t);
    MeetsSo(c, Last(run), Last(started), Last(longer), t, u, id);
  }

  lemma MeetsSo(c: Config, s: State, started: State, meet: State, t: nat, u: nat, id: string)
    requires Overtakes(s, t, u, id)
    requires started == Turned(s, u, Marking(id, c.Local()), s.mem.(claimed := s.mem.claimed + {id}))
    requires Steady(started, meet, t) && meet.pcs[t].SlotLeased? && meet.pcs[t].id == id && id !in meet.mem.store
    ensures Meeting(c, s, meet, t, u, id)
  {
  }

  lemma NoRowYet(c: Config, run: seq<State>, t: nat)
    requires Setting(c) && IsRun(c, ReleasedOnce, run) && t in Last(run).pcs && Last(run).pcs[t].SlotLeased?
    ensures Last(run).pcs[t].id !in Last(run).mem.store && Last(run).pcs[t].vm != ""
  {
    AlwaysConsistent(c, run, |run| - 1);
    assert PcInv(c, Last(run).mem, Last(run).pcs[t]);
  }

  /** What is left when the row has been written and marked. */
  ghost predicate LeftBehind(c: Config, meet: State, s': State, t: nat, u: nat, id: string)
    requires t in meet.pcs && meet.pcs[t].SlotLeased?
  {
    && s'.pcs == meet.pcs[u := AtRest][t := AtRest] && s'.lock == None && s'.mem.freed == meet.mem.freed
    && s'.mem.store == meet.mem.store[id := NewRow(meet.pcs[t].req, meet.pcs[t].vm, c.Local()).(state := Destroyed)]
  }

  lemma LeftBehindIsOrphan(c: Config, s: State, meet: State, s': State, t: nat, u: nat, id: string)
    requires Meeting(c, s, meet, t, u, id) && LeftBehind(c, meet, s', t, u, id)
    requires s.mem.freed <= s.mem.store.Keys && id !in s.mem.store && meet.pcs[t].vm != ""
    ensures id in s'.mem.store && id in Orphans(s'.mem, s'.mem.store[id].vmId)
    ensures NothingFreedIsLive(s.mem) ==> NothingFreedIsLive(s'.mem)
  {
  }

  lemma StillNobodyTears(c: Config, s: State, meet: State, s': State, t: nat, u: nat, id: string)
    requires Meeting(c, s, meet, t, u, id) && LeftBehind(c, meet, s', t, u, id)
    requires forall w :: w in s.pcs ==> Tears(s.pcs[w]) != Some(id)
    ensures forall w :: w in s'.pcs ==> Tears(s'.pcs[w]) != Some(id)
  {
  }

  lemma OnlyStored(s: State)
    requires s.lock == None
    ensures UsersOf(s) == StoredUsers(s.mem)
  {
    assert InFlight(Inside(s)) == map[];
  }

  lemma OrphanIn(c: Config, run: seq<State>, id: string)
    requires Setting(c) && IsRun(c, ReleasedOnce, run) && Last(run).lock == None
    requires var m := Last(run).mem; id in m.store && id in Orphans(m, m.store[id].vmId)
    ensures var m := Last(run).mem;
            && m.store[id].vmId in m.slots
            && (NothingFreedIsLive(m) ==> !Describes(m.slots, LiveUsers(m.store)))
  {
    AlwaysConsistent(c, run, |run| - 1);
    OnlyStored(Last(run));
    OrphanShows(Last(run).mem, id);
  }

  lemma BeforeItsRow(c: Config, run: seq<State>, t: nat, id: string)
    requires Setting(c) && IsRun(c, ReleasedOnce, run) && t in Last(run).pcs && Bears(Last(run).pcs[t], id)
    ensures Last(run).mem.freed <= Last(run).mem.store.Keys && Unstored(Last(run).mem, id)
    ensures forall w :: w in Last(run).pcs ==> Tears(Last(run).pcs[w]) != Some(id)
  {
    AlwaysConsistent(c, run, |run| - 1);
    assert PcInv(c, Last(run).mem, Last(run).pcs[t]);
    NobodyTears(c, Last(run), t, id);
  }

  /** From every reachable state in which a pooled Spawn has issued the sandbox's id and not
      written its row, a Destroy of that id can end, with no slot released at all, in a
      destroyed row whose slot stays counted: both calls have returned and nobody is going to
      give it back. So CountersMatchTableAtRest needs its hypothesis for every such call. */
  lemma DestroyBeforeRowOrphansSlot(c: Config, run: seq<State>, t: nat, u: nat, id: string) returns (longer: seq<State>)
    requires Setting(c) && IsRun(c, ReleasedOnce, run) && Overtakes(Last(run), t, u, id)
    ensures IsRun(c, ReleasedOnce, longer) && run <= longer
    ensures var s, s' := Last(run), Last(longer);
            && t in s'.pcs && u in s'.pcs && s'.pcs[t].AtRest? && s'.pcs[u].AtRest? && Orphaned(s', id)
            && s'.mem.freed == s.mem.freed
            && (NothingFreedIsLive(s.mem) ==> !Describes(s'.mem.slots, LiveUsers(s'.mem.store)))
  {
    BeforeItsRow(c, run, t, id);
    var meet := DestroyMeetsSpawn(c, run, t, u, id);
    NoRowYet(c, meet, t);
    longer := RowIsMarked(c, meet, t, u, id);
    LeftBehindIsOrphan(c, Last(run), Last(meet), Last(longer), t, u, id);
    StillNobodyTears(c, Last(run), Last(meet), Last(longer), t, u, id);
    OrphanIn(c, longer, id);
  }

  /** The first pooled Spawn passes through such states from the moment it has an id until it
      has the lease for its row. */
  lemma FirstPooledSpawnIsOvertakable(c: Config, req: Request)
    returns (issued: seq<State>, leased: seq<State>)
    requires Plain(c) && req.owner == "" && Setting(c) && c.maxVMs > 0
    ensures IsRun(c, ReleasedOnce, issued) && Overtakes(Last(issued), 0, 1, "sb") && Last(issued).pcs[0].PoolMiss?
    ensures IsRun(c, ReleasedOnce, leased) && Overtakes(Last(leased), 0, 1, "sb") && Last(leased).pcs[0].SlotLeased?
    ensures issued <= leased
  {
    issued := FirstAdmission(c, ReleasedOnce, req);
    issued := AdvancePool(c, ReleasedOnce, issued, 0, PoolMiss(req, "sb"), Issue(EMPTY, "sb"));
    leased := ReachesLease(c, issued, 0, "sb");
  }
}
