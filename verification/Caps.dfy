/** The admission limits over whole runs of the orchestrator. */
module Caps {
  import opened Text
  import opened Records
  import opened Admission
  import opened Orchestrator

  /** How many rows the Spawn at `pc` may still write. */
  function Room(c: Config, pc: Pc): nat {
    match pc
    case Admitted(_) => if c.pooled then 2 else 1
    case Placed(_, _) | Booted(_, _) | RemoteLeased(_, _, _) | Leased(_, _) => 1
    case PoolMiss(_, _) | VmBooted(_, _, _) | VmLeased(_, _, _) => 2
    case VmStored(_, _, _) | VmCached(_, _, _) | Slotted(_, _, _) | SlotLeased(_, _, _) => 1
    case _ => 0
  }

  /** The owner of the sandbox it may still write. */
  function OwnerOf(pc: Pc): Option<string> {
    match pc
    case Admitted(req) => Some(req.owner)
    case Placed(req, _) => Some(req.owner)
    case Booted(req, _) => Some(req.owner)
    case RemoteLeased(req, _, _) => Some(req.owner)
    case Leased(_, rec) => Some(rec.owner)
    case PoolMiss(req, _) => Some(req.owner)
    case VmBooted(req, _, _) => Some(req.owner)
    case VmLeased(req, _, _) => Some(req.owner)
    case VmStored(req, _, _) => Some(req.owner)
    case VmCached(req, _, _) => Some(req.owner)
    case Slotted(req, _, _) => Some(req.owner)
    case SlotLeased(req, _, _) => Some(req.owner)
    case _ => None
  }

  function OwnerRoom(pc: Pc, o: string): nat { if OwnerOf(pc) == Some(o) then 1 else 0 }

  /** One pooled Spawn may write a VM row besides its own. */
  function Bound(c: Config): int {
    c.limits.maxSandboxes + if c.pooled then 1 else 0
  }

  // ---------- One move ----------

  /** The row a thread at `pc` may write next. */
  function TargetId(pc: Pc): string {
    match pc
    case Leased(id, _) => id
    case VmLeased(_, _, vm) => vm
    case SlotLeased(_, id, _) => id
    case _ => ""
  }

  function TargetRow(c: Config, pc: Pc): SandboxRecord {
    match pc
    case Leased(_, rec) => rec
    case VmLeased(req, _, _) => VmRow(c, req)
    case SlotLeased(req, _, vm) => NewRow(req, vm, c.Local())
    case _ => NewRow(Request("", 0, ""), "", "")
  }

  /** The row it may mark destroyed next. */
  function VictimId(pc: Pc): string {
    match pc
    case Marking(id, _) => id
    case VmMarking(_, vm) => vm
    case _ => ""
  }

  /** A move leaves the table alone and gains no room unless it was just admitted; or it
      writes one new row against room it had; or it destroys a row. */
  ghost predicate Accounted(c: Config, p: Pc, m: Shared, n: Pc, m': Shared) {
    || (m'.store == m.store && Room(c, n) <= Room(c, p) && OwnerOf(n) in {None, OwnerOf(p)})
    || (m'.store == m.store && p.Checking? && n == Admitted(p.req) && Evaluate(c.limits, m.store, p.req).Allowed?)
    || (HoldsLock(p) && Inserts(m, TargetId(p), TargetRow(c, p), m') && Room(c, n) + 1 <= Room(c, p)
        && if TargetRow(c, p).owner == "" then OwnerOf(n) in {None, OwnerOf(p)}
           else OwnerOf(p) == Some(TargetRow(c, p).owner) && OwnerOf(n) == None)
    || (m'.store == MarkDestroyed(m.store, VictimId(p)) && Room(c, n) == 0 && OwnerOf(n) == None)
  }

  lemma AccountEntry(c: Config, p: Pc, m: Shared, n: Pc, m': Shared)
    requires EntryMove(c, p, m, n, m')
    ensures Accounted(c, p, m, n, m')
  {
  }

  lemma AccountDedicated(c: Config, p: Pc, m: Shared, n: Pc, m': Shared)
    requires DedicatedMove(c, p, m, n, m')
    ensures Accounted(c, p, m, n, m')
  {
  }

  lemma AccountFinish(c: Config, p: Pc, m: Shared, n: Pc, m': Shared)
    requires FinishMove(c, p, m, n, m')
    ensures Accounted(c, p, m, n, m')
  {
  }

  lemma AccountSlot(c: Config, p: Pc, m: Shared, n: Pc, m': Shared)
    requires SlotMove(c, p, m, n, m')
    ensures Accounted(c, p, m, n, m')
  {
  }

  lemma AccountAdmitted(c: Config, p: Pc, m: Shared, n: Pc, m': Shared)
    requires p.Admitted? && PoolMove(c, p, m, n, m')
    ensures Accounted(c, p, m, n, m')
  {
  }

  lemma AccountPool(c: Config, p: Pc, m: Shared, n: Pc, m': Shared)
    requires PoolMove(c, p, m, n, m')
    ensures Accounted(c, p, m, n, m')
  {
    if p.Admitted? {
      AccountAdmitted(c, p, m, n, m');
    }
  }

  lemma AccountTeardown(c: Config, p: Pc, m: Shared, n: Pc, m': Shared)
    requires TeardownMove(c, p, m, n, m')
    ensures Accounted(c, p, m, n, m')
  {
  }

  lemma AccountCleanup(c: Config, p: Pc, m: Shared, n: Pc, m': Shared)
    requires CleanupMove(c, p, m, n, m')
    ensures Accounted(c, p, m, n, m')
  {
  }

  lemma MoveAccounted(c: Config, p: Pc, m: Shared, n: Pc, m': Shared)
    requires Move(c, p, m, n, m')
    ensures Accounted(c, p, m, n, m')
  {
    if EntryMove(c, p, m, n, m') {
      AccountEntry(c, p, m, n, m');
    } else if DedicatedMove(c, p, m, n, m') {
      AccountDedicated(c, p, m, n, m');
    } else if FinishMove(c, p, m, n, m') {
      AccountFinish(c, p, m, n, m');
    } else if SlotMove(c, p, m, n, m') {
      AccountSlot(c, p, m, n, m');
    } else if PoolMove(c, p, m, n, m') {
      AccountPool(c, p, m, n, m');
    } else if TeardownMove(c, p, m, n, m') {
      AccountTeardown(c, p, m, n, m');
    } else {
      AccountCleanup(c, p, m, n, m');
    }
  }

  lemma AllowedLive(c: Config, store: Store, req: Request)
    requires Evaluate(c.limits, store, req).Allowed? && c.limits.maxSandboxes > 0
    ensures |Live(store)| < c.limits.maxSandboxes
  {
  }

  lemma AllowedOwned(c: Config, store: Store, req: Request)
    requires Evaluate(c.limits, store, req).Allowed? && req.owner != "" && OwnerCap(c.limits, req.owner) > 0
    ensures |OwnedLive(store, req.owner)| < OwnerCap(c.limits, req.owner)
  {
  }

  lemma MoveLive(c: Config, p: Pc, m: Shared, n: Pc, m': Shared)
    requires Accounted(c, p, m, n, m')
    requires c.limits.maxSandboxes > 0 && |Live(m.store)| + Room(c, p) <= Bound(c)
    ensures |Live(m'.store)| + Room(c, n) <= Bound(c)
    ensures !HoldsLock(p) ==> |Live(m'.store)| <= |Live(m.store)|
  {
    if p.Checking? && n == Admitted(p.req) && m'.store == m.store && Evaluate(c.limits, m.store, p.req).Allowed? {
      AllowedLive(c, m.store, p.req);
    } else if m'.store == m.store {
    } else if m'.store == MarkDestroyed(m.store, VictimId(p)) {
      MarkLive(m.store, VictimId(p));
    } else {
      PutLive(m.store, TargetId(p), TargetRow(c, p));
    }
  }

  lemma MoveOwned(c: Config, p: Pc, m: Shared, n: Pc, m': Shared, o: string)
    requires Accounted(c, p, m, n, m')
    requires o != "" && OwnerCap(c.limits, o) > 0
    requires |OwnedLive(m.store, o)| + OwnerRoom(p, o) <= OwnerCap(c.limits, o)
    ensures |OwnedLive(m'.store, o)| + OwnerRoom(n, o) <= OwnerCap(c.limits, o)
    ensures !HoldsLock(p) ==> |OwnedLive(m'.store, o)| <= |OwnedLive(m.store, o)|
  {
    if m'.store == m.store {
      if p.Checking? && n == Admitted(p.req) && Evaluate(c.limits, m.store, p.req).Allowed? {
        if p.req.owner == o {
          AllowedOwned(c, m.store, p.req);
        }
      }
    } else if m'.store == MarkDestroyed(m.store, VictimId(p)) {
      MarkOwned(m.store, VictimId(p), o);
    } else {
      PutOwned(m.store, TargetId(p), TargetRow(c, p), o);
    }
  }

  // ---------- All threads ----------

  ghost predicate LiveInv(c: Config, s: State) {
    && |Live(s.mem.store)| <= Bound(c)
    && forall t :: t in s.pcs ==> |Live(s.mem.store)| + Room(c, s.pcs[t]) <= Bound(c)
  }

  ghost predicate OwnedInv(c: Config, s: State, o: string) {
    && |OwnedLive(s.mem.store, o)| <= OwnerCap(c.limits, o)
    && forall t :: t in s.pcs ==> |OwnedLive(s.mem.store, o)| + OwnerRoom(s.pcs[t], o) <= OwnerCap(c.limits, o)
  }

  lemma LiveStep(c: Config, s: State, s': State, t: nat)
    requires LockInv(s) && Step(c, s, s', t)
    requires c.limits.maxSandboxes > 0 && LiveInv(c, s)
    ensures LiveInv(c, s')
  {
    MoveAccounted(c, s.pcs[t], s.mem, s'.pcs[t], s'.mem);
    MoveLive(c, s.pcs[t], s.mem, s'.pcs[t], s'.mem);
    forall u | u in s'.pcs && u != t
      ensures |Live(s'.mem.store)| + Room(c, s'.pcs[u]) <= Bound(c)
    {
      assert Room(c, s.pcs[u]) > 0 ==> HoldsLock(s.pcs[u]);
    }
  }

  lemma OwnedStep(c: Config, s: State, s': State, t: nat, o: string)
    requires LockInv(s) && Step(c, s, s', t)
    requires o != "" && OwnerCap(c.limits, o) > 0 && OwnedInv(c, s, o)
    ensures OwnedInv(c, s', o)
  {
    MoveAccounted(c, s.pcs[t], s.mem, s'.pcs[t], s'.mem);
    MoveOwned(c, s.pcs[t], s.mem, s'.pcs[t], s'.mem, o);
    forall u | u in s'.pcs && u != t
      ensures |OwnedLive(s'.mem.store, o)| + OwnerRoom(s'.pcs[u], o) <= OwnerCap(c.limits, o)
    {
      assert OwnerRoom(s.pcs[u], o) > 0 ==> HoldsLock(s.pcs[u]);
    }
  }

  // ---------- Whole runs ----------

  /** At every point of every run, with any number of threads in Spawn and Destroy, the
      rows that are not destroyed number at most MaxSandboxes, or one more in pool mode. */
  lemma {:induction false} SandboxCapHolds(c: Config, d: Discipline, run: seq<State>, i: nat)
    requires IsRun(c, d, run) && i < |run| && c.limits.maxSandboxes > 0
    ensures LiveInv(c, run[i])
    ensures |Live(run[i].mem.store)| <= c.limits.maxSandboxes + if c.pooled then 1 else 0
  {
    if i == 0 {
      assert Live(run[0].mem.store) == {};
    } else {
      SandboxCapHolds(c, d, run, i - 1);
      LiveFollows(c, d, run, i);
    }
  }

  lemma LiveFollows(c: Config, d: Discipline, run: seq<State>, i: nat)
    requires IsRun(c, d, run) && 0 < i < |run| && c.limits.maxSandboxes > 0 && LiveInv(c, run[i - 1])
    ensures LiveInv(c, run[i])
  {
    OneAdmissionAtATime(c, d, run, i - 1);
    assert Follows(c, d, run, i);
    var t :| StepBy(c, d, run[i - 1], run[i], t);
    LiveStep(c, run[i - 1], run[i], t);
  }

  /** A named owner never has more live sandboxes than its effective cap, in either mode. */
  lemma {:induction false} OwnerCapHolds(c: Config, d: Discipline, run: seq<State>, i: nat, o: string)
    requires IsRun(c, d, run) && i < |run|
    requires o != "" && OwnerCap(c.limits, o) > 0
    ensures OwnedInv(c, run[i], o)
    ensures |OwnedLive(run[i].mem.store, o)| <= OwnerCap(c.limits, o)
  {
    if i == 0 {
      assert OwnedLive(run[0].mem.store, o) == {};
    } else {
      OwnerCapHolds(c, d, run, i - 1, o);
      OwnedFollows(c, d, run, i, o);
    }
  }

  /** An owner with a positive quota never has more rows that are not destroyed than the
      quota allows, whatever the general limit says. */
  lemma QuotaHolds(c: Config, d: Discipline, run: seq<State>, i: nat, o: string)
    requires IsRun(c, d, run) && i < |run| && o != "" && o in c.limits.quotas && c.limits.quotas[o].maxSandboxes > 0
    ensures |OwnedLive(run[i].mem.store, o)| <= c.limits.quotas[o].maxSandboxes
  {
    OwnerCapHolds(c, d, run, i, o);
  }

  /** Any other named owner has at most the general limit, if there is one. */
  lemma OwnerLimitHolds(c: Config, d: Discipline, run: seq<State>, i: nat, o: string)
    requires IsRun(c, d, run) && i < |run| && o != "" && c.limits.maxPerOwner > 0
    requires o in c.limits.quotas ==> c.limits.quotas[o].maxSandboxes <= 0
    ensures |OwnedLive(run[i].mem.store, o)| <= c.limits.maxPerOwner
  {
    OwnerCapHolds(c, d, run, i, o);
  }

  lemma OwnedFollows(c: Config, d: Discipline, run: seq<State>, i: nat, o: string)
    requires IsRun(c, d, run) && 0 < i < |run| && o != "" && OwnerCap(c.limits, o) > 0 && OwnedInv(c, run[i - 1], o)
    ensures OwnedInv(c, run[i], o)
  {
    OneAdmissionAtATime(c, d, run, i - 1);
    assert Follows(c, d, run, i);
    OwnedNext(c, d, run[i - 1], run[i], o);
  }

  lemma OwnedNext(c: Config, d: Discipline, s: State, s': State, o: string)
    requires LockInv(s) && Next(c, d, s, s') && o != "" && OwnerCap(c.limits, o) > 0 && OwnedInv(c, s, o)
    ensures OwnedInv(c, s', o)
  {
    var t :| StepBy(c, d, s, s', t);
    OwnedStep(c, s, s', t, o);
  }

  // ---------- When pool mode keeps the cap ----------

  /** A pooled Spawn that starts a new VM does so with room for two rows. */
  ghost predicate MissHasRoom(c: Config, s: State, s': State) {
    forall t :: t in s.pcs && t in s'.pcs && s.pcs[t].Admitted? && s'.pcs[t].PoolMiss? ==>
      |Live(s.mem.store)| + 2 <= c.limits.maxSandboxes
  }

  ghost predicate MissHasRoomAt(c: Config, run: seq<State>, k: nat)
    requires 0 < k < |run|
  {
    MissHasRoom(c, run[k - 1], run[k])
  }

  ghost predicate MissesHaveRoom(c: Config, run: seq<State>, i: nat)
    requires i < |run|
  {
    forall k :: 0 < k <= i ==> MissHasRoomAt(c, run, k)
  }

  /** What the Spawn at `pc` may still write if it joins a VM. */
  function JoinRoom(c: Config, pc: Pc): nat { if pc.Admitted? then 1 else Room(c, pc) }

  ghost predicate TightInv(c: Config, s: State) {
    && |Live(s.mem.store)| <= c.limits.maxSandboxes
    && forall t :: t in s.pcs ==> |Live(s.mem.store)| + JoinRoom(c, s.pcs[t]) <= c.limits.maxSandboxes
  }

  lemma AdmittedJoins(c: Config, p: Pc, m: Shared, n: Pc, m': Shared)
    requires Move(c, p, m, n, m') && p.Admitted?
    ensures m'.store == m.store && (n.PoolMiss? || JoinRoom(c, n) <= 1)
  {
  }

  lemma OnlyEntryAdmits(c: Config, p: Pc, m: Shared, n: Pc, m': Shared)
    requires n.Admitted?
    ensures !DedicatedMove(c, p, m, n, m') && !FinishMove(c, p, m, n, m') && !PoolMove(c, p, m, n, m')
    ensures !SlotMove(c, p, m, n, m') && !TeardownMove(c, p, m, n, m') && !CleanupMove(c, p, m, n, m')
  {
  }

  lemma OnlyCheckingAdmits(c: Config, p: Pc, m: Shared, n: Pc, m': Shared)
    requires Move(c, p, m, n, m') && n.Admitted?
    ensures p.Checking? && n == Admitted(p.req) && m'.store == m.store && Evaluate(c.limits, m.store, p.req).Allowed?
  {
    OnlyEntryAdmits(c, p, m, n, m');
  }

  lemma MoveTight(c: Config, p: Pc, m: Shared, n: Pc, m': Shared)
    requires Move(c, p, m, n, m') && c.limits.maxSandboxes > 0
    requires |Live(m.store)| + JoinRoom(c, p) <= c.limits.maxSandboxes
    requires p.Admitted? && n.PoolMiss? ==> |Live(m.store)| + 2 <= c.limits.maxSandboxes
    ensures |Live(m'.store)| + JoinRoom(c, n) <= c.limits.maxSandboxes
    ensures !HoldsLock(p) ==> |Live(m'.store)| <= |Live(m.store)|
  {
    MoveAccounted(c, p, m, n, m');
    if p.Admitted? {
      AdmittedJoins(c, p, m, n, m');
    } else if n.Admitted? {
      OnlyCheckingAdmits(c, p, m, n, m');
      AllowedLive(c, m.store, p.req);
    } else {
      OtherTight(c, p, m, n, m');
    }
  }

  lemma OtherTight(c: Config, p: Pc, m: Shared, n: Pc, m': Shared)
    requires Accounted(c, p, m, n, m') && !p.Admitted? && !n.Admitted?
    requires |Live(m.store)| + Room(c, p) <= c.limits.maxSandboxes
    ensures |Live(m'.store)| + Room(c, n) <= c.limits.maxSandboxes
    ensures !HoldsLock(p) ==> |Live(m'.store)| <= |Live(m.store)|
  {
    if m'.store == m.store {
    } else if m'.store == MarkDestroyed(m.store, VictimId(p)) {
      MarkLive(m.store, VictimId(p));
    } else {
      PutLive(m.store, TargetId(p), TargetRow(c, p));
    }
  }

  lemma TightStep(c: Config, s: State, s': State, t: nat)
    requires LockInv(s) && Step(c, s, s', t) && MissHasRoom(c, s, s')
    requires c.limits.maxSandboxes > 0 && TightInv(c, s)
    ensures TightInv(c, s')
  {
    MoveTight(c, s.pcs[t], s.mem, s'.pcs[t], s'.mem);
    forall u | u in s'.pcs && u != t
      ensures |Live(s'.mem.store)| + JoinRoom(c, s'.pcs[u]) <= c.limits.maxSandboxes
    {
      assert JoinRoom(c, s.pcs[u]) > 0 ==> HoldsLock(s.pcs[u]);
    }
  }

  /** The cap itself is kept, in both modes, in every run in which a pooled Spawn only starts
      a VM when there is room for the VM's row and its own. In 1:1 mode that is every run. */
  lemma {:induction false} CapHoldsIfMissesHaveRoom(c: Config, d: Discipline, run: seq<State>, i: nat)
    requires IsRun(c, d, run) && i < |run| && c.limits.maxSandboxes > 0 && MissesHaveRoom(c, run, i)
    ensures TightInv(c, run[i])
    ensures |Live(run[i].mem.store)| <= c.limits.maxSandboxes
  {
    if i == 0 {
      assert Live(run[0].mem.store) == {};
    } else {
      CapHoldsIfMissesHaveRoom(c, d, run, i - 1);
      assert MissHasRoomAt(c, run, i);
      TightFollows(c, d, run, i);
    }
  }

  lemma TightFollows(c: Config, d: Discipline, run: seq<State>, i: nat)
    requires IsRun(c, d, run) && 0 < i < |run| && c.limits.maxSandboxes > 0
    requires TightInv(c, run[i - 1]) && MissHasRoom(c, run[i - 1], run[i])
    ensures TightInv(c, run[i])
  {
    OneAdmissionAtATime(c, d, run, i - 1);
    assert Follows(c, d, run, i);
    var t :| StepBy(c, d, run[i - 1], run[i], t);
    TightStep(c, run[i - 1], run[i], t);
  }
}
