/** Table, leases and cache over whole runs, with one runtime per sandbox (local or remote),
    a store that does not lose writes, and no Destroy of an id that a Spawn is still creating.
    Scenarios shows that every such Destroy can break the agreement. */
module Agreement {
  import opened Text
  import opened Records
  import opened Scheduler
  import opened Admission
  import opened Orchestrator
  import opened WorkerCaps

  ghost predicate Setup(c: Config) {
    !c.pooled && c.reliableStore && Trimmed(c.Local())
  }

  /** The sandbox a thread is working on. */
  function Concerns(pc: Pc): Option<string> {
    match pc
    case Booted(_, id) => Some(id)
    case RemoteLeased(_, id, _) => Some(id)
    case Leased(id, _) => Some(id)
    case Caching(id, _) => Some(id)
    case Abandoning(id, _) => Some(id)
    case Destroying(id, _) => Some(id)
    case Held(id, _) => Some(id)
    case Marking(id, _) => Some(id)
    case Unleasing(id, _) => Some(id)
    case Uncaching(id) => Some(id)
    case _ => None
  }

  /** What a thread is about to do to the id it works on. */
  datatype Role = WillCache | WillUncache | SpawnHoldsLease | DestroyHoldsLease

  predicate Plays(pc: Pc, role: Role) {
    match role
    case WillCache => pc.Caching?
    case WillUncache => pc.Unleasing? || pc.Uncaching?
    case SpawnHoldsLease => pc.RemoteLeased? || pc.Leased? || pc.Abandoning?
    case DestroyHoldsLease => pc.Held? || pc.Marking? || pc.Unleasing?
  }

  // ---------- One id at a time ----------

  /** Everything the shared state says about one id. */
  datatype View = View(row: Option<SandboxRecord>, lease: Option<string>, cached: Option<SandboxRecord>,
                       used: bool, claimed: bool)
  {
    predicate Live() { row.Some? && row.value.state != Destroyed }

    function Worker(): string
      requires row.Some?
    {
      row.value.workerId
    }
  }

  function At(m: Shared, id: string): View {
    View(if id in m.store then Some(m.store[id]) else None,
         if id in m.leases then Some(m.leases[id]) else None,
         if id in m.cache then Some(m.cache[id]) else None,
         id in m.used, id in m.claimed)
  }

  function Acquired(v: View, holder: string): View { v.(lease := Some(holder)) }

  function Released(v: View, holder: string): View { if v.lease == Some(holder) then v.(lease := None) else v }

  function Marked(v: View): View {
    if v.row.Some? then v.(row := Some(v.row.value.(state := Destroyed))) else v
  }

  /** What a move does to the view of the id it works on. */
  predicate ViewMove(c: Config, p: Pc, v: View, n: Pc, v': View) {
    match p
    case AtRest =>
      && v' == v.(claimed := true)
      && (match n
          case Destroying(_, sb) => v.cached == Some(sb) || (v.cached == None && v.row == Some(sb))
          case Marking(_, h) => h == c.Local() && v.cached == None && v.row == None
          case _ => false)
    case Placed(_, w) =>
      !v.used && !v.claimed &&
      (match n
       case Booted(_, _) => v' == v.(used := true)
       case RemoteLeased(_, _, x) => x == w && v' == Acquired(v.(used := true), w)
       case _ => false)
    case Booted(_, id) =>
      (n == Unlocking && v' == v)
      || (n.Leased? && n.id == id && n.rec.workerId == c.Local() && n.rec.state == Running && v' == Acquired(v, c.Local()))
    case RemoteLeased(_, id, w) =>
      v' == v && (n == Abandoning(id, w) || (n.Leased? && n.id == id && n.rec.workerId == w && n.rec.state == Running))
    case Leased(id, rec) =>
      || (n == Abandoning(id, rec.workerId) && v' == v)
      || (n == Caching(id, rec) && v.row == None && v' == v.(row := Some(rec)))
    case Caching(_, rec) => n == Unlocking && v' == v.(cached := Some(rec))
    case Abandoning(_, h) => n == Unlocking && v' == Released(v, h)
    case Destroying(id, sb) =>
      || (n == AtRest && v' == v)
      || (IsRemote(c, sb) && n == Marking(id, sb.workerId) && v' == v)
      || (!IsRemote(c, sb) && n == Held(id, sb) && v.lease in {None, Some(c.Local())} && v' == Acquired(v, c.Local()))
    case Held(id, _) => n == Marking(id, c.Local()) && v' == v
    case Marking(id, h) => n == Unleasing(id, h) && v' == Marked(v)
    case Unleasing(id, h) => n == Uncaching(id) && v' == Released(v, h)
    case Uncaching(_) => n == AtRest && v' == v.(cached := None)
    case _ => false
  }

  /** The one id a move works on, if any. */
  function Target(p: Pc, n: Pc): Option<string> { if Concerns(p).Some? then Concerns(p) else Concerns(n) }

  /** A move is a view move of its target and changes no other id's view. */
  ghost predicate MovesOneView(c: Config, p: Pc, m: Shared, n: Pc, m': Shared) {
    && Concerns(n) in {None, Target(p, n)}
    && (forall id :: Target(p, n) != Some(id) ==> At(m', id) == At(m, id))
    && (Target(p, n).Some? ==> ViewMove(c, p, At(m, Target(p, n).value), n, At(m', Target(p, n).value)))
  }

  predicate InDedicatedMode(pc: Pc) {
    Dedicated(pc) && !pc.VmMarking? && !pc.VmUnleasing? && !pc.VmUncaching?
  }

  lemma EntryViews(c: Config, p: Pc, m: Shared, n: Pc, m': Shared)
    requires EntryMove(c, p, m, n, m')
    ensures MovesOneView(c, p, m, n, m')
  {
  }

  lemma PlacedViews(c: Config, p: Pc, m: Shared, n: Pc, m': Shared)
    requires p.Placed? && DedicatedMove(c, p, m, n, m')
    ensures MovesOneView(c, p, m, n, m')
  {
  }

  lemma DedicatedViews(c: Config, p: Pc, m: Shared, n: Pc, m': Shared)
    requires DedicatedMove(c, p, m, n, m')
    ensures MovesOneView(c, p, m, n, m')
  {
    if p.Placed? {
      PlacedViews(c, p, m, n, m');
    }
  }

  lemma LeasedViews(c: Config, p: Pc, m: Shared, n: Pc, m': Shared)
    requires p.Leased? && FinishMove(c, p, m, n, m')
    ensures MovesOneView(c, p, m, n, m')
  {
  }

  lemma FinishViews(c: Config, p: Pc, m: Shared, n: Pc, m': Shared)
    requires FinishMove(c, p, m, n, m')
    ensures MovesOneView(c, p, m, n, m')
  {
    if p.Leased? {
      LeasedViews(c, p, m, n, m');
    }
  }

  lemma TeardownViews(c: Config, p: Pc, m: Shared, n: Pc, m': Shared)
    requires Setup(c) && TeardownMove(c, p, m, n, m')
    ensures MovesOneView(c, p, m, n, m')
  {
  }

  lemma CleanupViews(c: Config, p: Pc, m: Shared, n: Pc, m': Shared)
    requires Setup(c) && InDedicatedMode(p) && CleanupMove(c, p, m, n, m')
    ensures MovesOneView(c, p, m, n, m')
  {
  }

  // ---------- Invariants ----------

  predicate ViewOk(v: View) {
    && (v.row.Some? ==> v.used && Trimmed(v.Worker()))
    && (v.lease.Some? ==> v.used)
    && (v.cached.Some? ==> v.row.Some? && v.cached.value.workerId == v.Worker())
  }

  /** An id being created: issued, without a row, and never passed to Destroy. */
  predicate Unborn(v: View) { v.used && v.row == None && !v.claimed }

  predicate PcOk(c: Config, pc: Pc, v: View) {
    match pc
    case Booted(_, _) => Unborn(v) && v.lease == None
    case RemoteLeased(_, _, w) => Unborn(v) && v.lease == Some(w) && Trimmed(w)
    case Leased(_, rec) => Unborn(v) && v.lease == Some(rec.workerId) && rec.state == Running && Trimmed(rec.workerId)
    case Abandoning(_, w) => v.used && v.row == None && v.lease in {None, Some(w)}
    case Caching(_, rec) => v.row == Some(rec) && v.cached == None && rec.state == Running && !v.claimed
    case Destroying(_, sb) => v.claimed && v.row.Some? && v.Worker() == sb.workerId
    case Held(_, sb) => v.claimed && v.row.Some? && v.Worker() == c.Local()
    case Marking(_, w) => v.claimed && (v.row.Some? ==> v.Worker() == w)
    case Unleasing(_, w) => v.claimed && !v.Live() && (v.row.Some? ==> v.Worker() == w)
    case Uncaching(_) => v.claimed && !v.Live()
    case _ => true
  }

  /** Row, lease and cache entry agree, up to what some thread is about to do. */
  predicate Agrees(v: View, someone: Role -> bool) {
    && (v.Live() ==> v.lease == Some(v.Worker()))
    && (v.Live() ==> v.cached.Some? || someone(WillCache))
    && (v.lease.Some? && v.row.Some? ==> v.lease == Some(v.Worker()))
    && (v.lease.Some? && v.row == None ==> someone(SpawnHoldsLease))
    && (v.lease.Some? && v.row.Some? && !v.Live() ==> someone(DestroyHoldsLease))
    && (v.cached.Some? && !v.Live() ==> someone(WillUncache))
  }

  // ---------- One move, one view ----------

  lemma ViewKept(c: Config, p: Pc, v: View, n: Pc, v': View)
    requires Setup(c) && ViewMove(c, p, v, n, v') && ViewOk(v) && PcOk(c, p, v)
    requires p.Placed? ==> Trimmed(p.worker)
    ensures ViewOk(v') && PcOk(c, n, v')
  {
  }

  /** Another thread working on the same id keeps what it relies on. */
  lemma OtherKept(c: Config, p: Pc, v: View, n: Pc, v': View, q: Pc)
    requires ViewMove(c, p, v, n, v') && PcOk(c, p, v) && PcOk(c, q, v) && Concerns(q).Some? && ViewOk(v)
    requires HoldsLock(q) ==> !HoldsLock(p) && (p.AtRest? ==> q.Abandoning?)
    ensures PcOk(c, q, v')
  {
  }

  lemma AgreementKeptBySpawn(c: Config, p: Pc, v: View, n: Pc, v': View, others: Role -> bool)
    requires HoldsLock(p) && Setup(c) && ViewMove(c, p, v, n, v') && ViewOk(v) && PcOk(c, p, v)
    requires Agrees(v, r => others(r) || (Concerns(p).Some? && Plays(p, r)))
    ensures Agrees(v', r => others(r) || (Concerns(n).Some? && Plays(n, r)))
  {
  }

  lemma AgreementKept(c: Config, p: Pc, v: View, n: Pc, v': View, others: Role -> bool)
    requires Setup(c) && ViewMove(c, p, v, n, v') && ViewOk(v) && PcOk(c, p, v)
    requires Agrees(v, r => others(r) || (Concerns(p).Some? && Plays(p, r)))
    ensures Agrees(v', r => others(r) || (Concerns(n).Some? && Plays(n, r)))
  {
    if HoldsLock(p) {
      AgreementKeptBySpawn(c, p, v, n, v', others);
    }
  }

  // ---------- Threads ----------

  predicate Working(pc: Pc, id: string, role: Role) { Concerns(pc) == Some(id) && Plays(pc, role) }

  ghost function Someone(s: State, id: string): Role -> bool {
    r => exists t :: t in s.pcs && Working(s.pcs[t], id, r)
  }

  ghost function SomeoneElse(s: State, t: nat, id: string): Role -> bool {
    r => exists u :: u in s.pcs && u != t && Working(s.pcs[u], id, r)
  }

  lemma AgreesExtensional(v: View, f: Role -> bool, g: Role -> bool)
    requires Agrees(v, f) && forall r :: f(r) == g(r)
    ensures Agrees(v, g)
  {
  }

  ghost predicate PcInv(c: Config, m: Shared, pc: Pc) {
    && InDedicatedMode(pc) && (pc.Placed? ==> Trimmed(pc.worker))
    && (Concerns(pc).Some? ==> PcOk(c, pc, At(m, Concerns(pc).value)))
  }

  ghost predicate Inv(c: Config, s: State) {
    && LockInv(s)
    && (forall id :: ViewOk(At(s.mem, id)))
    && (forall t :: t in s.pcs ==> PcInv(c, s.mem, s.pcs[t]))
    && (forall id :: Agrees(At(s.mem, id), Someone(s, id)))
  }

  /** Placement hands out trimmed worker names. */
  lemma PlacedTrimmed(c: Config, store: Store, provider: string)
    requires Setup(c)
    ensures var w := PlaceFor(c.limits, store, provider).selected; w == "" || Trimmed(w)
  {
    var cl, load := c.limits.cluster, LoadOf(store, c.Local());
    if cl.workers != [] && Place(cl, provider, load).selected != "" {
      var b := SelectedHasRoom(cl, provider, load);
      TrimSpaceIdempotent(cl.workers[b].id);
    }
  }

  lemma StaysDedicatedInSpawn(c: Config, p: Pc, m: Shared, n: Pc, m': Shared)
    requires Setup(c) && InDedicatedMode(p)
    requires DedicatedMove(c, p, m, n, m') || FinishMove(c, p, m, n, m')
    ensures InDedicatedMode(n) && (n.Placed? ==> Trimmed(n.worker))
  {
    if p.Admitted? {
      PlacedTrimmed(c, m.store, p.req.provider);
    }
  }

  lemma StaysDedicatedAround(c: Config, p: Pc, m: Shared, n: Pc, m': Shared)
    requires Setup(c) && InDedicatedMode(p)
    requires EntryMove(c, p, m, n, m') || CleanupMove(c, p, m, n, m')
    ensures InDedicatedMode(n) && !n.Placed?
  {
  }

  lemma StaysDedicatedInTeardown(c: Config, p: Pc, m: Shared, n: Pc, m': Shared)
    requires Setup(c) && InDedicatedMode(p) && TeardownMove(c, p, m, n, m')
    ensures InDedicatedMode(n) && !n.Placed?
  {
  }

  lemma NoPoolMoves(c: Config, p: Pc, m: Shared, n: Pc, m': Shared)
    requires Setup(c) && InDedicatedMode(p)
    ensures !PoolMove(c, p, m, n, m') && !SlotMove(c, p, m, n, m')
  {
  }

  lemma MoveViews(c: Config, p: Pc, m: Shared, n: Pc, m': Shared)
    requires Setup(c) && InDedicatedMode(p) && Move(c, p, m, n, m')
    ensures MovesOneView(c, p, m, n, m') && InDedicatedMode(n) && (n.Placed? ==> Trimmed(n.worker))
  {
    NoPoolMoves(c, p, m, n, m');
    if EntryMove(c, p, m, n, m') {
      StaysDedicatedAround(c, p, m, n, m');
      EntryViews(c, p, m, n, m');
    } else if DedicatedMove(c, p, m, n, m') {
      StaysDedicatedInSpawn(c, p, m, n, m');
      DedicatedViews(c, p, m, n, m');
    } else if FinishMove(c, p, m, n, m') {
      StaysDedicatedInSpawn(c, p, m, n, m');
      FinishViews(c, p, m, n, m');
    } else if TeardownMove(c, p, m, n, m') {
      StaysDedicatedInTeardown(c, p, m, n, m');
      TeardownViews(c, p, m, n, m');
    } else {
      StaysDedicatedAround(c, p, m, n, m');
      CleanupViews(c, p, m, n, m');
    }
  }

  lemma OtherPcKept(c: Config, s: State, s': State, t: nat, u: nat, id: string)
    requires Setup(c) && Inv(c, s) && Turn(s, s', t) && u in s.pcs && u != t
    requires MovesOneView(c, s.pcs[t], s.mem, s'.pcs[t], s'.mem) && Target(s.pcs[t], s'.pcs[t]) == Some(id)
    requires s.pcs[t].AtRest? ==> !Creates(s.pcs[u], id)
    ensures u in s'.pcs && PcInv(c, s'.mem, s'.pcs[u])
  {
    var p, n, q := s.pcs[t], s'.pcs[t], s.pcs[u];
    assert s'.pcs[u] == q && PcInv(c, s.mem, q) && PcInv(c, s.mem, p);
    if Concerns(q) == Some(id) {
      assert HoldsLock(q) ==> Creates(q, id) || q.Abandoning?;
      OtherKept(c, p, At(s.mem, id), n, At(s'.mem, id), q);
    }
  }

  lemma ViewsAndPcsKept(c: Config, s: State, s': State, t: nat)
    requires Setup(c) && Inv(c, s) && Turn(s, s', t)
    requires MovesOneView(c, s.pcs[t], s.mem, s'.pcs[t], s'.mem)
    requires InDedicatedMode(s'.pcs[t]) && (s'.pcs[t].Placed? ==> Trimmed(s'.pcs[t].worker))
    requires s.pcs[t].AtRest? && Concerns(s'.pcs[t]).Some? ==>
               forall u :: u in s.pcs ==> !Creates(s.pcs[u], Concerns(s'.pcs[t]).value)
    ensures forall id :: ViewOk(At(s'.mem, id))
    ensures forall u :: u in s'.pcs ==> PcInv(c, s'.mem, s'.pcs[u])
  {
    var p, n := s.pcs[t], s'.pcs[t];
    if Target(p, n).Some? {
      var id := Target(p, n).value;
      var v, v' := At(s.mem, id), At(s'.mem, id);
      assert PcInv(c, s.mem, p) && PcOk(c, p, v);
      ViewKept(c, p, v, n, v');
      forall u | u in s'.pcs && u != t
        ensures PcInv(c, s'.mem, s'.pcs[u])
      {
        OtherPcKept(c, s, s', t, u, id);
      }
    }
  }

  lemma AgreementAt(c: Config, s: State, s': State, t: nat, id: string)
    requires Setup(c) && Inv(c, s) && Turn(s, s', t)
    requires MovesOneView(c, s.pcs[t], s.mem, s'.pcs[t], s'.mem)
    ensures Agrees(At(s'.mem, id), Someone(s', id))
  {
    var p, n := s.pcs[t], s'.pcs[t];
    var v, v', others := At(s.mem, id), At(s'.mem, id), SomeoneElse(s, t, id);
    forall r
      ensures Someone(s, id)(r) == (others(r) || Working(p, id, r))
      ensures Someone(s', id)(r) == (others(r) || Working(n, id, r))
    {
      if u :| u in s.pcs && u != t && Working(s.pcs[u], id, r) {
        assert s'.pcs[u] == s.pcs[u];
      }
      if u :| u in s'.pcs && u != t && Working(s'.pcs[u], id, r) {
        assert s'.pcs[u] == s.pcs[u];
      }
    }
    if Target(p, n) == Some(id) {
      AgreesExtensional(v, Someone(s, id), r => others(r) || (Concerns(p).Some? && Plays(p, r)));
      assert PcInv(c, s.mem, p) && PcOk(c, p, v);
      AgreementKept(c, p, v, n, v', others);
      AgreesExtensional(v', r => others(r) || (Concerns(n).Some? && Plays(n, r)), Someone(s', id));
    } else {
      AgreesExtensional(v', Someone(s, id), Someone(s', id));
    }
  }

  lemma AgreementStep(c: Config, s: State, s': State, t: nat)
    requires Setup(c) && Inv(c, s) && StepBy(c, AfterSpawnReturned, s, s', t)
    ensures Inv(c, s')
  {
    assert PcInv(c, s.mem, s.pcs[t]);
    MoveViews(c, s.pcs[t], s.mem, s'.pcs[t], s'.mem);
    LockStep(s, s', t);
    StartObeys(c, s, s', t);
    ViewsAndPcsKept(c, s, s', t);
    forall id ensures Agrees(At(s'.mem, id), Someone(s', id)) {
      AgreementAt(c, s, s', t, id);
    }
  }

  lemma StartObeys(c: Config, s: State, s': State, t: nat)
    requires StepBy(c, AfterSpawnReturned, s, s', t)
    ensures s.pcs[t].AtRest? && Concerns(s'.pcs[t]).Some? ==>
              forall u :: u in s.pcs ==> !Creates(s.pcs[u], Concerns(s'.pcs[t]).value)
  {
    if s.pcs[t].AtRest? {
      assert EntryMove(c, s.pcs[t], s.mem, s'.pcs[t], s'.mem);
    }
  }

  // ---------- Whole runs ----------

  lemma {:induction false} AlwaysAgrees(c: Config, run: seq<State>, i: nat)
    requires Setup(c) && IsRun(c, AfterSpawnReturned, run) && i < |run|
    ensures Inv(c, run[i])
  {
    if i == 0 {
      forall id ensures ViewOk(At(run[0].mem, id)) && Agrees(At(run[0].mem, id), Someone(run[0], id)) {
        assert At(run[0].mem, id) == View(None, None, None, false, false);
      }
    } else {
      AlwaysAgrees(c, run, i - 1);
      assert Follows(c, AfterSpawnReturned, run, i);
      var t :| StepBy(c, AfterSpawnReturned, run[i - 1], run[i], t);
      AgreementStep(c, run[i - 1], run[i], t);
    }
  }

  /** Whenever no thread is working on an id, its live row, its lease and its cache entry
      exist together or not at all, and the lease is held by the row's worker. */
  lemma RowLeaseAndCacheAgree(c: Config, run: seq<State>, i: nat, id: string)
    requires Setup(c) && IsRun(c, AfterSpawnReturned, run) && i < |run|
    requires forall t :: t in run[i].pcs ==> Concerns(run[i].pcs[t]) != Some(id)
    ensures id in Live(run[i].mem.store) <==> id in run[i].mem.leases
    ensures id in Live(run[i].mem.store) <==> id in run[i].mem.cache
    ensures id in Live(run[i].mem.store) ==> run[i].mem.leases[id] == run[i].mem.store[id].workerId
  {
    AlwaysAgrees(c, run, i);
    var v := At(run[i].mem, id);
    assert Agrees(v, Someone(run[i], id));
    forall r ensures !Someone(run[i], id)(r) {
    }
  }

  /** Whenever all threads are at rest, the live rows, the leases and the cache entries are
      the same set of ids. */
  lemma SameIdsAtRest(c: Config, run: seq<State>, i: nat)
    requires Setup(c) && IsRun(c, AfterSpawnReturned, run) && i < |run|
    requires forall t :: t in run[i].pcs ==> run[i].pcs[t].AtRest?
    ensures run[i].mem.cache.Keys == Live(run[i].mem.store) == run[i].mem.leases.Keys
  {
    forall id
      ensures id in Live(run[i].mem.store) <==> id in run[i].mem.leases
      ensures id in Live(run[i].mem.store) <==> id in run[i].mem.cache
    {
      RowLeaseAndCacheAgree(c, run, i, id);
    }
  }
}
