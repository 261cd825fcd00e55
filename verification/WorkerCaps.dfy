/** Per-worker capacity over whole runs, with one runtime per sandbox. */
module WorkerCaps {
  import opened Text
  import opened Records
  import opened Scheduler
  import opened Admission
  import opened Orchestrator
  import Caps

  /** Worker ids are the worker table's primary key; trimming does not merge two of them. */
  ghost predicate DistinctWorkers(c: Cluster) {
    forall i, j :: 0 <= i < j < |c.workers| ==> TrimSpace(c.workers[i].id) != TrimSpace(c.workers[j].id)
  }

  /** The worker of the sandbox that the Spawn at `pc` may still write. */
  function WorkerRoom(c: Config, pc: Pc): Option<string> {
    match pc
    case Placed(_, worker) => Some(worker)
    case Booted(_, _) => Some(c.Local())
    case RemoteLeased(_, _, worker) => Some(worker)
    case Leased(_, rec) => Some(WorkerOf(rec, c.Local()))
    case _ => None
  }

  ghost predicate Within(c: Config, store: Store, pc: Pc) {
    forall i :: 0 <= i < |c.limits.cluster.workers| ==>
      var w := c.limits.cluster.workers[i];
      w.maxSandboxes > 0 ==>
        |ActiveOn(store, TrimSpace(w.id), c.Local())|
          + (if WorkerRoom(c, pc) == Some(TrimSpace(w.id)) then 1 else 0) <= w.maxSandboxes
  }

  /** An admitted Spawn will find a worker when it places itself again. */
  ghost predicate Placeable(c: Config, store: Store, pc: Pc) {
    pc.Admitted? ==> PlaceFor(c.limits, store, pc.req.provider).selected != ""
  }

  predicate Dedicated(pc: Pc) {
    !(pc.PoolMiss? || pc.VmBooted? || pc.VmLeased? || pc.VmStored? || pc.VmCached? || pc.Slotted? || pc.SlotLeased?)
  }

  /** A worker name as the scheduler hands it out. */
  predicate Trimmed(w: string) { w != "" && TrimSpace(w) == w }

  ghost predicate Sound(c: Config, store: Store, pc: Pc) {
    && Dedicated(pc) && Within(c, store, pc) && Placeable(c, store, pc)
    && (pc.Placed? ==> Trimmed(pc.worker)) && (pc.RemoteLeased? ==> Trimmed(pc.worker))
  }

  ghost predicate Setting(c: Config) {
    && !c.pooled && c.reliableReads && Trimmed(c.Local())
    && c.limits.cluster.workers != [] && DistinctWorkers(c.limits.cluster)
  }

  /** What the placement of an admitted Spawn selects has room for one more. */
  lemma PlacedIsWithin(c: Config, m: Shared, req: Request)
    requires Setting(c) && Sound(c, m.store, Admitted(req))
    ensures var chosen := PlaceFor(c.limits, m.store, req.provider).selected;
            Sound(c, m.store, Placed(req, chosen))
  {
    var cl, load := c.limits.cluster, LoadOf(m.store, c.Local());
    var b := SelectedHasRoom(cl, req.provider, load);
    TrimSpaceIdempotent(cl.workers[b].id);
    forall i | 0 <= i < |cl.workers| && cl.workers[i].maxSandboxes > 0
      ensures |ActiveOn(m.store, TrimSpace(cl.workers[i].id), c.Local())|
          + (if TrimSpace(cl.workers[b].id) == TrimSpace(cl.workers[i].id) then 1 else 0) <= cl.workers[i].maxSandboxes
    {
      assert i < b || i == b || b < i;
    }
  }

  /** Fewer active sandboxes keep a pc sound. */
  lemma LighterIsSound(c: Config, store: Store, store': Store, pc: Pc)
    requires Sound(c, store, pc)
    requires forall w :: |ActiveOn(store', w, c.Local())| <= |ActiveOn(store, w, c.Local())|
    ensures Sound(c, store', pc)
  {
    if pc.Admitted? {
      LighterLoadStillPlaces(c.limits.cluster, pc.req.provider,
                             LoadOf(store, c.Local()), LoadOf(store', c.Local()));
    }
  }

  lemma EntryRooms(c: Config, p: Pc, m: Shared, n: Pc, m': Shared)
    requires EntryMove(c, p, m, n, m')
    ensures m'.store == m.store && WorkerRoom(c, n) == None && Dedicated(n) && !n.Placed? && !n.RemoteLeased?
    ensures n.Admitted? ==> Evaluate(c.limits, m.store, n.req).Allowed?
  {
  }

  lemma EntrySound(c: Config, p: Pc, m: Shared, n: Pc, m': Shared)
    requires Setting(c) && Sound(c, m.store, p) && EntryMove(c, p, m, n, m')
    ensures Sound(c, m'.store, n) && m'.store == m.store
  {
    EntryRooms(c, p, m, n, m');
  }

  lemma DedicatedSound(c: Config, p: Pc, m: Shared, n: Pc, m': Shared)
    requires Setting(c) && Sound(c, m.store, p) && DedicatedMove(c, p, m, n, m')
    ensures Sound(c, m'.store, n) && m'.store == m.store
  {
    if p.Admitted? {
      PlacedIsWithin(c, m, p.req);
    }
  }

  lemma FinishSound(c: Config, p: Pc, m: Shared, n: Pc, m': Shared)
    requires Setting(c) && Sound(c, m.store, p) && FinishMove(c, p, m, n, m')
    ensures Sound(c, m'.store, n)
  {
    if p.Leased? && p.id !in m.store {
      forall w ensures |ActiveOn(m.store[p.id := p.rec], w, c.Local())|
                    <= |ActiveOn(m.store, w, c.Local())| + if WorkerOf(p.rec, c.Local()) == w then 1 else 0 {
        PutActive(m.store, p.id, p.rec, w, c.Local());
      }
    }
  }

  lemma DestroyStores(c: Config, p: Pc, m: Shared, n: Pc, m': Shared)
    requires TeardownMove(c, p, m, n, m') || CleanupMove(c, p, m, n, m')
    ensures m'.store == m.store || m'.store == MarkDestroyed(m.store, Caps.VictimId(p))
    ensures WorkerRoom(c, n) == None && Dedicated(n) && !n.Admitted? && !n.Placed? && !n.RemoteLeased?
  {
  }

  lemma DestroySound(c: Config, p: Pc, m: Shared, n: Pc, m': Shared)
    requires Sound(c, m.store, p) && (TeardownMove(c, p, m, n, m') || CleanupMove(c, p, m, n, m'))
    ensures Sound(c, m'.store, n)
    ensures forall w :: |ActiveOn(m'.store, w, c.Local())| <= |ActiveOn(m.store, w, c.Local())|
  {
    DestroyStores(c, p, m, n, m');
    forall w ensures |ActiveOn(m'.store, w, c.Local())| <= |ActiveOn(m.store, w, c.Local())| {
      MarkActive(m.store, Caps.VictimId(p), w, c.Local());
    }
  }

  ghost predicate SoundInv(c: Config, s: State) {
    && (forall t :: t in s.pcs ==> Sound(c, s.mem.store, s.pcs[t]))
    && Within(c, s.mem.store, AtRest)
  }

  lemma SoundStep(c: Config, s: State, s': State, t: nat)
    requires Setting(c) && LockInv(s) && SoundInv(c, s) && Step(c, s, s', t)
    ensures SoundInv(c, s')
  {
    var p, n := s.pcs[t], s'.pcs[t];
    if EntryMove(c, p, s.mem, n, s'.mem) {
      EntrySound(c, p, s.mem, n, s'.mem);
    } else if DedicatedMove(c, p, s.mem, n, s'.mem) {
      DedicatedSound(c, p, s.mem, n, s'.mem);
    } else if FinishMove(c, p, s.mem, n, s'.mem) {
      FinishSound(c, p, s.mem, n, s'.mem);
      forall u | u in s'.pcs && u != t
        ensures Sound(c, s'.mem.store, s'.pcs[u])
      {
        assert !HoldsLock(s.pcs[u]);
      }
    } else if PoolMove(c, p, s.mem, n, s'.mem) || SlotMove(c, p, s.mem, n, s'.mem) {
      assert false;
    } else {
      DestroySound(c, p, s.mem, n, s'.mem);
      forall u | u in s'.pcs && u != t
        ensures Sound(c, s'.mem.store, s'.pcs[u])
      {
        LighterIsSound(c, s.mem.store, s'.mem.store, s.pcs[u]);
      }
    }
  }

  /** With a fixed non-empty worker table, no worker ever holds more active sandboxes than
      its positive capacity, however Spawns and Destroys interleave; and the placement an
      admitted Spawn recomputes under the lock always finds a worker. */
  lemma {:induction false} WorkerCapsHold(c: Config, d: Discipline, run: seq<State>, i: nat)
    requires Setting(c) && IsRun(c, d, run) && i < |run|
    ensures SoundInv(c, run[i])
    ensures forall w :: w in c.limits.cluster.workers && w.maxSandboxes > 0 ==>
              |ActiveOn(run[i].mem.store, TrimSpace(w.id), c.Local())| <= w.maxSandboxes
    ensures forall t :: t in run[i].pcs && run[i].pcs[t].Admitted? ==>
              PlaceFor(c.limits, run[i].mem.store, run[i].pcs[t].req.provider).selected != ""
  {
    if i == 0 {
      forall w ensures ActiveOn(run[0].mem.store, w, c.Local()) == {} {
      }
    } else {
      WorkerCapsHold(c, d, run, i - 1);
      SoundFollows(c, d, run, i);
    }
    assert Within(c, run[i].mem.store, AtRest);
  }

  lemma SoundFollows(c: Config, d: Discipline, run: seq<State>, i: nat)
    requires Setting(c) && IsRun(c, d, run) && 0 < i < |run| && SoundInv(c, run[i - 1])
    ensures SoundInv(c, run[i])
  {
    OneAdmissionAtATime(c, d, run, i - 1);
    assert Follows(c, d, run, i);
    SoundNext(c, d, run[i - 1], run[i]);
  }

  lemma SoundNext(c: Config, d: Discipline, s: State, s': State)
    requires Setting(c) && LockInv(s) && SoundInv(c, s) && Next(c, d, s, s')
    ensures SoundInv(c, s')
  {
    var t :| StepBy(c, d, s, s', t);
    SoundStep(c, s, s', t);
  }
}
