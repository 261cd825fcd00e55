/** The spawn queue: its bookkeeping, its reported statistics, and when a waiter wakes up. */
module SpawnQueue {
  import opened Records
  import opened Admission
  import Counting

  // ---------- The statistics ----------

  /** Durations are in nanoseconds; counters are unbounded. */
  datatype Stats = Stats(queued: nat, dequeued: nat, timedOut: nat, waitCount: nat, waitTotal: int, waitMax: int)

  function Recorded(s: Stats, wait: int, timeout: bool): Stats {
    Stats(s.queued, s.dequeued + (if timeout then 0 else 1), s.timedOut + (if timeout then 1 else 0),
          s.waitCount + 1, s.waitTotal + wait, if wait > s.waitMax then wait else s.waitMax)
  }

  ghost predicate Balanced(s: Stats) {
    && s.waitCount == s.dequeued + s.timedOut
    && 0 <= s.waitMax <= s.waitTotal <= s.waitCount * s.waitMax
  }

  lemma RecordedBalanced(s: Stats, wait: int, timeout: bool)
    requires Balanced(s) && wait >= 0
    ensures Balanced(Recorded(s, wait, timeout))
  {
    var max := if wait > s.waitMax then wait else s.waitMax;
  }

  /** The reported average wait never exceeds the reported maximum. */
  lemma AverageIsBelowMaximum(s: Stats)
    requires Balanced(s) && s.waitCount > 0
    ensures 0 <= s.waitTotal / s.waitCount <= s.waitMax
  {
  }

  // ---------- The critical sections under queueMu, as functions ----------

  /** The fields queueMu protects. `generation` counts the capacity channels closed so far. */
  datatype Desk = Desk(waiters: int, stats: Stats, generation: nat)

  const FRESH_DESK := Desk(0, Stats(0, 0, 0, 0, 0, 0), 0)

  function Entered(d: Desk): Desk {
    d.(waiters := d.waiters + 1, stats := d.stats.(queued := d.stats.queued + 1))
  }

  function Left(d: Desk): Desk { d.(waiters := d.waiters - 1) }

  function Noted(d: Desk, wait: int, timeout: bool): Desk { d.(stats := Recorded(d.stats, wait, timeout)) }

  function Notified(d: Desk): Desk { d.(generation := d.generation + 1) }

  class Queue {
    const maxQueue: int
    var waiters: int
    var stats: Stats
    var generation: nat

    function Now(): Desk
      reads this
    {
      Desk(waiters, stats, generation)
    }

    constructor (maxQueue: int)
      ensures this.maxQueue == maxQueue && Now() == FRESH_DESK
    {
      this.maxQueue, waiters, stats, generation := maxQueue, 0, Stats(0, 0, 0, 0, 0, 0), 0;
    }

    /** Joining the queue; the result is the capacity channel to wait on. */
    method Enqueue() returns (ok: bool, channel: nat)
      modifies this
      ensures ok == (old(waiters) < maxQueue) && channel == old(generation)
      ensures Now() == if ok then Entered(old(Now())) else old(Now())
    {
      channel := generation;
      if waiters >= maxQueue {
        return false, channel;
      }
      waiters := waiters + 1;
      stats := stats.(queued := stats.queued + 1);
      ok := true;
    }

    method Leave()
      modifies this
      ensures Now() == Left(old(Now()))
    {
      waiters := waiters - 1;
    }

    method Record(wait: int, timeout: bool)
      modifies this
      ensures Now() == Noted(old(Now()), wait, timeout)
      ensures stats.timedOut == old(stats).timedOut + (if timeout then 1 else 0)
      ensures stats.dequeued == old(stats).dequeued + (if timeout then 0 else 1)
      ensures stats.waitTotal == old(stats).waitTotal + wait && stats.waitCount == old(stats).waitCount + 1
      ensures stats.waitMax >= wait && stats.waitMax >= old(stats).waitMax && stats.waitMax in {wait, old(stats).waitMax}
    {
      if timeout {
        stats := stats.(timedOut := stats.timedOut + 1);
      } else {
        stats := stats.(dequeued := stats.dequeued + 1);
      }
      stats := stats.(waitCount := stats.waitCount + 1, waitTotal := stats.waitTotal + wait);
      if wait > stats.waitMax {
        stats := stats.(waitMax := wait);
      }
    }

    /** `notifySpawnCapacity`: close the channel and open the next one. */
    method Notify()
      modifies this
      ensures Now() == Notified(old(Now()))
    {
      generation := generation + 1;
    }

    /** The average as the scheduler status reports it. */
    method AverageWait() returns (avg: int)
      requires Balanced(stats)
      ensures 0 <= avg <= stats.waitMax
      ensures stats.waitCount == 0 ==> avg == 0
      ensures stats.waitCount > 0 ==> avg * stats.waitCount <= stats.waitTotal < (avg + 1) * stats.waitCount
    {
      avg := 0;
      if stats.waitCount > 0 {
        avg := stats.waitTotal / stats.waitCount;
        AverageIsBelowMaximum(stats);
      }
    }
  }

  // ---------- Capacity ----------

  /** Neither cap that a Spawn may queue for is reached. */
  ghost predicate Free(l: Limits, store: Store, owner: string) {
    && !(l.maxSandboxes > 0 && |Live(store)| >= l.maxSandboxes)
    && !(owner != "" && OwnerCap(l, owner) > 0 && |OwnedLive(store, owner)| >= OwnerCap(l, owner))
  }

  /** That is what the admission check decides: it allows only a request with capacity, and
      sends only one without to the queue. */
  lemma QueuedForCapacity(l: Limits, store: Store, req: Request)
    ensures Evaluate(l, store, req).Allowed? ==> Free(l, store, req.owner)
    ensures Evaluate(l, store, req).Denied? && Evaluate(l, store, req).queueable ==> !Free(l, store, req.owner)
  {
  }

  /** A new row frees no capacity. */
  lemma InsertFreesNothing(l: Limits, store: Store, id: string, rec: SandboxRecord, owner: string)
    requires id !in store && !Free(l, store, owner)
    ensures !Free(l, store[id := rec], owner)
  {
    Counting.SubsetSize(Live(store), Live(store[id := rec]));
    Counting.SubsetSize(OwnedLive(store, owner), OwnedLive(store[id := rec], owner));
  }

  // ---------- Waiters as a step system ----------

  /** A thread in the spawn queue, or one that has freed capacity. `seen` is the channel
      generation when capacity was last evaluated, `channel` the one waited on. */
  datatype Pc =
    | Outside
    | Refused(owner: string, seen: nat)                  // evaluated as full, not yet queued
    | Asleep(owner: string, channel: nat, seen: nat, since: int)
    | Woken(owner: string, since: int)                   // channel closed, evaluation pending
    | StillFull(owner: string, seen: nat, since: int)    // evaluated as full again
    | Served(since: int)                                 // capacity found, not yet recorded
    | Expired(since: int)                                // timed out, not yet recorded
    | Leaving                                            // decrement pending
    | Notifying                                          // row destroyed or quota changed, notification pending

  datatype State = State(
    pcs: map<nat, Pc>, desk: Desk, aborted: nat, store: Store, quotas: map<string, Quota>, clock: int)

  datatype Config = Config(limits: Limits, maxQueue: int)

  ghost predicate HasRoom(c: Config, s: State, owner: string) {
    Free(c.limits.(quotas := s.quotas), s.store, owner)
  }

  predicate InQueue(pc: Pc) { !pc.Outside? && !pc.Refused? && !pc.Notifying? }

  /** Queued and neither recorded nor aborted. */
  predicate Pending(pc: Pc) { InQueue(pc) && !pc.Leaving? }

  function Go(s: State, t: nat, pc: Pc): State { s.(pcs := s.pcs[t := pc]) }

  /** What happens to capacity: a row is destroyed or a quota saved or deleted, and a
      notification follows; or a row is written. */
  ghost predicate CapacityStep(s: State, s': State, t: nat)
    requires t in s.pcs
  {
    || (exists id :: s' == Go(s.(store := MarkDestroyed(s.store, id)), t, Notifying))
    || s' == Go(s.(quotas := s'.quotas), t, Notifying)
    || (exists id, rec :: Writes(s, s', id, rec))
  }

  ghost predicate Writes(s: State, s': State, id: string, rec: SandboxRecord) {
    id !in s.store && s' == s.(store := s.store[id := rec])
  }

  ghost predicate QueueStep(c: Config, s: State, s': State, t: nat)
    requires t in s.pcs
  {
    var d := s.desk;
    match s.pcs[t]
    case Outside =>
      || (exists owner :: !HasRoom(c, s, owner) && s' == Go(s, t, Refused(owner, d.generation)))
      || CapacityStep(s, s', t)
    case Refused(owner, seen) =>
      if d.waiters >= c.maxQueue then s' == Go(s, t, Outside)
      else s' == Go(s.(desk := Entered(d)), t, Asleep(owner, d.generation, seen, s.clock))
    case Asleep(owner, channel, seen, since) =>
      || s' == Go(s, t, Pc.Expired(since))
      || s' == Go(s.(aborted := s.aborted + 1), t, Leaving)
      || (channel < d.generation && s' == Go(s, t, Woken(owner, since)))
    case Woken(owner, since) =>
      || s' == Go(s.(aborted := s.aborted + 1), t, Leaving)
      || (HasRoom(c, s, owner) && s' == Go(s, t, Served(since)))
      || (!HasRoom(c, s, owner) && s' == Go(s, t, StillFull(owner, d.generation, since)))
    case StillFull(owner, seen, since) => s' == Go(s, t, Asleep(owner, d.generation, seen, since))
    case Served(since) => s' == Go(s.(desk := Noted(d, s.clock - since, false)), t, Leaving)
    case Expired(since) => s' == Go(s.(desk := Noted(d, s.clock - since, true)), t, Leaving)
    case Leaving => s' == Go(s.(desk := Left(d)), t, Outside)
    case Notifying => s' == Go(s.(desk := Notified(d)), t, Outside)
  }

  ghost predicate Next(c: Config, s: State, s': State) {
    || (exists t :: t in s.pcs && QueueStep(c, s, s', t))
    || (s'.clock >= s.clock && s' == s.(clock := s'.clock))
  }

  ghost predicate Initially(s: State) {
    && (forall t :: t in s.pcs ==> s.pcs[t].Outside?)
    && s.desk == FRESH_DESK && s.aborted == 0
  }

  ghost predicate Follows(c: Config, run: seq<State>, i: nat)
    requires 0 < i < |run|
  {
    Next(c, run[i - 1], run[i])
  }

  ghost predicate IsRun(c: Config, run: seq<State>) {
    |run| > 0 && Initially(run[0]) && forall i :: 0 < i < |run| ==> Follows(c, run, i)
  }

  // ---------- Accounting ----------

  ghost function Queued(pcs: map<nat, Pc>): set<nat> { set t | t in pcs && InQueue(pcs[t]) }

  ghost function Waiting(pcs: map<nat, Pc>): set<nat> { set t | t in pcs && Pending(pcs[t]) }

  lemma QueuedMoves(pcs: map<nat, Pc>, t: nat, n: Pc)
    requires t in pcs
    ensures |Queued(pcs[t := n])| == |Queued(pcs)| - (if InQueue(pcs[t]) then 1 else 0) + (if InQueue(n) then 1 else 0)
  {
    assert Queued(pcs[t := n]) - {t} == Queued(pcs) - {t};
    Without(Queued(pcs), t);
    Without(Queued(pcs[t := n]), t);
  }

  lemma WaitingMoves(pcs: map<nat, Pc>, t: nat, n: Pc)
    requires t in pcs
    ensures |Waiting(pcs[t := n])| == |Waiting(pcs)| - (if Pending(pcs[t]) then 1 else 0) + (if Pending(n) then 1 else 0)
  {
    assert Waiting(pcs[t := n]) - {t} == Waiting(pcs) - {t};
    Without(Waiting(pcs), t);
    Without(Waiting(pcs[t := n]), t);
  }

  lemma Without(s: set<nat>, t: nat)
    ensures |s - {t}| == |s| - if t in s then 1 else 0
  {
    if t in s {
      assert s == s - {t} + {t};
    } else {
      assert s - {t} == s;
    }
  }

  predicate Since(pc: Pc, clock: int) {
    match pc
    case Asleep(_, _, _, since) => since <= clock
    case Woken(_, since) => since <= clock
    case StillFull(_, _, since) => since <= clock
    case Served(since) => since <= clock
    case Expired(since) => since <= clock
    case _ => true
  }

  ghost predicate AccountsInv(c: Config, s: State) {
    && s.desk.waiters == |Queued(s.pcs)|
    && s.desk.waiters <= (if c.maxQueue > 0 then c.maxQueue else 0)
    && s.desk.stats.queued == s.desk.stats.dequeued + s.desk.stats.timedOut + s.aborted + |Waiting(s.pcs)|
    && Balanced(s.desk.stats)
    && forall t :: t in s.pcs ==> Since(s.pcs[t], s.clock)
  }

  /** The figures follow what one thread's step does to its own place. */
  ghost predicate Follow(c: Config, s: State, s': State, t: nat)
    requires t in s.pcs && t in s'.pcs
  {
    && s'.clock == s.clock
    && s'.desk.waiters == s.desk.waiters + (if InQueue(s'.pcs[t]) then 1 else 0) - (if InQueue(s.pcs[t]) then 1 else 0)
    && (s'.desk.waiters > s.desk.waiters ==> s.desk.waiters < c.maxQueue)
    && s'.desk.stats.queued - s'.desk.stats.dequeued - s'.desk.stats.timedOut - s'.aborted
       == s.desk.stats.queued - s.desk.stats.dequeued - s.desk.stats.timedOut - s.aborted
          + (if Pending(s'.pcs[t]) then 1 else 0) - (if Pending(s.pcs[t]) then 1 else 0)
  }

  lemma OutsideMoves(c: Config, s: State, s': State, t: nat)
    requires t in s.pcs && QueueStep(c, s, s', t) && s.pcs[t].Outside?
    ensures s'.desk == s.desk && t in s'.pcs && Follow(c, s, s', t) && Since(s'.pcs[t], s'.clock)
    ensures s'.pcs == s.pcs || s'.pcs == s.pcs[t := s'.pcs[t]]
  {
  }

  lemma AccountsMove(c: Config, s: State, s': State, t: nat)
    requires t in s.pcs && QueueStep(c, s, s', t) && !s.pcs[t].Outside?
    ensures t in s'.pcs && s'.pcs == s.pcs[t := s'.pcs[t]] && Follow(c, s, s', t)
  {
  }

  lemma DeskMove(c: Config, s: State, s': State, t: nat)
    requires t in s.pcs && QueueStep(c, s, s', t) && !s.pcs[t].Outside? && Since(s.pcs[t], s.clock)
    ensures t in s'.pcs && Since(s'.pcs[t], s'.clock)
    ensures || (s'.desk.stats == s.desk.stats.(queued := s'.desk.stats.queued))
            || exists wait, timeout :: wait >= 0 && s'.desk.stats == Recorded(s.desk.stats, wait, timeout)
  {
    var wait := if s.pcs[t].Served? || s.pcs[t].Expired? then s.clock - s.pcs[t].since else 0;
    assert s.pcs[t].Served? ==> s'.desk.stats == Recorded(s.desk.stats, wait, false);
    assert s.pcs[t].Expired? ==> s'.desk.stats == Recorded(s.desk.stats, wait, true);
  }

  lemma BalancedMove(c: Config, s: State, s': State, t: nat)
    requires t in s.pcs && QueueStep(c, s, s', t) && !s.pcs[t].Outside? && Balanced(s.desk.stats) && Since(s.pcs[t], s.clock)
    ensures t in s'.pcs && Balanced(s'.desk.stats) && Since(s'.pcs[t], s'.clock)
  {
    DeskMove(c, s, s', t);
    if wait, timeout :| wait >= 0 && s'.desk.stats == Recorded(s.desk.stats, wait, timeout) {
      RecordedBalanced(s.desk.stats, wait, timeout);
    }
  }

  lemma AccountsStep(c: Config, s: State, s': State)
    requires AccountsInv(c, s) && Next(c, s, s')
    ensures AccountsInv(c, s')
  {
    if t :| t in s.pcs && QueueStep(c, s, s', t) {
      if s.pcs[t].Outside? {
        OutsideMoves(c, s, s', t);
      } else {
        AccountsMove(c, s, s', t);
        BalancedMove(c, s, s', t);
      }
      if s'.pcs != s.pcs {
        QueuedMoves(s.pcs, t, s'.pcs[t]);
        WaitingMoves(s.pcs, t, s'.pcs[t]);
      }
    }
  }

  /** In every reachable state the queue depth is the number of threads between their
      enqueue and their deferred decrement and stays within the limit; everything ever
      queued was dequeued, timed out, was aborted, or is still waiting; and the wait
      statistics are consistent. */
  lemma {:induction false} AccountsHold(c: Config, run: seq<State>, i: nat)
    requires IsRun(c, run) && i < |run|
    ensures AccountsInv(c, run[i])
  {
    if i == 0 {
      assert Queued(run[0].pcs) == {} == Waiting(run[0].pcs);
    } else {
      AccountsHold(c, run, i - 1);
      assert Follows(c, run, i);
      AccountsStep(c, run[i - 1], run[i]);
    }
  }

  // ---------- Waking up ----------

  ghost predicate SomeoneNotifies(s: State) { exists u :: u in s.pcs && s.pcs[u].Notifying? }

  /** Whose request the thread last found without capacity at the channel generation that is
      still open, when it has slept through nothing since. */
  ghost predicate Informed(pc: Pc, generation: nat) {
    match pc
    case Refused(_, seen) => seen == generation
    case StillFull(_, seen, _) => seen == generation
    case Asleep(_, channel, seen, _) => channel == seen == generation
    case _ => false
  }

  predicate Ordered(pc: Pc, generation: nat) {
    match pc
    case Refused(_, seen) => seen <= generation
    case StillFull(_, seen, _) => seen <= generation
    case Asleep(_, channel, seen, _) => seen <= channel <= generation
    case _ => true
  }

  /** Nothing an informed thread waits for has happened unannounced. */
  ghost predicate Covered(c: Config, s: State, pc: Pc) {
    Informed(pc, s.desk.generation) ==> !HasRoom(c, s, pc.owner) || SomeoneNotifies(s)
  }

  ghost predicate WakeInv(c: Config, s: State) {
    forall t :: t in s.pcs ==> Ordered(s.pcs[t], s.desk.generation) && Covered(c, s, s.pcs[t])
  }

  lemma OthersStillNotify(c: Config, s: State, s': State, t: nat)
    requires t in s.pcs && QueueStep(c, s, s', t) && SomeoneNotifies(s) && !s.pcs[t].Notifying?
    ensures SomeoneNotifies(s')
  {
    var u :| u in s.pcs && s.pcs[u].Notifying?;
    assert u in s'.pcs && s'.pcs[u].Notifying?;
  }

  lemma OrderedStep(c: Config, s: State, s': State, t: nat)
    requires t in s.pcs && QueueStep(c, s, s', t) && forall u :: u in s.pcs ==> Ordered(s.pcs[u], s.desk.generation)
    ensures forall u :: u in s'.pcs ==> Ordered(s'.pcs[u], s'.desk.generation)
  {
  }

  /** A step frees capacity for nobody, or its thread is about to notify. */
  lemma CapacityIsAnnounced(c: Config, s: State, s': State, t: nat, owner: string)
    requires t in s.pcs && QueueStep(c, s, s', t) && !HasRoom(c, s, owner)
    ensures !HasRoom(c, s', owner) || (t in s'.pcs && s'.pcs[t].Notifying?)
  {
    if id, rec :| s.pcs[t].Outside? && Writes(s, s', id, rec) {
      InsertFreesNothing(c.limits.(quotas := s.quotas), s.store, id, rec, owner);
    }
  }

  /** A notification leaves nobody informed: every channel it closes is an old one now. */
  lemma NoneInformed(c: Config, s: State, s': State, t: nat)
    requires WakeInv(c, s) && t in s.pcs && QueueStep(c, s, s', t) && s.pcs[t].Notifying?
    ensures forall u :: u in s'.pcs ==> !Informed(s'.pcs[u], s'.desk.generation)
  {
    assert forall u :: u in s'.pcs && u != t ==> s'.pcs[u] == s.pcs[u] && Ordered(s.pcs[u], s.desk.generation);
  }

  lemma CoveredStep(c: Config, s: State, s': State, t: nat, u: nat)
    requires WakeInv(c, s) && t in s.pcs && QueueStep(c, s, s', t) && !s.pcs[t].Notifying?
    requires u in s.pcs && u in s'.pcs && Informed(s'.pcs[u], s'.desk.generation)
    ensures !HasRoom(c, s', s'.pcs[u].owner) || SomeoneNotifies(s')
  {
    if SomeoneNotifies(s) {
      OthersStillNotify(c, s, s', t);
    } else if u == t {
      if Informed(s.pcs[t], s.desk.generation) && s'.pcs[t].owner == s.pcs[t].owner {
        CapacityIsAnnounced(c, s, s', t, s.pcs[t].owner);
      }
    } else {
      assert s'.pcs[u] == s.pcs[u] && s'.desk.generation == s.desk.generation;
      CapacityIsAnnounced(c, s, s', t, s.pcs[u].owner);
    }
  }

  lemma WakeStep(c: Config, s: State, s': State)
    requires WakeInv(c, s) && Next(c, s, s')
    ensures WakeInv(c, s')
  {
    if t :| t in s.pcs && QueueStep(c, s, s', t) {
      OrderedStep(c, s, s', t);
      if s.pcs[t].Notifying? {
        NoneInformed(c, s, s', t);
      } else {
        forall u | u in s'.pcs && Informed(s'.pcs[u], s'.desk.generation)
          ensures !HasRoom(c, s', s'.pcs[u].owner) || SomeoneNotifies(s')
        {
          CoveredStep(c, s, s', t, u);
        }
      }
    } else if SomeoneNotifies(s) {
      var u :| u in s.pcs && s.pcs[u].Notifying?;
      assert s'.pcs[u].Notifying?;
    }
  }

  lemma {:induction false} WakeHolds(c: Config, run: seq<State>, i: nat)
    requires IsRun(c, run) && i < |run|
    ensures WakeInv(c, run[i])
  {
    if i > 0 {
      WakeHolds(c, run, i - 1);
      assert Follows(c, run, i);
      WakeStep(c, run[i - 1], run[i]);
    }
  }

  /** Thread t sleeps on the open channel although there is capacity for its request and
      nobody is about to notify. */
  ghost predicate Stuck(c: Config, s: State, t: nat) {
    && t in s.pcs && s.pcs[t].Asleep? && s.pcs[t].channel == s.desk.generation
    && HasRoom(c, s, s.pcs[t].owner) && !SomeoneNotifies(s)
  }

  lemma StuckHasMissed(c: Config, s: State, t: nat)
    requires WakeInv(c, s) && Stuck(c, s, t)
    ensures s.pcs[t].seen < s.pcs[t].channel
  {
    assert Ordered(s.pcs[t], s.desk.generation) && Covered(c, s, s.pcs[t]);
  }

  /** A stuck waiter missed a notification between its last look at the capacity and its
      reading of the channel. */
  lemma StuckOnlyAfterMissedNotification(c: Config, run: seq<State>, i: nat, t: nat)
    requires IsRun(c, run) && i < |run| && Stuck(c, run[i], t)
    ensures run[i].pcs[t].seen < run[i].pcs[t].channel
  {
    WakeHolds(c, run, i);
    StuckHasMissed(c, run[i], t);
  }

  /** A waiter becomes stuck in no other step than its own, when it reads the channel after a
      notification that followed its last look. Once asleep in time it is never stranded. */
  lemma OnlyOvertakenWaitersGetStuck(c: Config, run: seq<State>, i: nat, t: nat)
    requires IsRun(c, run) && 0 < i < |run| && t in run[i - 1].pcs
    requires !Stuck(c, run[i - 1], t) && Stuck(c, run[i], t)
    ensures var pc := run[i - 1].pcs[t];
            (pc.Refused? || pc.StillFull?) && pc.seen < run[i - 1].desk.generation
  {
    OrderedHolds(c, run, i - 1, t);
    StuckOnlyAfterMissedNotification(c, run, i, t);
    assert Follows(c, run, i);
    StrandingStep(c, run[i - 1], run[i], t);
  }

  lemma OrderedHolds(c: Config, run: seq<State>, i: nat, t: nat)
    requires IsRun(c, run) && i < |run| && t in run[i].pcs
    ensures Ordered(run[i].pcs[t], run[i].desk.generation)
  {
    WakeHolds(c, run, i);
  }

  lemma StrandingStep(c: Config, s: State, s': State, t: nat)
    requires Next(c, s, s') && t in s.pcs && !Stuck(c, s, t) && Stuck(c, s', t)
    requires Ordered(s.pcs[t], s.desk.generation) && s'.pcs[t].seen < s'.pcs[t].channel
    ensures (s.pcs[t].Refused? || s.pcs[t].StillFull?) && s.pcs[t].seen < s.desk.generation
  {
    if u :| u in s.pcs && QueueStep(c, s, s', u) {
      if u == t {
        OwnStranding(c, s, s', t);
      } else {
        NotStrandedByOthers(c, s, s', u, t);
      }
    }
  }

  lemma OwnStranding(c: Config, s: State, s': State, t: nat)
    requires t in s.pcs && QueueStep(c, s, s', t) && Stuck(c, s', t) && s'.pcs[t].seen < s'.pcs[t].channel
    ensures (s.pcs[t].Refused? || s.pcs[t].StillFull?) && s.pcs[t].seen < s.desk.generation
  {
  }

  lemma NotStrandedByOthers(c: Config, s: State, s': State, u: nat, t: nat)
    requires u in s.pcs && t in s.pcs && u != t && QueueStep(c, s, s', u) && s'.pcs[t] == s.pcs[t]
    requires Stuck(c, s', t) && Ordered(s.pcs[t], s.desk.generation)
    ensures Stuck(c, s, t)
  {
    assert !s.pcs[u].Notifying?;
    if SomeoneNotifies(s) {
      OthersStillNotify(c, s, s', u);
    }
    if !HasRoom(c, s, s.pcs[t].owner) {
      CapacityIsAnnounced(c, s, s', u, s.pcs[t].owner);
    }
  }

  /** Why a thread in the queue moves: it is woken only after its channel was closed, found to
      have capacity or none only when that is so, and queued or sent away by the room in the
      queue. */
  lemma WaitersMoveForReasons(c: Config, run: seq<State>, i: nat, t: nat)
    requires IsRun(c, run) && 0 < i < |run| && t in run[i - 1].pcs && t in run[i].pcs
    requires run[i].pcs[t] != run[i - 1].pcs[t]
    ensures Justified(c, run[i - 1], run[i - 1].pcs[t], run[i].pcs[t])
  {
    assert Follows(c, run, i);
    NextReason(c, run[i - 1], run[i], t);
  }

  lemma OthersStay(c: Config, s: State, s': State, u: nat, t: nat)
    requires u in s.pcs && t in s.pcs && u != t && QueueStep(c, s, s', u)
    ensures t in s'.pcs && s'.pcs[t] == s.pcs[t]
  {
  }

  lemma NextReason(c: Config, s: State, s': State, t: nat)
    requires Next(c, s, s') && t in s.pcs && t in s'.pcs && s'.pcs[t] != s.pcs[t]
    ensures Justified(c, s, s.pcs[t], s'.pcs[t])
  {
    var u :| u in s.pcs && QueueStep(c, s, s', u);
    if u != t {
      OthersStay(c, s, s', u, t);
      assert false;
    }
    OwnReason(c, s, s', t);
  }

  ghost predicate Justified(c: Config, s: State, p: Pc, n: Pc) {
    && (p.Asleep? && n.Woken? ==> p.channel < s.desk.generation)
    && (n.Served? ==> p.Woken? && HasRoom(c, s, p.owner))
    && (n.Refused? || n.StillFull? ==> !HasRoom(c, s, n.owner))
    && (p.Refused? ==> if s.desk.waiters < c.maxQueue then n.Asleep? else n.Outside?)
    && (n.Asleep? ==> n.channel == s.desk.generation)
  }

  lemma OwnReason(c: Config, s: State, s': State, t: nat)
    requires t in s.pcs && t in s'.pcs && s'.pcs[t] != s.pcs[t] && QueueStep(c, s, s', t)
    ensures Justified(c, s, s.pcs[t], s'.pcs[t])
  {
  }

  lemma Extend(c: Config, run: seq<State>, s': State, t: nat) returns (longer: seq<State>)
    requires IsRun(c, run) && t in run[|run| - 1].pcs && QueueStep(c, run[|run| - 1], s', t)
    ensures longer == run + [s'] && IsRun(c, longer)
  {
    longer := run + [s'];
    forall i | 0 < i < |longer| ensures Follows(c, longer, i) {
      if i < |run| {
        assert Follows(c, run, i) && longer[i - 1] == run[i - 1] && longer[i] == run[i];
      } else {
        assert longer[i - 1] == run[|run| - 1] && longer[i] == s';
      }
    }
  }

  /** A waiter whose channel was closed and for whom there is capacity can be served; one
      that sleeps can time out. Both leave the queue, counted as what they are and with the time
      they waited. */
  lemma WaiterCanLeave(c: Config, run: seq<State>, t: nat, timeout: bool) returns (longer: seq<State>)
    requires IsRun(c, run) && t in run[|run| - 1].pcs && run[|run| - 1].pcs[t].Asleep?
    requires var s := run[|run| - 1];
             !timeout ==> s.pcs[t].channel < s.desk.generation && HasRoom(c, s, s.pcs[t].owner)
    ensures IsRun(c, longer) && run <= longer
    ensures var s, s' := run[|run| - 1], longer[|longer| - 1];
            var d, wait := s.desk, s.clock - s.pcs[t].since;
            && s'.pcs == s.pcs[t := Outside] && s'.store == s.store && s'.desk.waiters == d.waiters - 1
            && s'.desk.stats.dequeued == d.stats.dequeued + (if timeout then 0 else 1)
            && s'.desk.stats.timedOut == d.stats.timedOut + (if timeout then 1 else 0)
            && s'.desk.stats.waitCount == d.stats.waitCount + 1 && s'.desk.stats.waitTotal == d.stats.waitTotal + wait
            && s'.aborted == s.aborted && s'.desk.generation == d.generation
  {
    var s := run[|run| - 1];
    var pc := s.pcs[t];
    longer := run;
    if timeout {
      longer := Extend(c, longer, Go(s, t, Pc.Expired(pc.since)), t);
    } else {
      longer := Extend(c, longer, Go(s, t, Woken(pc.owner, pc.since)), t);
      longer := Extend(c, longer, Go(s, t, Served(pc.since)), t);
    }
    var desk := Noted(s.desk, s.clock - pc.since, timeout);
    longer := Extend(c, longer, Go(s.(desk := desk), t, Leaving), t);
    longer := Extend(c, longer, Go(s.(desk := Left(desk)), t, Outside), t);
  }

  /** Thread t has found no capacity and is about to queue or, woken before, to sleep again;
      thread u can destroy a row that makes room for t, and nobody else is about to notify. */
  ghost predicate Overtakable(c: Config, s: State, t: nat, u: nat, id: string) {
    && t in s.pcs && u in s.pcs && t != u && s.pcs[u].Outside? && !SomeoneNotifies(s)
    && ((s.pcs[t].Refused? && s.desk.waiters < c.maxQueue) || s.pcs[t].StillFull?)
    && Free(c.limits.(quotas := s.quotas), MarkDestroyed(s.store, id), s.pcs[t].owner)
  }

  /** From every such state the run can go on to leave t stuck: u destroys the row and
      notifies before t reads the channel. */
  lemma WakeUpCanBeLost(c: Config, run: seq<State>, t: nat, u: nat, id: string) returns (longer: seq<State>)
    requires IsRun(c, run) && Overtakable(c, run[|run| - 1], t, u, id)
    ensures IsRun(c, longer) && run <= longer && Stuck(c, longer[|longer| - 1], t)
  {
    var s := run[|run| - 1];
    var s1 := Go(s.(store := MarkDestroyed(s.store, id)), u, Notifying);
    longer := Extend(c, run, s1, u);
    var s2 := Go(s1.(desk := Notified(s1.desk)), u, Outside);
    longer := Extend(c, longer, s2, u);
    var pc := s.pcs[t];
    var desk := if pc.Refused? then Entered(s2.desk) else s2.desk;
    var since := if pc.Refused? then s2.clock else pc.since;
    var s3 := Go(s2.(desk := desk), t, Asleep(pc.owner, s2.desk.generation, pc.seen, since));
    longer := Extend(c, longer, s3, t);
    assert s3.pcs[u] == Outside && forall v :: v in s3.pcs && v != t && v != u ==> s3.pcs[v] == s.pcs[v];
  }

  lemma FirstRefusal(c: Config, rec: SandboxRecord) returns (run: seq<State>)
    requires c.limits.maxSandboxes == 1 && rec.state == Running
    ensures IsRun(c, run)
    ensures run[|run| - 1] == State(map[0 := Refused("", 0), 1 := Outside], FRESH_DESK, 0, map["a" := rec], map[], 0)
  {
    var s0 := State(map[0 := Outside, 1 := Outside], FRESH_DESK, 0, map["a" := rec], map[], 0);
    assert Live(s0.store) == {"a"};
    assert !HasRoom(c, s0, "");
    run := Extend(c, [s0], Go(s0, 0, Refused("", 0)), 0);
    assert s0.pcs[0 := Refused("", 0)] == map[0 := Refused("", 0), 1 := Outside];
  }

  lemma OneRowIsFull(c: Config, rec: SandboxRecord, quotas: map<string, Quota>)
    requires c.limits.maxSandboxes == 1 && rec.state == Running
    ensures !Free(c.limits.(quotas := quotas), map["a" := rec], "")
    ensures Free(c.limits.(quotas := quotas), MarkDestroyed(map["a" := rec], "a"), "")
  {
    assert Live(map["a" := rec]) == {"a"};
    assert Live(MarkDestroyed(map["a" := rec], "a")) == {};
  }

  /** The first Spawn that has to queue can be overtaken. */
  lemma FirstWaiterIsOvertakable(c: Config, rec: SandboxRecord) returns (run: seq<State>)
    requires c.maxQueue > 0 && c.limits.maxSandboxes == 1 && rec.state == Running
    ensures IsRun(c, run) && Overtakable(c, run[|run| - 1], 0, 1, "a") && run[|run| - 1].pcs[0].Refused?
  {
    run := FirstRefusal(c, rec);
    OneRowIsFull(c, rec, map[]);
  }

  /** Thread 0 goes to sleep and is woken because a quota was saved. */
  lemma WokenForNothing(c: Config, rec: SandboxRecord) returns (run: seq<State>)
    requires c.maxQueue > 0 && c.limits.maxSandboxes == 1 && rec.state == Running
    ensures IsRun(c, run)
    ensures run[|run| - 1] == State(map[0 := Woken("", 0), 1 := Outside], Notified(Entered(FRESH_DESK)), 0,
                                    map["a" := rec], map[], 0)
  {
    run := FirstRefusal(c, rec);
    var s := run[|run| - 1];
    s := Go(s.(desk := Entered(s.desk)), 0, Asleep("", 0, 0, 0));
    run := Extend(c, run, s, 0);
    s := Go(s, 1, Notifying);
    run := Extend(c, run, s, 1);
    s := Go(s.(desk := Notified(s.desk)), 1, Outside);
    run := Extend(c, run, s, 1);
    s := Go(s, 0, Woken("", 0));
    run := Extend(c, run, s, 0);
    assert s.pcs == map[0 := Woken("", 0), 1 := Outside];
  }

  /** So can a waiter that was woken for nothing, looked again and found the table full. */
  lemma WokenWaiterIsOvertakable(c: Config, rec: SandboxRecord) returns (run: seq<State>)
    requires c.maxQueue > 0 && c.limits.maxSandboxes == 1 && rec.state == Running
    ensures IsRun(c, run) && Overtakable(c, run[|run| - 1], 0, 1, "a") && run[|run| - 1].pcs[0].StillFull?
  {
    run := WokenForNothing(c, rec);
    OneRowIsFull(c, rec, map[]);
    var s := run[|run| - 1];
    run := Extend(c, run, Go(s, 0, StillFull("", s.desk.generation, 0)), 0);
  }
}
