/** Worker placement: which worker a new sandbox goes to. */
module Scheduler {
  import opened Text
  import opened Records
  import Counting

  /** A worker row with its JSON columns decoded; `providers` is None when they do not parse. */
  datatype WorkerRecord = WorkerRecord(
    id: string, status: string, lastHeartbeat: int, providers: Option<seq<string>>, maxSandboxes: int)

  /** The worker table as one placement sees it. Times are in nanoseconds. */
  datatype Cluster = Cluster(localId: string, workers: seq<WorkerRecord>, now: int)

  datatype Reason = Chosen | LocalFallback | NoEligibleWorker
  datatype Placement = Placement(selected: string, eligible: nat, reason: Reason)

  const STALE_AFTER: int := 120_000_000_000

  /** Active sandboxes per worker. */
  type Load = string -> nat

  ghost function LoadOf(store: Store, localId: string): Load {
    w => |ActiveOn(store, w, localId)|
  }

  predicate Supports(w: WorkerRecord, provider: string) {
    && w.providers.Some?
    && (|w.providers.value| == 0
        || exists i :: 0 <= i < |w.providers.value| && EqualFold(TrimSpace(w.providers.value[i]), provider))
  }

  predicate Eligible(c: Cluster, provider: string, w: WorkerRecord, count: nat) {
    && TrimSpace(w.id) != ""
    && EqualFold(w.status, "online")
    && c.now - w.lastHeartbeat <= STALE_AFTER
    && (provider == "" || Supports(w, provider))
    && !(w.maxSandboxes > 0 && count >= w.maxSandboxes)
  }

  /** What the loop looks at in a worker row. */
  datatype Row = Row(id: string, fit: bool, local: bool, load: nat)

  function RowOf(c: Cluster, provider: string, load: Load, w: WorkerRecord): Row {
    var id := TrimSpace(w.id);
    Row(id, Eligible(c, provider, w, load(id)), id == c.localId, load(id))
  }

  function Rows(c: Cluster, provider: string, load: Load): (rows: seq<Row>)
    ensures |rows| == |c.workers|
    ensures forall i :: 0 <= i < |rows| ==> rows[i] == RowOf(c, provider, load, c.workers[i])
  {
    seq(|c.workers|, i requires 0 <= i < |c.workers| => RowOf(c, provider, load, c.workers[i]))
  }

  function FitCount(rows: seq<Row>, k: nat): nat
    requires k <= |rows|
  {
    if k == 0 then 0 else FitCount(rows, k - 1) + if rows[k - 1].fit then 1 else 0
  }

  /** The row held as best after the first k: an eligible local row always takes over, any
      other eligible row only when strictly less loaded than the one held. */
  function Best(rows: seq<Row>, k: nat): (b: Option<nat>)
    requires k <= |rows|
    ensures b.Some? ==> b.value < k && rows[b.value].fit
  {
    if k == 0 then None
    else
      var b, i := Best(rows, k - 1), k - 1;
      if !rows[i].fit then b
      else if rows[i].local || b.None? || rows[i].load < rows[b.value].load then Some(i)
      else b
  }

  function Place(c: Cluster, provider: string, load: Load): Placement {
    var rows := Rows(c, provider, load);
    if |rows| == 0 then Placement(c.localId, 1, LocalFallback)
    else match Best(rows, |rows|)
      case None => Placement("", 0, NoEligibleWorker)
      case Some(i) => Placement(rows[i].id, FitCount(rows, |rows|), Chosen)
  }

  // ---------- What the choice means ----------

  /** Where the search effectively starts among the first k rows: at the last eligible
      occurrence of the local worker, or at the first row when there is none. */
  ghost predicate IsStart(rows: seq<Row>, k: nat, st: nat)
    requires k <= |rows|
  {
    && (st == 0 || (st < k && rows[st].fit && rows[st].local))
    && (forall i :: st < i < k && rows[i].fit ==> !rows[i].local)
  }

  /** `b` is the leftmost of the least loaded eligible rows from `st` on. */
  ghost predicate IsLeftmostLeast(rows: seq<Row>, k: nat, st: nat, b: nat)
    requires k <= |rows|
  {
    && st <= b < k && rows[b].fit
    && (forall j :: st <= j < k && rows[j].fit ==> rows[b].load <= rows[j].load)
    && (forall j :: st <= j < b && rows[j].fit ==> rows[b].load < rows[j].load)
  }

  lemma {:induction false} BestIsLeftmostLeast(rows: seq<Row>, k: nat) returns (st: nat)
    requires k <= |rows|
    ensures IsStart(rows, k, st)
    ensures Best(rows, k).None? ==> forall i :: 0 <= i < k ==> !rows[i].fit
    ensures Best(rows, k).Some? ==> IsLeftmostLeast(rows, k, st, Best(rows, k).value)
  {
    st := 0;
    if k > 0 {
      st := BestIsLeftmostLeast(rows, k - 1);
      if rows[k - 1].fit && rows[k - 1].local {
        st := k - 1;
      }
    }
  }

  lemma {:induction false} FitCountIsSize(rows: seq<Row>, k: nat)
    requires k <= |rows|
    ensures FitCount(rows, k) == |set i: nat | i < k && rows[i].fit|
    ensures FitCount(rows, k) == 0 <==> Best(rows, k).None?
  {
    if k > 0 {
      FitCountIsSize(rows, k - 1);
      var prev := set i: nat | i < k - 1 && rows[i].fit;
      assert (set i: nat | i < k && rows[i].fit) == if rows[k - 1].fit then prev + {k - 1} else prev;
    }
  }

  /** The whole choice: `eligible` counts the eligible rows, the selection is empty exactly
      when there is none, and otherwise it is the leftmost least loaded row from the start
      on. Start and leftmost least row are unique, so this fixes the selection. */
  lemma PlacementIsDeclared(c: Cluster, provider: string, load: Load)
    requires c.workers != []
    ensures var p, rows := Place(c, provider, load), Rows(c, provider, load);
            var n := |rows|;
            && p.eligible == |set i: nat | i < n && rows[i].fit|
            && (p.selected == "" <==> p.eligible == 0)
            && (p.eligible > 0 ==>
                exists st: nat, b: nat ::
                  IsStart(rows, n, st) && IsLeftmostLeast(rows, n, st, b) && p.selected == rows[b].id)
            && (forall st: nat, b: nat ::
                  IsStart(rows, n, st) && IsLeftmostLeast(rows, n, st, b) ==> p.selected == rows[b].id)
  {
    var rows := Rows(c, provider, load);
    FitCountIsSize(rows, |rows|);
    var st := BestIsLeftmostLeast(rows, |rows|);
    forall st': nat, b: nat | IsStart(rows, |rows|, st') && IsLeftmostLeast(rows, |rows|, st', b)
      ensures Best(rows, |rows|) == Some(b)
    {
      assert rows[b].fit;
      OneChoice(rows, |rows|, st, Best(rows, |rows|).value, st', b);
    }
  }

  lemma OneStart(rows: seq<Row>, k: nat, st: nat, st': nat)
    requires k <= |rows| && IsStart(rows, k, st) && IsStart(rows, k, st')
    ensures st == st'
  {
  }

  lemma OneChoice(rows: seq<Row>, k: nat, st: nat, b: nat, st': nat, b': nat)
    requires k <= |rows| && IsStart(rows, k, st) && IsStart(rows, k, st')
    requires IsLeftmostLeast(rows, k, st, b) && IsLeftmostLeast(rows, k, st', b')
    ensures b == b'
  {
    OneStart(rows, k, st, st');
  }

  /** Lighter load keeps a worker eligible, so a placement that could pick someone still can. */
  lemma LighterLoadStillPlaces(c: Cluster, provider: string, load: Load, lighter: Load)
    requires forall w :: lighter(w) <= load(w)
    requires Place(c, provider, load).selected != ""
    ensures Place(c, provider, lighter).selected != ""
  {
    var rows, rows' := Rows(c, provider, load), Rows(c, provider, lighter);
    if |rows| > 0 {
      var b := Best(rows, |rows|).value;
      assert rows'[b].fit by {
        assert rows[b] == RowOf(c, provider, load, c.workers[b]);
        assert rows'[b] == RowOf(c, provider, lighter, c.workers[b]);
      }
      var _ := BestIsLeftmostLeast(rows', |rows'|);
    }
  }

  /** A worker selected from a non-empty table has a free slot under its cap. */
  lemma SelectedHasRoom(c: Cluster, provider: string, load: Load) returns (b: nat)
    requires c.workers != [] && Place(c, provider, load).selected != ""
    ensures b < |c.workers| && Place(c, provider, load).selected == TrimSpace(c.workers[b].id)
    ensures c.workers[b].maxSandboxes > 0 ==> load(TrimSpace(c.workers[b].id)) < c.workers[b].maxSandboxes
  {
    var rows := Rows(c, provider, load);
    b := Best(rows, |rows|).value;
  }

  // ---------- In terms of the worker table ----------

  /** A worker's load is the number of its rows that are neither destroyed nor expired; rows
      without a worker are the local one's. */
  lemma LoadMeans(store: Store, localId: string, w: string)
    ensures LoadOf(store, localId)(w)
         == |set id | id in store && store[id].state !in {Destroyed, Expired}
                      && (if TrimSpace(store[id].workerId) == "" then w == localId else TrimSpace(store[id].workerId) == w)|
  {
    assert ActiveOn(store, w, localId)
        == set id | id in store && store[id].state !in {Destroyed, Expired}
                    && (if TrimSpace(store[id].workerId) == "" then w == localId else TrimSpace(store[id].workerId) == w);
  }

  /** The worker at i answers, takes the provider and is below its capacity. */
  ghost predicate CanTake(c: Cluster, provider: string, load: Load, i: nat)
    requires i < |c.workers|
  {
    var w := c.workers[i];
    && TrimSpace(w.id) != "" && EqualFold(w.status, "online") && c.now - w.lastHeartbeat <= 120_000_000_000
    && (provider == ""
        || (w.providers.Some?
            && (w.providers.value == [] || exists p :: p in w.providers.value && EqualFold(TrimSpace(p), provider))))
    && (w.maxSandboxes <= 0 || load(TrimSpace(w.id)) < w.maxSandboxes)
  }

  lemma FitMeans(c: Cluster, provider: string, load: Load, i: nat)
    requires i < |c.workers|
    ensures Rows(c, provider, load)[i].fit <==> CanTake(c, provider, load, i)
  {
    var w := c.workers[i];
    if w.providers.Some? {
      var ps := w.providers.value;
      assert (exists p :: p in ps && EqualFold(TrimSpace(p), provider))
        <==> exists k :: 0 <= k < |ps| && EqualFold(TrimSpace(ps[k]), provider);
    }
  }

  /** From a non-empty table a worker is chosen if and only if some worker can take the
      sandbox, and the one chosen can. */
  lemma ChosenCanTake(c: Cluster, provider: string, load: Load)
    requires c.workers != []
    ensures var id := Place(c, provider, load).selected;
            && (id != "" <==> exists i :: 0 <= i < |c.workers| && CanTake(c, provider, load, i))
            && (id != "" ==> exists i :: 0 <= i < |c.workers| && CanTake(c, provider, load, i) && TrimSpace(c.workers[i].id) == id)
  {
    var rows := Rows(c, provider, load);
    var st := BestIsLeftmostLeast(rows, |rows|);
    forall i | 0 <= i < |c.workers| ensures rows[i].fit <==> CanTake(c, provider, load, i) {
      FitMeans(c, provider, load, i);
    }
  }

  /** Without worker rows everything is local; the reason tells the three cases apart. */
  lemma ReasonMeans(c: Cluster, provider: string, load: Load)
    ensures var p := Place(c, provider, load);
            && (c.workers == [] ==> p == Placement(c.localId, 1, LocalFallback))
            && (p.reason == LocalFallback <==> c.workers == [])
            && (p.reason == NoEligibleWorker <==> c.workers != [] && p.selected == "")
            && (p.reason == NoEligibleWorker ==> p.eligible == 0)
  {
    if c.workers != [] {
      PlacementIsDeclared(c, provider, load);
    }
  }

  lemma {:induction false} LocalStays(rows: seq<Row>, i: nat, k: nat)
    requires i < k <= |rows| && rows[i].fit && rows[i].local
    requires forall j :: i < j < k && rows[j].fit && !rows[j].local ==> rows[j].load >= rows[i].load
    requires forall j :: 0 <= j < k && rows[j].local ==> rows[j].load == rows[i].load
    ensures Best(rows, k).Some? && rows[Best(rows, k).value].local
  {
    if k > i + 1 {
      LocalStays(rows, i, k - 1);
    }
  }

  /** The local worker is preferred: when it can take the sandbox it is chosen, unless a
      worker further down in the table has fewer. */
  lemma LocalIsPreferred(c: Cluster, provider: string, load: Load, i: nat)
    requires i < |c.workers| && CanTake(c, provider, load, i) && TrimSpace(c.workers[i].id) == c.localId
    requires forall j :: i < j < |c.workers| && CanTake(c, provider, load, j) ==>
               load(TrimSpace(c.workers[j].id)) >= load(c.localId)
    ensures Place(c, provider, load).selected == c.localId
  {
    var rows := Rows(c, provider, load);
    forall j | 0 <= j < |c.workers| ensures rows[j].fit <==> CanTake(c, provider, load, j) {
      FitMeans(c, provider, load, j);
    }
    assert forall j :: 0 <= j < |rows| ==> rows[j] == RowOf(c, provider, load, c.workers[j]);
    LocalStays(rows, i, |rows|);
  }

  /** Among other workers the least loaded is chosen, the first one of them. */
  lemma LeastLoadedIsChosen(c: Cluster, provider: string, load: Load, i: nat)
    requires i < |c.workers| && CanTake(c, provider, load, i)
    requires forall j :: 0 <= j < |c.workers| ==> TrimSpace(c.workers[j].id) != c.localId
    requires forall j :: 0 <= j < |c.workers| && CanTake(c, provider, load, j) ==>
               load(TrimSpace(c.workers[i].id)) <= load(TrimSpace(c.workers[j].id))
    requires forall j :: 0 <= j < i && CanTake(c, provider, load, j) ==>
               load(TrimSpace(c.workers[i].id)) < load(TrimSpace(c.workers[j].id))
    ensures Place(c, provider, load).selected == TrimSpace(c.workers[i].id)
  {
    var rows := Rows(c, provider, load);
    forall j | 0 <= j < |c.workers|
      ensures rows[j].fit <==> CanTake(c, provider, load, j)
      ensures !rows[j].local && rows[j].load == load(TrimSpace(c.workers[j].id))
    {
      FitMeans(c, provider, load, j);
      assert rows[j] == RowOf(c, provider, load, c.workers[j]);
    }
    PlacementIsDeclared(c, provider, load);
    assert IsStart(rows, |rows|, 0) && IsLeftmostLeast(rows, |rows|, 0, i);
  }

  // ---------- The loop ----------

  function Lookup(m: map<string, int>, w: string): int {
    if w in m then m[w] else 0
  }

  /** The tally of the sandboxes seen so far. */
  ghost predicate Tallied(tally: map<string, int>, seen: map<string, string>) {
    && (forall w :: Lookup(tally, w) == |Counting.Fiber(seen, w)|)
    && Counting.Total(tally) == |seen|
  }

  /** The active sandboxes among the first k of the listing, with their workers. */
  ghost predicate Seen(store: Store, localId: string, listing: seq<string>, k: nat, seen: map<string, string>)
    requires k <= |listing|
  {
    && (forall id :: id in seen <==> id in listing[..k] && id in ActiveWorkers(store, localId))
    && (forall id :: id in seen ==> seen[id] == ActiveWorkers(store, localId)[id])
  }

  lemma SeenMore(store: Store, localId: string, listing: seq<string>, k: nat, seen: map<string, string>)
    requires IsListing(listing, store) && k < |listing| && Seen(store, localId, listing, k, seen)
    ensures listing[k] in store && listing[k] !in seen
    ensures Seen(store, localId, listing, k + 1,
                 if Active(store[listing[k]]) then seen[listing[k] := WorkerOf(store[listing[k]], localId)] else seen)
  {
    assert listing[k] in Live(store);
    assert listing[..k + 1] == listing[..k] + [listing[k]];
  }

  lemma SeenAll(store: Store, localId: string, listing: seq<string>, seen: map<string, string>)
    requires IsListing(listing, store) && Seen(store, localId, listing, |listing|, seen)
    ensures seen == ActiveWorkers(store, localId)
  {
    assert listing[..|listing|] == listing;
    assert forall id :: id in ActiveWorkers(store, localId) ==> id in Live(store);
  }

  /** The per-worker tally. Its entries are the active counts, and they add up to the
      number of records neither destroyed nor expired. */
  method TallyByWorker(store: Store, localId: string, listing: seq<string>) returns (tally: map<string, int>)
    requires IsListing(listing, store)
    ensures forall w :: Lookup(tally, w) == |ActiveOn(store, w, localId)|
    ensures Counting.Total(tally) == |ActiveWorkers(store, localId)|
  {
    tally := map[];
    ghost var seen: map<string, string> := map[];
    for k := 0 to |listing|
      invariant Seen(store, localId, listing, k, seen) && Tallied(tally, seen)
    {
      var id := listing[k];
      SeenMore(store, localId, listing, k, seen);
      if Active(store[id]) {
        var w := WorkerOf(store[id], localId);
        tally := CountOne(tally, seen, id, w);
        seen := seen[id := w];
      }
    }
    SeenAll(store, localId, listing, seen);
  }

  /** `activeByWorker[workerID]++`. */
  method CountOne(tally: map<string, int>, ghost seen: map<string, string>, ghost id: string, w: string)
    returns (r: map<string, int>)
    requires id !in seen
    requires Tallied(tally, seen)
    ensures Tallied(r, seen[id := w])
  {
    r := tally[w := Lookup(tally, w) + 1];
    Counting.TotalUpdate(tally, w, Lookup(tally, w) + 1);
    forall v
      ensures Lookup(r, v) == |Counting.Fiber(seen[id := w], v)|
    {
      Counting.FiberPut(seen, id, w, v);
    }
  }

  /** The scheduler's loop over the worker rows. A failed worker listing is a cluster
      without rows: both take the same branch. */
  method EvaluateWorkerPlacement(c: Cluster, provider: string, store: Store, listing: seq<string>)
    returns (p: Placement)
    requires IsListing(listing, store)
    ensures p == Place(c, provider, LoadOf(store, c.localId))
  {
    if |c.workers| == 0 {
      return Placement(c.localId, 1, LocalFallback);
    }
    var tally := TallyByWorker(store, c.localId, listing);
    ghost var load := LoadOf(store, c.localId);
    ghost var rows := Rows(c, provider, load);
    var bestId, bestCount, eligible := "", 0, 0;
    for k := 0 to |c.workers|
      invariant eligible == FitCount(rows, k)
      invariant match Best(rows, k)
                case None => bestId == ""
                case Some(b) => bestId == rows[b].id && bestId != "" && bestCount == rows[b].load
    {
      var worker := c.workers[k];
      var workerId := TrimSpace(worker.id);
      var count := Lookup(tally, workerId);
      assert count == load(workerId);
      assert rows[k] == RowOf(c, provider, load, worker);
      if Eligible(c, provider, worker, count) {
        eligible := eligible + 1;
        if workerId == c.localId {
          bestId, bestCount := workerId, count;
        } else if bestId == "" || count < bestCount {
          bestId, bestCount := workerId, count;
        }
      }
    }
    p := if bestId == "" then Placement("", 0, NoEligibleWorker) else Placement(bestId, eligible, Chosen);
  }
}
