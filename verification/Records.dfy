/** The sandbox table: what the orchestrator persists about each sandbox and the
    views of it that admission, placement and teardown count. */
module Records {
  import opened Text
  import Counting

  datatype SandboxState = Creating | Running | Idle | Unhealthy | Expired | Destroyed | Error

  /** The columns of a sandbox row that the orchestrator's decisions read. A pooled
      sandbox names the VM it lives on in `vmId`; a VM and a dedicated sandbox leave it empty. */
  datatype SandboxRecord = SandboxRecord(
    state: SandboxState, provider: string, owner: string, vmId: string, workerId: string)

  type Store = map<string, SandboxRecord>

  ghost function Live(store: Store): set<string> {
    set id | id in store && store[id].state != Destroyed
  }

  ghost function OwnedLive(store: Store, owner: string): set<string> {
    set id | id in store && store[id].state != Destroyed && store[id].owner == owner
  }

  predicate Active(rec: SandboxRecord) {
    rec.state != Destroyed && rec.state != Expired
  }

  /** A record without a worker belongs to the local one. */
  function WorkerOf(rec: SandboxRecord, localId: string): string {
    var w := TrimSpace(rec.workerId);
    if w == "" then localId else w
  }

  /** A record that names another worker: its sandbox is reached over that worker's RPC. */
  predicate OwnedElsewhere(rec: SandboxRecord, localId: string) {
    TrimSpace(rec.workerId) != "" && rec.workerId != localId
  }

  /** The worker of every record that still uses capacity. */
  ghost function ActiveWorkers(store: Store, localId: string): map<string, string> {
    map id | id in store && Active(store[id]) :: WorkerOf(store[id], localId)
  }

  ghost function ActiveOn(store: Store, worker: string, localId: string): set<string> {
    Counting.Fiber(ActiveWorkers(store, localId), worker)
  }

  /** What `ListSandboxes` returns: every row that is not destroyed, once, in some order. */
  ghost predicate IsListing(listing: seq<string>, store: Store) {
    && (forall i, j :: 0 <= i < j < |listing| ==> listing[i] != listing[j])
    && (forall id :: id in listing <==> id in Live(store))
  }

  /** `UpdateSandboxState(id, "destroyed")`: a missing row is left missing. */
  function MarkDestroyed(store: Store, id: string): Store {
    if id in store then store[id := store[id].(state := Destroyed)] else store
  }

  lemma PutLive(store: Store, id: string, rec: SandboxRecord)
    requires id !in store
    ensures |Live(store[id := rec])| <= |Live(store)| + 1
  {
    Counting.SubsetSize(Live(store[id := rec]), Live(store) + {id});
  }

  lemma PutOwned(store: Store, id: string, rec: SandboxRecord, o: string)
    requires id !in store
    ensures |OwnedLive(store[id := rec], o)| <= |OwnedLive(store, o)| + if rec.owner == o then 1 else 0
  {
    Counting.SubsetSize(OwnedLive(store[id := rec], o), OwnedLive(store, o) + if rec.owner == o then {id} else {});
  }

  lemma PutActive(store: Store, id: string, rec: SandboxRecord, w: string, localId: string)
    requires id !in store
    ensures |ActiveOn(store[id := rec], w, localId)|
         <= |ActiveOn(store, w, localId)| + if WorkerOf(rec, localId) == w then 1 else 0
  {
    var worker := WorkerOf(rec, localId);
    var before, after := ActiveWorkers(store, localId), ActiveWorkers(store[id := rec], localId);
    Counting.FiberPut(before, id, worker, w);
    Counting.SubsetSize(Counting.Fiber(after, w), Counting.Fiber(before[id := worker], w));
  }

  /** Destroying a record only ever shrinks the counts. */
  lemma MarkLive(store: Store, id: string)
    ensures Live(MarkDestroyed(store, id)) == Live(store) - {id}
    ensures |Live(MarkDestroyed(store, id))| <= |Live(store)|
  {
    assert Live(MarkDestroyed(store, id)) == Live(store) - {id};
    Counting.SubsetSize(Live(store) - {id}, Live(store));
  }

  lemma MarkOwned(store: Store, id: string, o: string)
    ensures |OwnedLive(MarkDestroyed(store, id), o)| <= |OwnedLive(store, o)|
  {
    Counting.SubsetSize(OwnedLive(MarkDestroyed(store, id), o), OwnedLive(store, o));
  }

  lemma MarkActive(store: Store, id: string, w: string, localId: string)
    ensures |ActiveOn(MarkDestroyed(store, id), w, localId)| <= |ActiveOn(store, w, localId)|
  {
    var before, after := ActiveWorkers(store, localId), ActiveWorkers(MarkDestroyed(store, id), localId);
    forall x | x in after
      ensures x in before && after[x] == before[x]
    {
      assert x != id && MarkDestroyed(store, id)[x] == store[x];
    }
    Counting.SubsetSize(Counting.Fiber(after, w), Counting.Fiber(before, w));
  }
}
