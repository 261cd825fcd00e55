/** Spawn admission: may this request create a sandbox now? */
module Admission {
  import opened Text
  import opened Records
  import opened Scheduler

  datatype Request = Request(owner: string, ttl: int, provider: string)

  datatype Quota = Quota(maxSandboxes: int, maxTTL: int)

  /** Operational limits (zero or negative: unlimited), per-owner overrides and the workers
      that answer remote calls. */
  datatype Limits = Limits(
    maxSandboxes: int, maxPerOwner: int, maxTTL: int, quotas: map<string, Quota>,
    queueing: bool, cluster: Cluster, reachable: set<string>)

  datatype DenyReason = MaxTTL | WorkerUnavailable | RemoteUnavailable | MaxSandboxes | MaxPerOwner
  datatype Decision = Allowed | Denied(reason: DenyReason, queueable: bool)

  function OwnerCap(l: Limits, owner: string): int {
    if owner != "" && owner in l.quotas && l.quotas[owner].maxSandboxes > 0 then l.quotas[owner].maxSandboxes
    else l.maxPerOwner
  }

  function TTLCap(l: Limits, owner: string): int {
    if owner != "" && owner in l.quotas && l.quotas[owner].maxTTL > 0 then l.quotas[owner].maxTTL
    else l.maxTTL
  }

  ghost function PlaceFor(l: Limits, store: Store, provider: string): Placement {
    Place(l.cluster, provider, LoadOf(store, l.cluster.localId))
  }

  ghost function Evaluate(l: Limits, store: Store, req: Request): Decision {
    var chosen := PlaceFor(l, store, req.provider).selected;
    if TTLCap(l, req.owner) > 0 && req.ttl > TTLCap(l, req.owner) then Denied(MaxTTL, false)
    else if chosen == "" then Denied(WorkerUnavailable, false)
    else if chosen != l.cluster.localId && chosen !in l.reachable then Denied(RemoteUnavailable, false)
    else if l.maxSandboxes > 0 && |Live(store)| >= l.maxSandboxes then Denied(MaxSandboxes, true)
    else if req.owner != "" && OwnerCap(l, req.owner) > 0
            && |OwnedLive(store, req.owner)| >= OwnerCap(l, req.owner) then Denied(MaxPerOwner, true)
    else Allowed
  }

  /** One pass over the listed records, counting all of them and the owner's. */
  method CountRecords(store: Store, listing: seq<string>, owner: string) returns (total: nat, ownerTotal: nat)
    requires IsListing(listing, store)
    ensures total == |Live(store)|
    ensures owner != "" ==> ownerTotal == |OwnedLive(store, owner)|
  {
    total, ownerTotal := 0, 0;
    ghost var owned: set<string> := {};
    for k := 0 to |listing|
      invariant total == k
      invariant owned <= OwnedLive(store, owner)
      invariant forall id :: id in OwnedLive(store, owner) && id in listing[..k] ==> id in owned
      invariant forall id :: id in owned ==> id in listing[..k]
      invariant owner != "" ==> ownerTotal == |owned|
    {
      var id := listing[k];
      assert id in Live(store);
      assert listing[..k + 1] == listing[..k] + [id];
      if store[id].state != Destroyed {
        total := total + 1;
        if owner != "" && store[id].owner == owner {
          ownerTotal := ownerTotal + 1;
        }
      }
      owned := if store[id].owner == owner then owned + {id} else owned;
    }
    ListingSize(listing, Live(store));
    assert owned == OwnedLive(store, owner) by {
      assert forall id :: id in OwnedLive(store, owner) ==> id in Live(store);
    }
  }

  lemma {:induction false} ListingSize(listing: seq<string>, ids: set<string>)
    requires forall i, j :: 0 <= i < j < |listing| ==> listing[i] != listing[j]
    requires forall id :: id in listing <==> id in ids
    ensures |listing| == |ids|
  {
    if listing != [] {
      var last := listing[|listing| - 1];
      var rest := listing[..|listing| - 1];
      forall id ensures id in rest <==> id in ids - {last} {
        assert id in listing <==> id in rest || id == last;
      }
      ListingSize(rest, ids - {last});
    }
  }

  method EvaluateSpawnAdmission(l: Limits, store: Store, listing: seq<string>, req: Request) returns (d: Decision)
    requires IsListing(listing, store)
    ensures d == Evaluate(l, store, req)
  {
    var maxTTL, maxPerOwner := TTLCap(l, req.owner), OwnerCap(l, req.owner);
    if maxTTL > 0 && req.ttl > maxTTL {
      return Denied(MaxTTL, false);
    }
    var placement := EvaluateWorkerPlacement(l.cluster, req.provider, store, listing);
    if placement.selected == "" {
      return Denied(WorkerUnavailable, false);
    }
    if placement.selected != l.cluster.localId {
      if placement.selected !in l.reachable {
        return Denied(RemoteUnavailable, false);
      }
    }
    var total, ownerTotal := CountRecords(store, listing, req.owner);
    if l.maxSandboxes > 0 && total >= l.maxSandboxes {
      return Denied(MaxSandboxes, true);
    }
    if req.owner != "" && maxPerOwner > 0 && ownerTotal >= maxPerOwner {
      return Denied(MaxPerOwner, true);
    }
    d := Allowed;
  }

  // ---------- What the decision means ----------

  /** The reason to deny, in the order in which it is looked for, from the limits and the
      owner's quota as they are stored: a positive quota entry replaces the general limit in
      either direction, any other leaves it in force, and a limit that is not positive is
      none. Only the two limits on numbers let a Spawn queue. */
  lemma DecisionMeans(l: Limits, store: Store, req: Request)
    ensures var d, o := Evaluate(l, store, req), req.owner;
            var worker := PlaceFor(l, store, req.provider).selected;
            var tooLong := if o != "" && o in l.quotas && l.quotas[o].maxTTL > 0 then req.ttl > l.quotas[o].maxTTL
                           else l.maxTTL > 0 && req.ttl > l.maxTTL;
            var unplaced := worker == "" || (worker != l.cluster.localId && worker !in l.reachable);
            var full := l.maxSandboxes > 0 && |Live(store)| >= l.maxSandboxes;
            var ownerFull := o != "" && if o in l.quotas && l.quotas[o].maxSandboxes > 0
                                        then |OwnedLive(store, o)| >= l.quotas[o].maxSandboxes
                                        else l.maxPerOwner > 0 && |OwnedLive(store, o)| >= l.maxPerOwner;
            && (d == Denied(MaxTTL, false) <==> tooLong)
            && (d == Denied(WorkerUnavailable, false) <==> !tooLong && worker == "")
            && (d == Denied(RemoteUnavailable, false) <==> !tooLong && worker != "" && unplaced)
            && (d == Denied(MaxSandboxes, true) <==> !tooLong && !unplaced && full)
            && (d == Denied(MaxPerOwner, true) <==> !tooLong && !unplaced && !full && ownerFull)
            && (d == Allowed <==> !tooLong && !unplaced && !full && !ownerFull)
  {
  }

  /** The owner o without a limit on its sandboxes. */
  function Unlimited(l: Limits, o: string): Limits
    requires o in l.quotas
  {
    l.(maxPerOwner := 0, quotas := l.quotas[o := l.quotas[o].(maxSandboxes := 0)])
  }

  /** An owner at its quota, above or below the general limit, is denied where it would have
      been allowed without limits of its own, and may queue. */
  lemma QuotaDenies(l: Limits, store: Store, req: Request)
    requires req.owner != "" && req.owner in l.quotas && 0 < l.quotas[req.owner].maxSandboxes <= |OwnedLive(store, req.owner)|
    requires Evaluate(Unlimited(l, req.owner), store, req) == Allowed
    ensures Evaluate(l, store, req) == Denied(MaxPerOwner, true)
  {
    DecisionMeans(l, store, req);
    DecisionMeans(Unlimited(l, req.owner), store, req);
  }

  /** For an owner below its quota its own sandboxes change nothing, above the general limit
      or below it. */
  lemma QuotaAllows(l: Limits, store: Store, req: Request)
    requires req.owner != "" && req.owner in l.quotas && |OwnedLive(store, req.owner)| < l.quotas[req.owner].maxSandboxes
    ensures Evaluate(l, store, req) == Evaluate(Unlimited(l, req.owner), store, req)
  {
    DecisionMeans(l, store, req);
    DecisionMeans(Unlimited(l, req.owner), store, req);
  }
}
