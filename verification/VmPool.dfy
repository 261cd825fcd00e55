/** The multi-user VM pool: how many sandboxes share each VM. */
module VmPool {
  import opened Text
  import Counting

  datatype VMSlot = VMSlot(vmId: string, provider: string, image: string, userCount: int, maxUsers: int)

  type Slots = map<string, VMSlot>

  // ---------- The critical sections, as functions ----------

  predicate HasRoom(slots: Slots, vm: string) {
    vm in slots && slots[vm].userCount < slots[vm].maxUsers
  }

  function AddUser(slots: Slots, vm: string): Slots
    requires vm in slots
  {
    slots[vm := slots[vm].(userCount := slots[vm].userCount + 1)]
  }

  /** Whether releasing one user of `vm` empties it. */
  predicate Empties(slots: Slots, vm: string) {
    vm in slots && slots[vm].userCount - 1 <= 0
  }

  function DropUser(slots: Slots, vm: string): Slots {
    if vm !in slots then slots
    else if Empties(slots, vm) then slots - {vm}
    else slots[vm := slots[vm].(userCount := slots[vm].userCount - 1)]
  }

  // ---------- What the counters mean ----------

  /** The slots describe the assignment `users` of sandboxes to VMs: every count is the
      number of sandboxes on that VM, between one and the limit, and no sandbox is
      assigned to a VM without a slot. */
  ghost predicate Describes(slots: Slots, users: map<string, string>) {
    && (forall vm :: vm in slots ==>
          && slots[vm].userCount == |Counting.Fiber(users, vm)|
          && 1 <= slots[vm].userCount <= slots[vm].maxUsers)
    && (forall sb :: sb in users ==> users[sb] in slots)
  }

  lemma AddUserDescribes(slots: Slots, users: map<string, string>, vm: string, sb: string)
    requires Describes(slots, users) && sb !in users && HasRoom(slots, vm)
    ensures Describes(AddUser(slots, vm), users[sb := vm])
  {
    forall v ensures |Counting.Fiber(users[sb := vm], v)| == |Counting.Fiber(users, v)| + if vm == v then 1 else 0 {
      Counting.FiberPut(users, sb, vm, v);
    }
  }

  lemma InsertDescribes(slots: Slots, users: map<string, string>, slot: VMSlot, sb: string)
    requires Describes(slots, users) && sb !in users
    requires slot.vmId !in slots && slot.userCount == 1 <= slot.maxUsers
    ensures Describes(slots[slot.vmId := slot], users[sb := slot.vmId])
  {
    forall v ensures |Counting.Fiber(users[sb := slot.vmId], v)|
                  == |Counting.Fiber(users, v)| + if slot.vmId == v then 1 else 0 {
      Counting.FiberPut(users, sb, slot.vmId, v);
    }
    assert Counting.Fiber(users, slot.vmId) == {};
  }

  lemma FiberWithout(users: map<string, string>, sb: string, v: string)
    ensures |Counting.Fiber(users - {sb}, v)|
         == |Counting.Fiber(users, v)| - if sb in users && users[sb] == v then 1 else 0
  {
    if sb in users && users[sb] == v {
      assert Counting.Fiber(users, v) == Counting.Fiber(users - {sb}, v) + {sb};
    } else {
      assert Counting.Fiber(users, v) == Counting.Fiber(users - {sb}, v);
    }
  }

  /** A release keeps the counters right exactly when it is made for a sandbox that is on
      that VM at that moment (or concerns neither a slot nor an assigned sandbox). A second
      release of the same sandbox therefore always breaks them while the VM is in use. */
  lemma ReleaseDescribesIffHeld(slots: Slots, users: map<string, string>, vm: string, sb: string)
    requires Describes(slots, users)
    ensures Describes(DropUser(slots, vm), users - {sb})
       <==> if vm in slots then sb in users && users[sb] == vm else sb !in users
  {
    var after, rest := DropUser(slots, vm), users - {sb};
    forall v ensures |Counting.Fiber(rest, v)|
                  == |Counting.Fiber(users, v)| - if sb in users && users[sb] == v then 1 else 0 {
      FiberWithout(users, sb, v);
    }
    if vm in slots && sb in users && users[sb] == vm {
      if Empties(slots, vm) {
        assert Counting.Fiber(rest, vm) == {};
        forall x | x in rest ensures rest[x] in after {
          assert x in Counting.Fiber(rest, rest[x]);
        }
      }
    } else if vm in slots {
      if Empties(slots, vm) {
        var x :| x in Counting.Fiber(users, vm);
        assert x in rest && rest[x] == vm;
      }
    } else if sb in users {
      assert users[sb] in slots && users[sb] in after;
    } else {
      assert rest == users;
    }
  }

  ghost function Users(slots: Slots): map<string, int> {
    map vm | vm in slots :: slots[vm].userCount
  }

  /** The reported total is the number of sandboxes in the pool. */
  lemma TotalUsersIsAssignmentSize(slots: Slots, users: map<string, string>)
    requires Describes(slots, users)
    ensures Counting.Total(Users(slots)) == |users|
  {
    Counting.TotalOfFibers(Users(slots), users);
  }

  // ---------- The manager ----------

  datatype Acquired = Hit(vmId: string) | PoolFull | SpawnFailed
  datatype Search = Found(vmId: string) | Full | Miss
  datatype Status = Status(vms: nat, maxVMs: int, totalUsers: int, maxUsersPerVM: int)

  class VMPoolManager {
    var vms: Slots
    const maxVMs: int
    const maxUsersPerVM: int
    const image: string

    ghost predicate Valid()
      reads this
    {
      forall vm :: vm in vms ==> vms[vm].vmId == vm
    }

    constructor (maxVMs: int, maxUsersPerVM: int, image: string)
      ensures Valid() && vms == map[]
      ensures this.maxVMs == maxVMs && this.maxUsersPerVM == maxUsersPerVM && this.image == image
    {
      vms := map[];
      this.maxVMs, this.maxUsersPerVM, this.image := maxVMs, maxUsersPerVM, image;
    }

    /** The first critical section of Acquire: join some VM with room, in whatever order
        the map is walked; otherwise decide whether a new VM may be created. */
    method TryJoin() returns (r: Search)
      requires Valid()
      modifies this`vms
      ensures Valid()
      ensures r.Found? ==> HasRoom(old(vms), r.vmId) && vms == AddUser(old(vms), r.vmId)
      ensures !r.Found? ==> vms == old(vms) && forall vm :: !HasRoom(vms, vm)
      ensures !r.Found? ==> forall vm :: vm in vms ==> vms[vm].userCount >= vms[vm].maxUsers
      ensures r.Full? ==> |vms| >= maxVMs
      ensures r.Miss? ==> |vms| < maxVMs
    {
      var todo := vms.Keys;
      while todo != {}
        invariant todo <= vms.Keys && vms == old(vms)
        invariant forall vm :: vm in vms.Keys - todo ==> !HasRoom(vms, vm)
        decreases |todo|
      {
        var vm :| vm in todo;
        if vms[vm].userCount < vms[vm].maxUsers {
          vms := AddUser(vms, vm);
          return Found(vms[vm].vmId);
        }
        todo := todo - {vm};
      }
      assert forall vm :: vm in vms ==> vm in vms.Keys - todo;
      r := if |vms| >= maxVMs then Full else Miss;
    }

    /** The second critical section of Acquire: register the VM that was just spawned. */
    method Insert(vmId: string, provider: string)
      requires Valid()
      modifies this`vms
      ensures Valid()
      ensures vms == old(vms)[vmId := VMSlot(vmId, provider, image, 1, maxUsersPerVM)]
    {
      vms := vms[vmId := VMSlot(vmId, provider, image, 1, maxUsersPerVM)];
    }

    /** Acquire as one call sees it when nobody else touches the pool; `spawned` is the
        provider's answer, consulted only on a miss. */
    method Acquire(spawned: Option<string>, provider: string) returns (r: Acquired)
      requires Valid()
      modifies this`vms
      ensures Valid()
      ensures (exists vm :: vm in old(vms) && old(vms)[vm].userCount < old(vms)[vm].maxUsers) ==>
                && r.Hit? && r.vmId in old(vms) && old(vms)[r.vmId].userCount < old(vms)[r.vmId].maxUsers
                && vms == old(vms)[r.vmId := old(vms)[r.vmId].(userCount := old(vms)[r.vmId].userCount + 1)]
      ensures (forall vm :: vm in old(vms) ==> old(vms)[vm].userCount >= old(vms)[vm].maxUsers) ==>
                if |old(vms)| >= maxVMs then r == PoolFull && vms == old(vms)
                else if spawned.None? then r == SpawnFailed && vms == old(vms)
                else (r == Hit(spawned.value)
                      && vms == old(vms)[spawned.value := VMSlot(spawned.value, provider, image, 1, maxUsersPerVM)])
    {
      var search := TryJoin();
      match search {
        case Found(vm) => r := Hit(vm);
        case Full => r := PoolFull;
        case Miss =>
          if spawned.None? {
            return SpawnFailed;
          }
          Insert(spawned.value, provider);
          r := Hit(spawned.value);
      }
    }

    /** True when the VM is now empty and the caller should destroy it. */
    method Release(vmId: string) returns (empty: bool)
      requires Valid()
      modifies this`vms
      ensures Valid()
      ensures vms == DropUser(old(vms), vmId) && empty == Empties(old(vms), vmId)
      ensures empty <==> vmId in old(vms) && old(vms)[vmId].userCount <= 1
      ensures vms == if vmId !in old(vms) then old(vms)
                     else if old(vms)[vmId].userCount <= 1 then old(vms) - {vmId}
                     else old(vms)[vmId := old(vms)[vmId].(userCount := old(vms)[vmId].userCount - 1)]
    {
      if vmId !in vms {
        return false;
      }
      vms := vms[vmId := vms[vmId].(userCount := vms[vmId].userCount - 1)];
      if vms[vmId].userCount <= 0 {
        vms := vms - {vmId};
        assert vms == DropUser(old(vms), vmId);
        return true;
      }
      return false;
    }

    method GetStatus() returns (s: Status)
      requires Valid()
      ensures s.vms == |vms| && s.maxVMs == maxVMs && s.maxUsersPerVM == maxUsersPerVM
      ensures s.totalUsers == Counting.Total(Users(vms))
    {
      var total, todo := 0, vms;
      while todo != map[]
        invariant total + Counting.Total(Users(todo)) == Counting.Total(Users(vms))
        decreases |todo|
      {
        var vm :| vm in todo;
        Counting.TotalWithout(Users(todo), vm);
        assert Users(todo - {vm}) == Users(todo) - {vm};
        total := total + todo[vm].userCount;
        todo := todo - {vm};
      }
      s := Status(|vms|, maxVMs, total, maxUsersPerVM);
    }
  }
}
