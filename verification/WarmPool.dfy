/** Pre-warmed sandboxes per template, topped up by one refill goroutine. */
module WarmPool {
  import opened Text

  datatype Pool = Pool(target: int, ids: seq<string>)

  type Pools = map<string, Pool>

  // ---------- The critical sections, as functions ----------

  function Configured(pools: Pools, name: string, size: int): Pools {
    if name in pools then pools[name := pools[name].(target := size)] else pools[name := Pool(size, [])]
  }

  predicate HasIds(pools: Pools, name: string) { name in pools && pools[name].ids != [] }

  function Taken(pools: Pools, name: string): Pools
    requires HasIds(pools, name)
  {
    pools[name := pools[name].(ids := pools[name].ids[1..])]
  }

  function Added(pools: Pools, name: string, id: string): Pools {
    if name in pools then pools[name := pools[name].(ids := pools[name].ids + [id])] else pools
  }

  /** How many sandboxes a refill that starts now will try to add. */
  function Need(pools: Pools, name: string): nat {
    if name in pools && pools[name].target > 0 && |pools[name].ids| < pools[name].target
    then pools[name].target - |pools[name].ids| else 0
  }

  datatype Item = Item(name: string, need: nat)

  /** A refill's work list: each template that is short, once, with what it is short of. */
  ghost predicate IsWorkList(pools: Pools, todo: seq<Item>) {
    && (forall k :: 0 <= k < |todo| ==> todo[k].need == Need(pools, todo[k].name) > 0)
    && (forall k, l :: 0 <= k < l < |todo| ==> todo[k].name != todo[l].name)
    && (forall name :: Need(pools, name) > 0 ==> exists k :: 0 <= k < |todo| && todo[k].name == name)
  }

  /** The ids that a template gains when spawning stops at the first failure. */
  function Spawned(luck: (string, nat) -> Option<string>, name: string, from: nat, need: nat): seq<string>
    decreases need
  {
    if need == 0 || luck(name, from) == None then [] else [luck(name, from).value] + Spawned(luck, name, from + 1, need - 1)
  }

  // ---------- The manager ----------

  class PoolManager {
    var pools: Pools

    constructor ()
      ensures pools == map[]
    {
      pools := map[];
    }

    method Configure(name: string, size: int)
      modifies this
      ensures pools == Configured(old(pools), name, size)
      ensures name in pools && pools[name] == Pool(size, if name in old(pools) then old(pools)[name].ids else [])
      ensures pools.Keys == old(pools).Keys + {name} && forall n :: n in pools && n != name ==> pools[n] == old(pools)[n]
    {
      if name in pools {
        pools := pools[name := pools[name].(target := size)];
      } else {
        pools := pools[name := Pool(size, [])];
      }
    }

    /** The oldest warm sandbox, or "" when there is none. */
    method Acquire(name: string) returns (id: string)
      modifies this
      ensures if HasIds(old(pools), name) then id == old(pools)[name].ids[0] && pools == Taken(old(pools), name)
              else id == "" && pools == old(pools)
    {
      if name !in pools || |pools[name].ids| == 0 {
        return "";
      }
      id := pools[name].ids[0];
      pools := pools[name := pools[name].(ids := pools[name].ids[1..])];
    }

    /** The first, read-locked part of refill. */
    method WorkList() returns (todo: seq<Item>)
      ensures IsWorkList(pools, todo)
    {
      todo := [];
      var left := pools.Keys;
      while left != {}
        invariant left <= pools.Keys
        invariant forall k :: 0 <= k < |todo| ==> todo[k].name !in left && todo[k].need == Need(pools, todo[k].name) > 0
        invariant forall k, l :: 0 <= k < l < |todo| ==> todo[k].name != todo[l].name
        invariant forall name :: name !in left && Need(pools, name) > 0 ==>
                    exists k :: 0 <= k < |todo| && todo[k].name == name
        decreases |left|
      {
        var name :| name in left;
        left := left - {name};
        if pools[name].target > 0 && |pools[name].ids| < pools[name].target {
          ghost var before := todo;
          todo := todo + [Item(name, pools[name].target - |pools[name].ids|)];
          assert todo[|before|].name == name;
          assert forall k :: 0 <= k < |before| ==> todo[k] == before[k];
        }
      }
    }

    /** One template's part of a refill with nobody else around; `luck` says what each spawn
        attempt returns. */
    method RefillOne(item: Item, luck: (string, nat) -> Option<string>)
      requires item.name in pools
      modifies this
      ensures pools == old(pools)[item.name :=
                old(pools)[item.name].(ids := old(pools)[item.name].ids + Spawned(luck, item.name, 0, item.need))]
    {
      ghost var ids0 := pools[item.name].ids;
      assert ids0 + [] == ids0;
      for k := 0 to item.need
        invariant item.name in pools && pools == old(pools)[item.name := old(pools)[item.name].(ids := pools[item.name].ids)]
        invariant pools[item.name].ids + Spawned(luck, item.name, k, item.need - k)
               == ids0 + Spawned(luck, item.name, 0, item.need)
      {
        var spawned := luck(item.name, k);
        if spawned.None? {
          assert pools[item.name].ids + [] == pools[item.name].ids;
          return;
        }
        ghost var rest := Spawned(luck, item.name, k + 1, item.need - k - 1);
        assert pools[item.name].ids + [spawned.value] + rest == pools[item.name].ids + ([spawned.value] + rest);
        pools := Added(pools, item.name, spawned.value);
      }
      assert pools[item.name].ids + [] == pools[item.name].ids;
    }
  }

  /** Exactly the templates with fewer sandboxes than their target are listed, each once, with
      the difference. */
  lemma WorkListMeans(pools: Pools, todo: seq<Item>)
    requires IsWorkList(pools, todo)
    ensures forall k :: 0 <= k < |todo| ==>
              todo[k].name in pools && 0 < todo[k].need == pools[todo[k].name].target - |pools[todo[k].name].ids|
    ensures forall k, l :: 0 <= k < l < |todo| ==> todo[k].name != todo[l].name
    ensures forall name :: name in pools && |pools[name].ids| < pools[name].target ==>
              exists k :: 0 <= k < |todo| && todo[k].name == name
  {
    forall name | name in pools && |pools[name].ids| < pools[name].target
      ensures exists k :: 0 <= k < |todo| && todo[k].name == name
    {
      assert Need(pools, name) > 0;
    }
  }

  /** A refill makes `need` attempts, or as many as there are up to the first failure. */
  lemma {:induction false} SpawnedUntilFailure(luck: (string, nat) -> Option<string>, name: string, from: nat, need: nat)
    ensures var ids := Spawned(luck, name, from, need);
            && |ids| <= need
            && (forall k :: 0 <= k < |ids| ==> luck(name, from + k) == Some(ids[k]))
            && (|ids| < need ==> luck(name, from + |ids|) == None)
    decreases need
  {
    if need > 0 && luck(name, from).Some? {
      SpawnedUntilFailure(luck, name, from + 1, need - 1);
    }
  }

  /** Undisturbed and without failures, a refill fills a template that was short up to its
      target, no further. */
  lemma RefillReachesTarget(pools: Pools, todo: seq<Item>, k: nat, luck: (string, nat) -> Option<string>)
    requires IsWorkList(pools, todo) && k < |todo| && forall n :: luck(todo[k].name, n).Some?
    ensures todo[k].name in pools
    ensures |pools[todo[k].name].ids + Spawned(luck, todo[k].name, 0, todo[k].need)| == pools[todo[k].name].target
  {
    SpawnedUntilFailure(luck, todo[k].name, 0, todo[k].need);
  }

  // ---------- Refill among concurrent Acquires ----------

  /** `todo` is what the refill goroutine still has to do. `issued` records the template each
      spawned id went to, `refilled` and `handed` the ids added to and taken from each
      template, in order, and `peak` the largest target each template ever had. */
  datatype State = State(pools: Pools, todo: seq<Item>, issued: map<string, string>,
                         refilled: map<string, seq<string>>, handed: map<string, seq<string>>,
                         peak: map<string, int>)

  function Log(m: map<string, seq<string>>, name: string): seq<string> { if name in m then m[name] else [] }

  function Raised(peak: map<string, int>, name: string, size: int): map<string, int> {
    if name in peak && peak[name] >= size then peak else peak[name := size]
  }

  ghost predicate Resize(s: State, s': State, name: string, size: int) {
    s' == s.(pools := Configured(s.pools, name, size), peak := Raised(s.peak, name, size))
  }

  ghost predicate Take(s: State, s': State, name: string) {
    && HasIds(s.pools, name)
    && s' == s.(pools := Taken(s.pools, name), handed := s.handed[name := Log(s.handed, name) + [s.pools[name].ids[0]]])
  }

  ghost predicate StartRefill(s: State, s': State, todo: seq<Item>) {
    s.todo == [] && IsWorkList(s.pools, todo) && s' == s.(todo := todo)
  }

  /** One more sandbox for the template at the head of the list. */
  ghost predicate Refill(s: State, s': State, id: string) {
    && s.todo != [] && s.todo[0].need > 0 && id !in s.issued && s.todo[0].name in s.pools
    && var name := s.todo[0].name;
       s' == s.(pools := Added(s.pools, name, id), issued := s.issued[id := name],
                refilled := s.refilled[name := Log(s.refilled, name) + [id]],
                todo := s.todo[0 := Item(name, s.todo[0].need - 1)])
  }

  /** The template is done, or a spawn failed. */
  ghost predicate NextTemplate(s: State, s': State) {
    s.todo != [] && s' == s.(todo := s.todo[1..])
  }

  ghost predicate Next(s: State, s': State) {
    || (exists name, size :: Resize(s, s', name, size)) || (exists name :: Take(s, s', name))
    || (exists todo :: StartRefill(s, s', todo)) || (exists id :: Refill(s, s', id)) || NextTemplate(s, s')
  }

  ghost predicate Follows(run: seq<State>, i: nat)
    requires 0 < i < |run|
  {
    Next(run[i - 1], run[i])
  }

  ghost predicate IsRun(run: seq<State>) {
    && |run| > 0 && run[0] == State(map[], [], map[], map[], map[], map[])
    && forall i :: 0 < i < |run| ==> Follows(run, i)
  }

  // ---------- Invariants ----------

  predicate NoRepeats(ids: seq<string>) { forall k, l :: 0 <= k < l < |ids| ==> ids[k] != ids[l] }

  /** What the running refill still intends to add to a template. */
  function StillNeeded(todo: seq<Item>, name: string): nat {
    if todo == [] then 0 else if todo[0].name == name then todo[0].need else StillNeeded(todo[1..], name)
  }

  predicate DistinctNames(todo: seq<Item>) { forall k, l :: 0 <= k < l < |todo| ==> todo[k].name != todo[l].name }

  function Positive(n: int): nat { if n > 0 then n else 0 }

  /** What is available and still to be added fits the largest target so far. */
  predicate WithinPeak(s: State, name: string) {
    if name in s.pools then
      && name in s.peak && s.pools[name].target <= s.peak[name]
      && |s.pools[name].ids| + StillNeeded(s.todo, name) <= Positive(s.peak[name])
    else name !in s.peak && StillNeeded(s.todo, name) == 0
  }

  predicate Accounted(s: State, name: string) {
    && Log(s.refilled, name) == Log(s.handed, name) + (if name in s.pools then s.pools[name].ids else [])
    && NoRepeats(Log(s.refilled, name))
    && forall k :: 0 <= k < |Log(s.refilled, name)| ==>
         Log(s.refilled, name)[k] in s.issued && s.issued[Log(s.refilled, name)[k]] == name
  }

  ghost predicate Inv(s: State) {
    && DistinctNames(s.todo)
    && forall name :: WithinPeak(s, name) && Accounted(s, name)
  }

  lemma {:induction false} NeededIsListed(todo: seq<Item>, name: string)
    requires DistinctNames(todo)
    ensures forall k :: 0 <= k < |todo| && todo[k].name == name ==> StillNeeded(todo, name) == todo[k].need
    ensures (forall k :: 0 <= k < |todo| ==> todo[k].name != name) ==> StillNeeded(todo, name) == 0
  {
    if todo != [] {
      NeededIsListed(todo[1..], name);
      assert forall k :: 1 <= k < |todo| ==> todo[k] == todo[1..][k - 1];
    }
  }

  lemma StepKeeps(s: State, s': State)
    requires Inv(s) && Next(s, s')
    ensures Inv(s')
  {
    if name, size :| Resize(s, s', name, size) {
      ResizeKeeps(s, s', name, size);
    } else if name :| Take(s, s', name) {
      TakeKeeps(s, s', name);
    } else if todo :| StartRefill(s, s', todo) {
      StartKeeps(s, s', todo);
    } else if id :| Refill(s, s', id) {
      RefillKeeps(s, s', id);
    } else {
      NextKeeps(s, s');
    }
  }

  lemma ResizeKeeps(s: State, s': State, name: string, size: int)
    requires Inv(s) && Resize(s, s', name, size)
    ensures Inv(s')
  {
    forall n ensures WithinPeak(s', n) && Accounted(s', n) {
      assert WithinPeak(s, n) && Accounted(s, n);
    }
  }

  lemma TakeKeeps(s: State, s': State, name: string)
    requires Inv(s) && Take(s, s', name)
    ensures Inv(s')
  {
    assert WithinPeak(s, name) && Accounted(s, name);
    var ids := s.pools[name].ids;
    assert ids == [ids[0]] + ids[1..];
    assert Log(s.handed, name) + ids == Log(s.handed, name) + [ids[0]] + ids[1..];
    forall n ensures WithinPeak(s', n) && Accounted(s', n) {
      assert WithinPeak(s, n) && Accounted(s, n);
    }
  }

  lemma StartKeeps(s: State, s': State, todo: seq<Item>)
    requires Inv(s) && StartRefill(s, s', todo)
    ensures Inv(s')
  {
    forall n ensures WithinPeak(s', n) && Accounted(s', n) {
      assert WithinPeak(s, n) && Accounted(s, n);
      NeededIsListed(todo, n);
    }
  }

  lemma RefillKeeps(s: State, s': State, id: string)
    requires Inv(s) && Refill(s, s', id)
    ensures Inv(s')
  {
    var name := s.todo[0].name;
    assert s'.todo[1..] == s.todo[1..];
    forall n ensures WithinPeak(s', n) && Accounted(s', n) {
      assert WithinPeak(s, n) && Accounted(s, n);
      if n == name {
        AppendKeeps(Log(s.refilled, n), Log(s.handed, n), s.pools[n].ids, id, s.issued, n);
      }
    }
  }

  /** A new id at the end of both accounts. */
  lemma AppendKeeps(refilled: seq<string>, handed: seq<string>, ids: seq<string>, id: string,
                    issued: map<string, string>, name: string)
    requires refilled == handed + ids && NoRepeats(refilled) && id !in issued
    requires forall k :: 0 <= k < |refilled| ==> refilled[k] in issued
    ensures refilled + [id] == handed + (ids + [id]) && NoRepeats(refilled + [id])
  {
  }

  lemma NextKeeps(s: State, s': State)
    requires Inv(s) && NextTemplate(s, s')
    ensures Inv(s')
  {
    forall n ensures WithinPeak(s', n) && Accounted(s', n) {
      assert WithinPeak(s, n) && Accounted(s, n);
      NeededIsListed(s.todo, n);
      NeededIsListed(s'.todo, n);
    }
  }

  lemma {:induction false} AlwaysSound(run: seq<State>, i: nat)
    requires IsRun(run) && i < |run|
    ensures Inv(run[i])
  {
    if i > 0 {
      AlwaysSound(run, i - 1);
      assert Follows(run, i);
      StepKeeps(run[i - 1], run[i]);
    }
  }

  // ---------- Whole runs ----------

  /** Whatever targets are set when, a pool never holds more than the largest target it ever
      had, not even together with what the running refill still wants to add. */
  lemma PoolStaysWithinLargestTarget(run: seq<State>, i: nat, name: string)
    requires IsRun(run) && i < |run| && name in run[i].pools
    ensures name in run[i].peak && run[i].pools[name].target <= run[i].peak[name]
    ensures |run[i].pools[name].ids| + StillNeeded(run[i].todo, name) <= Positive(run[i].peak[name])
  {
    AlwaysSound(run, i);
    assert WithinPeak(run[i], name);
  }

  predicate KeepsTarget(s: State, s': State, name: string) {
    name in s.pools ==> name in s'.pools && s'.pools[name].target >= s.pools[name].target
  }

  /** The template's target never shrinks up to state i. */
  predicate NeverShrinks(run: seq<State>, i: nat, name: string)
    requires i < |run|
  {
    i == 0 || (NeverShrinks(run, i - 1, name) && KeepsTarget(run[i - 1], run[i], name))
  }

  lemma {:induction false} TargetIsPeak(run: seq<State>, i: nat, name: string)
    requires IsRun(run) && i < |run| && NeverShrinks(run, i, name) && name in run[i].pools
    ensures name in run[i].peak && run[i].peak[name] == run[i].pools[name].target
  {
    if i > 0 {
      if name in run[i - 1].pools {
        TargetIsPeak(run, i - 1, name);
      }
      PeakFollows(run, i, name);
    }
  }

  lemma PeakFollows(run: seq<State>, i: nat, name: string)
    requires IsRun(run) && 0 < i < |run| && KeepsTarget(run[i - 1], run[i], name) && name in run[i].pools
    requires name in run[i - 1].pools ==>
               name in run[i - 1].peak && run[i - 1].peak[name] == run[i - 1].pools[name].target
    ensures name in run[i].peak && run[i].peak[name] == run[i].pools[name].target
  {
    AlwaysSound(run, i - 1);
    assert Follows(run, i) && WithinPeak(run[i - 1], name);
    PeakStep(run[i - 1], run[i], name);
  }

  lemma PeakStep(s: State, s': State, name: string)
    requires Next(s, s') && WithinPeak(s, name) && KeepsTarget(s, s', name) && name in s'.pools
    requires name in s.pools ==> s.peak[name] == s.pools[name].target
    ensures name in s'.peak && s'.peak[name] == s'.pools[name].target
  {
    if n, size :| Resize(s, s', n, size) {
    } else {
      OnlyResizeSetsTargets(s, s', name);
    }
  }

  lemma OnlyResizeSetsTargets(s: State, s': State, name: string)
    requires Next(s, s') && forall n, size :: !Resize(s, s', n, size)
    ensures s'.peak == s.peak && (name in s.pools <==> name in s'.pools)
    ensures name in s.pools ==> s'.pools[name].target == s.pools[name].target
  {
  }

  /** So a pool whose target never shrinks stays within its target throughout. */
  lemma PoolStaysWithinTarget(run: seq<State>, i: nat, name: string)
    requires IsRun(run) && i < |run| && NeverShrinks(run, i, name) && name in run[i].pools
    ensures |run[i].pools[name].ids| + StillNeeded(run[i].todo, name) <= Positive(run[i].pools[name].target)
  {
    PoolStaysWithinLargestTarget(run, i, name);
    TargetIsPeak(run, i, name);
  }

  /** And one whose target shrinks need not: from every reachable state in which a sandbox is
      available or still to be added, setting the target to zero leaves the pool above it. */
  lemma ShrinkingLeavesTooMany(run: seq<State>, name: string) returns (longer: seq<State>)
    requires IsRun(run) && name in run[|run| - 1].pools
    requires |run[|run| - 1].pools[name].ids| + StillNeeded(run[|run| - 1].todo, name) > 0
    ensures IsRun(longer) && run <= longer
    ensures var s := longer[|longer| - 1];
            name in s.pools && |s.pools[name].ids| + StillNeeded(s.todo, name) > Positive(s.pools[name].target)
  {
    var s := run[|run| - 1];
    var s' := s.(pools := Configured(s.pools, name, 0), peak := Raised(s.peak, name, 0));
    assert Resize(s, s', name, 0);
    longer := Extend(run, s');
  }

  lemma Extend(run: seq<State>, s': State) returns (longer: seq<State>)
    requires IsRun(run) && Next(run[|run| - 1], s')
    ensures longer == run + [s'] && IsRun(longer)
  {
    longer := run + [s'];
    forall i | 0 < i < |longer| ensures Follows(longer, i) {
      if i < |run| {
        assert Follows(run, i) && longer[i - 1] == run[i - 1] && longer[i] == run[i];
      } else {
        assert longer[i - 1] == run[|run| - 1] && longer[i] == s';
      }
    }
  }

  /** The refill goroutine, when it has nothing left to do, can start a refill and add a new
      sandbox to any template below its target. */
  lemma ShortTemplateCanGrow(run: seq<State>, todo: seq<Item>, id: string) returns (longer: seq<State>)
    requires IsRun(run) && run[|run| - 1].todo == [] && IsWorkList(run[|run| - 1].pools, todo) && todo != []
    requires id !in run[|run| - 1].issued
    ensures IsRun(longer) && run <= longer
    ensures var s, s' := run[|run| - 1], longer[|longer| - 1];
            var name := todo[0].name;
            && name in s.pools && |s.pools[name].ids| < s.pools[name].target
            && s'.pools == s.pools[name := Pool(s.pools[name].target, s.pools[name].ids + [id])]
  {
    var s := run[|run| - 1];
    var s1 := s.(todo := todo);
    assert StartRefill(s, s1, todo);
    longer := Extend(run, s1);
    var name := todo[0].name;
    var s2 := s1.(pools := Added(s1.pools, name, id), issued := s1.issued[id := name],
                  refilled := s1.refilled[name := Log(s1.refilled, name) + [id]],
                  todo := s1.todo[0 := Item(name, s1.todo[0].need - 1)]);
    assert Refill(s1, s2, id);
    longer := Extend(longer, s2);
  }

  /** Whatever targets are set when, the ids handed out followed by the ids available are the
      refilled ids in order, and no id occurs twice among them: none is lost, none is handed
      out twice. */
  lemma NothingLostOrHandedOutTwice(run: seq<State>, i: nat, name: string)
    requires IsRun(run) && i < |run| && name in run[i].pools
    ensures Log(run[i].handed, name) + run[i].pools[name].ids == Log(run[i].refilled, name)
    ensures NoRepeats(Log(run[i].refilled, name))
    ensures forall id :: id in Log(run[i].refilled, name) ==> id in run[i].issued && run[i].issued[id] == name
  {
    AlwaysSound(run, i);
    assert Accounted(run[i], name);
  }
}
