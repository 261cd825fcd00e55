/** The rootfs image cache: concurrent Get calls share one build per image. Cached files
    appear atomically and are never removed. */
module ImageCache {
  import opened Text

  /** What a build, and hence every Get that relies on it, returns. */
  datatype Outcome = Built(path: string) | Failed(error: string)

  /** One build: its image, and its outcome once its channel is closed. */
  datatype Build = Build(image: string, outcome: Option<Outcome>)

  type Paths = string -> string

  // ---------- The locked section of Get ----------

  datatype Entered = Join(build: nat) | Hit | Start(build: nat)

  class Cache {
    var files: set<string>
    var building: map<string, nat>
    var builds: map<nat, Build>

    constructor ()
      ensures files == {} && building == map[] && builds == map[]
    {
      files, building, builds := {}, map[], map[];
    }

    /** Under the lock: join a running build, find the file after all, or register a build. */
    method Enter(path: Paths, image: string, unused: nat) returns (r: Entered)
      requires unused !in builds
      modifies this`building, this`builds
      ensures r == Decision(path, old(files), old(building), image, unused)
      ensures building == if r.Start? then old(building)[image := unused] else old(building)
      ensures builds == if r.Start? then Opened(old(builds), unused, image) else old(builds)
    {
      if image in building {
        return Join(building[image]);
      }
      if path(image) in files {
        return Hit;
      }
      builds := builds[unused := Build(image, None)];
      building := building[image := unused];
      r := Start(unused);
    }

    /** Setting the outcome and closing the channel. */
    method Close(b: nat, outcome: Outcome)
      requires b in builds
      modifies this`builds
      ensures builds == Finished(old(builds), b, outcome)
    {
      builds := builds[b := Build(builds[b].image, Some(outcome))];
    }

    method Unregister(image: string)
      modifies this`building
      ensures building == old(building) - {image}
    {
      building := building - {image};
    }
  }

  /** A registered build, and one with its outcome set and its channel closed. */
  function Opened(builds: map<nat, Build>, b: nat, image: string): map<nat, Build> {
    builds[b := Build(image, None)]
  }

  function Finished(builds: map<nat, Build>, b: nat, outcome: Outcome): map<nat, Build>
    requires b in builds
  {
    builds[b := Build(builds[b].image, Some(outcome))]
  }

  function Decision(path: Paths, files: set<string>, building: map<string, nat>, image: string, unused: nat): Entered {
    if image in building then Join(building[image])
    else if path(image) in files then Hit
    else Start(unused)
  }

  // ---------- Many Get calls ----------

  datatype Pc =
    | Called(image: string)
    | Missed(image: string)                              // first stat found nothing
    | Waiting(image: string, build: nat)
    | Building(image: string, build: nat)
    | Moved(image: string, build: nat)                   // file published, outcome not set
    | Closing(image: string, build: nat, outcome: Outcome)
    | Closed(image: string, build: nat, outcome: Outcome)  // channel closed, still registered
    | Returned(image: string, outcome: Outcome, via: Option<nat>)

  /** Shared memory and disk; `succeeded` records the builds that published their file. */
  datatype Shared = Shared(files: set<string>, building: map<string, nat>, builds: map<nat, Build>, succeeded: set<nat>)

  datatype State = State(pcs: map<nat, Pc>, mem: Shared)

  /** One move of one Get call. */
  ghost predicate GetMove(path: Paths, p: Pc, m: Shared, n: Pc, m': Shared) {
    match p
    case Called(image) =>
      && m' == m
      && n == if image == "" then Returned(image, Built(""), None)
              else if path(image) in m.files then Returned(image, Built(path(image)), None)
              else Missed(image)
    case Missed(image) =>
      (match n
       case Waiting(_, b) => m' == m && n == Waiting(image, b) && Decision(path, m.files, m.building, image, b) == Join(b)
       case Building(_, b) =>
         && n == Building(image, b) && b !in m.builds && Decision(path, m.files, m.building, image, b) == Start(b)
         && m' == m.(building := m.building[image := b], builds := Opened(m.builds, b, image))
       case Returned(_, _, _) =>
         m' == m && n == Returned(image, Built(path(image)), None) && Decision(path, m.files, m.building, image, 0) == Hit
       case _ => false)
    case Waiting(image, b) =>
      m' == m && b in m.builds && m.builds[b].outcome.Some? && n == Returned(image, m.builds[b].outcome.value, Some(b))
    case Building(image, b) =>
      || (n.Closing? && n == Closing(image, b, n.outcome) && n.outcome.Failed? && m' == m)
      || (n == Moved(image, b) && m' == m.(files := m.files + {path(image)}, succeeded := m.succeeded + {b}))
    case Moved(image, b) => n == Closing(image, b, Built(path(image))) && m' == m
    case Closing(image, b, o) =>
      b in m.builds && n == Closed(image, b, o) && m' == m.(builds := Finished(m.builds, b, o))
    case Closed(image, b, o) => n == Returned(image, o, Some(b)) && m' == m.(building := m.building - {image})
    case Returned(_, _, _) => false
  }

  ghost predicate Step(path: Paths, s: State, s': State, t: nat) {
    && t in s.pcs && t in s'.pcs && s'.pcs == s.pcs[t := s'.pcs[t]]
    && GetMove(path, s.pcs[t], s.mem, s'.pcs[t], s'.mem)
  }

  ghost predicate Next(path: Paths, s: State, s': State) { exists t :: Step(path, s, s', t) }

  /** Any number of calls, an arbitrary cache directory, no build running. */
  ghost predicate Initially(s: State) {
    && (forall t :: t in s.pcs ==> s.pcs[t].Called?)
    && s.mem == Shared(s.mem.files, map[], map[], {})
  }

  ghost predicate Follows(path: Paths, run: seq<State>, i: nat)
    requires 0 < i < |run|
  {
    Next(path, run[i - 1], run[i])
  }

  ghost predicate IsRun(path: Paths, run: seq<State>) {
    |run| > 0 && Initially(run[0]) && forall i :: 0 < i < |run| ==> Follows(path, run, i)
  }

  // ---------- Invariants ----------

  /** The build a thread is carrying out, from registration to unregistration. */
  function Runs(pc: Pc): Option<nat> {
    match pc
    case Building(_, b) => Some(b)
    case Moved(_, b) => Some(b)
    case Closing(_, b, _) => Some(b)
    case Closed(_, b, _) => Some(b)
    case _ => None
  }

  predicate Registered(m: Shared, image: string, b: nat) {
    && image != "" && image in m.building && m.building[image] == b
    && b in m.builds && m.builds[b].image == image
  }

  /** A Get that succeeded has its file. */
  predicate Delivers(path: Paths, m: Shared, image: string, o: Outcome) {
    o.Built? ==> o.path == path(image) && path(image) in m.files
  }

  ghost predicate NoneSucceeded(m: Shared, image: string) {
    forall k :: k in m.succeeded && k in m.builds ==> m.builds[k].image != image
  }

  ghost predicate PcInv(path: Paths, m: Shared, pc: Pc) {
    match pc
    case Called(_) => true
    case Missed(image) => image != ""
    case Waiting(image, b) => image != "" && b in m.builds && m.builds[b].image == image
    case Building(image, b) => Registered(m, image, b) && m.builds[b].outcome == None && NoneSucceeded(m, image)
    case Moved(image, b) => Registered(m, image, b) && m.builds[b].outcome == None && path(image) in m.files
    case Closing(image, b, o) => Registered(m, image, b) && m.builds[b].outcome == None && Delivers(path, m, image, o)
    case Closed(image, b, o) => Registered(m, image, b) && m.builds[b].outcome == Some(o)
    case Returned(image, o, via) =>
      && (image == "" ==> o == Built(""))
      && (image != "" ==> Delivers(path, m, image, o))
      && (via.Some? ==> via.value in m.builds && m.builds[via.value] == Build(image, Some(o)))
  }

  ghost predicate MemInv(path: Paths, m: Shared) {
    && (forall k :: k in m.succeeded ==> k in m.builds && path(m.builds[k].image) in m.files)
    && (forall k, l :: k in m.succeeded && l in m.succeeded && m.builds[k].image == m.builds[l].image ==> k == l)
    && (forall b :: b in m.builds && m.builds[b].outcome.Some? ==>
          m.builds[b].image != "" && Delivers(path, m, m.builds[b].image, m.builds[b].outcome.value))
    && (forall image :: image in m.building ==> Registered(m, image, m.building[image]))
  }

  /** Publishing the file and starting a build are the moves that matter most to memory. */
  lemma MovedMem(path: Paths, p: Pc, m: Shared, n: Pc, m': Shared)
    requires p.Building? && MemInv(path, m) && PcInv(path, m, p) && GetMove(path, p, m, n, m')
    ensures MemInv(path, m')
  {
  }

  lemma RegisteredMem(path: Paths, p: Pc, m: Shared, n: Pc, m': Shared)
    requires p.Missed? && MemInv(path, m) && PcInv(path, m, p) && GetMove(path, p, m, n, m')
    ensures MemInv(path, m')
  {
  }

  lemma MemKept(path: Paths, p: Pc, m: Shared, n: Pc, m': Shared)
    requires MemInv(path, m) && PcInv(path, m, p) && GetMove(path, p, m, n, m')
    ensures MemInv(path, m')
  {
    if p.Building? {
      MovedMem(path, p, m, n, m');
    } else if p.Missed? {
      RegisteredMem(path, p, m, n, m');
    }
  }

  lemma OtherKept(path: Paths, p: Pc, m: Shared, n: Pc, m': Shared, q: Pc)
    requires MemInv(path, m) && PcInv(path, m, p) && GetMove(path, p, m, n, m')
    requires PcInv(path, m, q) && (Runs(q).Some? ==> Runs(q) != Runs(p))
    ensures PcInv(path, m', q) && (Runs(q).Some? ==> Runs(q) != Runs(n))
  {
  }

  ghost predicate OneRunnerEach(s: State) {
    forall t, u :: t in s.pcs && u in s.pcs && t != u && Runs(s.pcs[t]).Some? ==> Runs(s.pcs[t]) != Runs(s.pcs[u])
  }

  ghost predicate Inv(path: Paths, s: State) {
    && MemInv(path, s.mem) && OneRunnerEach(s)
    && forall t :: t in s.pcs ==> PcInv(path, s.mem, s.pcs[t])
  }

  lemma StepKeeps(path: Paths, s: State, s': State, t: nat)
    requires Inv(path, s) && Step(path, s, s', t)
    ensures Inv(path, s')
  {
    var p, m, n, m' := s.pcs[t], s.mem, s'.pcs[t], s'.mem;
    MemKept(path, p, m, n, m');
    forall u | u in s'.pcs && u != t
      ensures PcInv(path, m', s'.pcs[u]) && s'.pcs[u] == s.pcs[u]
      ensures Runs(s'.pcs[u]).Some? ==> Runs(s'.pcs[u]) != Runs(n)
    {
      assert s'.pcs[u] == s.pcs[u];
      OtherKept(path, p, m, n, m', s.pcs[u]);
    }
  }

  lemma {:induction false} AlwaysSound(path: Paths, run: seq<State>, i: nat)
    requires IsRun(path, run) && i < |run|
    ensures Inv(path, run[i])
  {
    if i > 0 {
      AlwaysSound(path, run, i - 1);
      assert Follows(path, run, i);
      var t :| Step(path, run[i - 1], run[i], t);
      StepKeeps(path, run[i - 1], run[i], t);
    }
  }

  // ---------- Whole runs ----------

  predicate InProgress(pc: Pc, image: string) { Runs(pc).Some? && pc.image == image }

  ghost predicate SomebodyBuilds(s: State, image: string) {
    exists t :: t in s.pcs && InProgress(s.pcs[t], image)
  }

  lemma BuilderStays(path: Paths, s: State, s': State, t: nat, image: string)
    requires Inv(path, s) && Step(path, s, s', t) && image in s'.mem.building
    requires image in s.mem.building ==> SomebodyBuilds(s, image)
    ensures SomebodyBuilds(s', image)
  {
    var p, n := s.pcs[t], s'.pcs[t];
    assert PcInv(path, s.mem, p);
    if InProgress(n, image) {
      assert t in s'.pcs;
    } else {
      assert image in s.mem.building;
      var u :| u in s.pcs && InProgress(s.pcs[u], image);
      assert u != t && s'.pcs[u] == s.pcs[u];
    }
  }

  /** A registered image is being built by some thread: once its build is over, succeeded or
      not, nobody is left waiting for it and the next Get starts another. */
  lemma {:induction false} RegisteredIsBeingBuilt(path: Paths, run: seq<State>, i: nat, image: string)
    requires IsRun(path, run) && i < |run| && image in run[i].mem.building
    ensures SomebodyBuilds(run[i], image)
  {
    if i > 0 {
      AlwaysSound(path, run, i - 1);
      assert Follows(path, run, i);
      var t :| Step(path, run[i - 1], run[i], t);
      if image in run[i - 1].mem.building {
        RegisteredIsBeingBuilt(path, run, i - 1, image);
      }
      BuilderStays(path, run[i - 1], run[i], t, image);
    }
  }

  lemma Continue(path: Paths, run: seq<State>, t: nat, n: Pc, m': Shared) returns (longer: seq<State>)
    requires IsRun(path, run) && t in run[|run| - 1].pcs
    requires GetMove(path, run[|run| - 1].pcs[t], run[|run| - 1].mem, n, m')
    ensures IsRun(path, longer) && run < longer && longer[|longer| - 1] == State(run[|run| - 1].pcs[t := n], m')
  {
    var s := run[|run| - 1];
    var s' := State(s.pcs[t := n], m');
    longer := run + [s'];
    assert Step(path, s, s', t);
    forall i | 0 < i < |longer| ensures Follows(path, longer, i) {
      if i < |run| {
        assert Follows(path, run, i) && longer[i - 1] == run[i - 1] && longer[i] == run[i];
      }
    }
  }

  /** A waiter returns what its build ended with, and not before. */
  lemma WaiterIsAnswered(path: Paths, s: State, s': State, t: nat)
    requires Step(path, s, s', t) && s.pcs[t].Waiting?
    ensures var b := s.pcs[t].build;
            && b in s.mem.builds && s.mem.builds[b].outcome.Some? && s'.mem == s.mem
            && s'.pcs[t] == Returned(s.pcs[t].image, s.mem.builds[b].outcome.value, Some(b))
  {
  }

  /** What a Get alone does for an image that is neither cached nor being built: its build may
      succeed, and then the file is there and its path is returned, or fail with any error,
      and then no file appears; either way the image is not registered afterwards. */
  lemma LoneGet(path: Paths, run: seq<State>, t: nat, b: nat, image: string, error: Option<string>)
    returns (longer: seq<State>)
    requires IsRun(path, run) && t in run[|run| - 1].pcs && run[|run| - 1].pcs[t] == Called(image) && image != ""
    requires var m := run[|run| - 1].mem; path(image) !in m.files && image !in m.building && b !in m.builds
    ensures IsRun(path, longer) && run < longer
    ensures var s, s' := run[|run| - 1], longer[|longer| - 1];
            var outcome := if error.Some? then Failed(error.value) else Built(path(image));
            && s'.pcs == s.pcs[t := Returned(image, outcome, Some(b))] && s'.mem.building == s.mem.building
            && s'.mem.files == s.mem.files + (if error.None? then {path(image)} else {})
            && s'.mem.builds == s.mem.builds[b := Build(image, Some(outcome))]
  {
    var s, m := run[|run| - 1], run[|run| - 1].mem;
    var outcome := if error.Some? then Failed(error.value) else Built(path(image));
    longer := Continue(path, run, t, Missed(image), m);
    m := m.(building := m.building[image := b], builds := Opened(m.builds, b, image));
    longer := Continue(path, longer, t, Building(image, b), m);
    if error.None? {
      m := m.(files := m.files + {path(image)}, succeeded := m.succeeded + {b});
      longer := Continue(path, longer, t, Moved(image, b), m);
    }
    longer := Continue(path, longer, t, Closing(image, b, outcome), m);
    m := m.(builds := Finished(m.builds, b, outcome));
    longer := Continue(path, longer, t, Closed(image, b, outcome), m);
    longer := Continue(path, longer, t, Returned(image, outcome, Some(b)), m.(building := m.building - {image}));
  }

  /** What a Get does when it looks, first without the lock and then with it: a file that is
      there is used at once, even while a build is still registered; otherwise a running build
      is waited for, and only without one is a build started, under a number of its own. */
  lemma LookingMeans(path: Paths, s: State, s': State, t: nat)
    requires Step(path, s, s', t) && (s.pcs[t].Called? || s.pcs[t].Missed?) && s.pcs[t].image != ""
    ensures var image, n, m := s.pcs[t].image, s'.pcs[t], s.mem;
            var there, running := path(image) in m.files, image in m.building;
            && (n == Returned(image, Built(path(image)), None) <==> there && (s.pcs[t].Called? || !running))
            && (n == Missed(image) <==> s.pcs[t].Called? && !there)
            && (n.Waiting? <==> s.pcs[t].Missed? && running)
            && (n.Waiting? ==> n == Waiting(image, m.building[image]))
            && (n.Building? <==> s.pcs[t].Missed? && !running && !there)
            && (n.Building? ==> n.build !in m.builds && s'.mem.building == m.building[image := n.build])
            && (!n.Building? ==> s'.mem == m) && s'.mem.files == m.files
  {
  }

  /** At most one thread builds an image at any time. */
  lemma OneBuildAtATime(path: Paths, run: seq<State>, i: nat, t: nat, u: nat, image: string)
    requires IsRun(path, run) && i < |run| && t in run[i].pcs && u in run[i].pcs
    requires InProgress(run[i].pcs[t], image) && InProgress(run[i].pcs[u], image)
    ensures t == u
  {
    AlwaysSound(path, run, i);
    assert PcInv(path, run[i].mem, run[i].pcs[t]) && PcInv(path, run[i].mem, run[i].pcs[u]);
  }

  /** At most one build of an image ever publishes a file. */
  lemma OneSuccessPerImage(path: Paths, run: seq<State>, i: nat, k: nat, l: nat)
    requires IsRun(path, run) && i < |run|
    requires k in run[i].mem.succeeded && l in run[i].mem.succeeded
    ensures k in run[i].mem.builds && l in run[i].mem.builds
    ensures run[i].mem.builds[k].image == run[i].mem.builds[l].image ==> k == l
  {
    AlwaysSound(path, run, i);
  }

  /** Everyone who relied on the same build, its builder included, returned the same path and
      error for the same image. */
  lemma WaitersGetTheBuildersResult(path: Paths, run: seq<State>, i: nat, t: nat, u: nat)
    requires IsRun(path, run) && i < |run| && t in run[i].pcs && u in run[i].pcs
    requires run[i].pcs[t].Returned? && run[i].pcs[u].Returned?
    requires run[i].pcs[t].via.Some? && run[i].pcs[t].via == run[i].pcs[u].via
    ensures run[i].pcs[t].outcome == run[i].pcs[u].outcome && run[i].pcs[t].image == run[i].pcs[u].image
  {
    AlwaysSound(path, run, i);
    assert PcInv(path, run[i].mem, run[i].pcs[t]) && PcInv(path, run[i].mem, run[i].pcs[u]);
  }

  /** A Get that returns no error has returned the image's cache path, and the file is there;
      for an empty image name it returns an empty path. */
  lemma SuccessMeansCached(path: Paths, run: seq<State>, i: nat, t: nat)
    requires IsRun(path, run) && i < |run| && t in run[i].pcs && run[i].pcs[t].Returned?
    ensures var pc := run[i].pcs[t];
            if pc.image == "" then pc.outcome == Built("")
            else pc.outcome.Built? ==> pc.outcome.path == path(pc.image) && path(pc.image) in run[i].mem.files
  {
    AlwaysSound(path, run, i);
    assert PcInv(path, run[i].mem, run[i].pcs[t]);
  }
}
