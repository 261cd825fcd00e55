/** The durable bridge: any number of replicas gossip published events over NOTIFY and skip
    their own reflections. Notifications may be delayed, reordered or lost. */
module Bridge {
  import opened Text
  import EventBus

  type Event = EventBus.Event

  /** The k-th event published at a replica. */
  datatype Pub = Pub(origin: string, number: nat)

  /** An event as a replica's bus stored it, and which publication it came from. */
  datatype Entry = Entry(pub: Pub, event: Event)

  /** One notification on its way to one listening session; `pub` is not on the wire. */
  datatype Message = Message(pub: Pub, dest: string, source: string, event: Event)

  /** The instance ids, and the size of an event's envelope when marshalled. */
  datatype Config = Config(replicas: set<string>, size: Event -> nat)

  const PAYLOAD_LIMIT: nat := 7900

  /** Large payloads travel without their data. */
  function Strip(c: Config, e: Event): Event {
    if c.size(e) > PAYLOAD_LIMIT then e.(data := None) else e
  }

  datatype State = State(
    pubs: map<Pub, Event>, logs: map<string, seq<Entry>>,
    hooks: set<Pub>, notified: set<Pub>, failed: set<Pub>,
    wire: set<Message>, lost: set<(Pub, string)>)

  // ---------- Steps ----------

  /** Publish: the bus stores the completed event and the hook starts in its own goroutine. */
  ghost predicate Publish(c: Config, s: State, s': State, i: string, e: Event, now: int) {
    && i in c.replicas && i in s.logs && now != 0
    && exists k: nat :: Published(s, s', Pub(i, k), EventBus.Completed(e, |s.logs[i]| + 1, now))
  }

  ghost predicate Published(s: State, s': State, p: Pub, e: Event) {
    && p !in s.pubs && p.origin in s.logs
    && s' == s.(pubs := s.pubs[p := e], hooks := s.hooks + {p},
                logs := s.logs[p.origin := s.logs[p.origin] + [Entry(p, e)]])
  }

  /** A hook's NOTIFY goes through: every session that is listening gets a message. */
  ghost predicate NotifySent(c: Config, s: State, s': State, p: Pub, listening: set<string>) {
    && p in s.hooks && p in s.pubs && listening <= c.replicas
    && s' == s.(hooks := s.hooks - {p}, notified := s.notified + {p},
                wire := s.wire + (set j | j in listening :: Message(p, j, p.origin, Strip(c, s.pubs[p]))),
                lost := s.lost + (set j | j in c.replicas - listening :: (p, j)))
  }

  ghost predicate NotifyFailed(s: State, s': State, p: Pub) {
    p in s.hooks && s' == s.(hooks := s.hooks - {p}, failed := s.failed + {p})
  }

  /** A listener takes a message: its own reflection is skipped, anything else is published
      locally, which starts no hook. */
  ghost predicate Received(s: State, s': State, m: Message, now: int) {
    && m in s.wire && m.dest in s.logs && now != 0
    && s' == s.(wire := s.wire - {m},
                logs := if m.source == m.dest then s.logs
                        else s.logs[m.dest := s.logs[m.dest]
                                              + [Entry(m.pub, EventBus.Completed(m.event, |s.logs[m.dest]| + 1, now))]])
  }

  ghost predicate MessageLost(s: State, s': State, m: Message) {
    m in s.wire && s' == s.(wire := s.wire - {m}, lost := s.lost + {(m.pub, m.dest)})
  }

  ghost predicate Next(c: Config, s: State, s': State) {
    || (exists i, e, now :: Publish(c, s, s', i, e, now))
    || (exists p, listening :: NotifySent(c, s, s', p, listening))
    || (exists p :: NotifyFailed(s, s', p))
    || (exists m, now :: Received(s, s', m, now))
    || (exists m :: MessageLost(s, s', m))
  }

  ghost predicate Initially(c: Config, s: State) {
    s == State(map[], map i | i in c.replicas :: [], {}, {}, {}, {}, {})
  }

  ghost predicate Follows(c: Config, run: seq<State>, i: nat)
    requires 0 < i < |run|
  {
    Next(c, run[i - 1], run[i])
  }

  ghost predicate IsRun(c: Config, run: seq<State>) {
    |run| > 0 && Initially(c, run[0]) && forall i :: 0 < i < |run| ==> Follows(c, run, i)
  }

  // ---------- The fate of one publication at one replica ----------

  /** The events a log holds for publication p. */
  function Copies(log: seq<Entry>, p: Pub): seq<Event> {
    if log == [] then []
    else Copies(log[..|log| - 1], p) + if log[|log| - 1].pub == p then [log[|log| - 1].event] else []
  }

  datatype Fate = Fate(event: Option<Event>, hook: bool, notified: bool, failed: bool,
                       copies: seq<Event>, wire: set<Message>, lost: bool)

  ghost function FateOf(s: State, p: Pub, j: string): Fate
    requires j in s.logs
  {
    Fate(if p in s.pubs then Some(s.pubs[p]) else None, p in s.hooks, p in s.notified, p in s.failed,
         Copies(s.logs[j], p), set m | m in s.wire && m.pub == p && m.dest == j, (p, j) in s.lost)
  }

  predicate Complete(e: Event) { e.id != "" && e.stamp != 0 }

  function MessageFor(c: Config, p: Pub, j: string, e: Event): Message { Message(p, j, p.origin, Strip(c, e)) }

  /** At its origin a publication is in the history once. Elsewhere it is, until its NOTIFY
      succeeds, nowhere, and afterwards in exactly one place: on the wire, lost, or in the
      history, without data if it was large. */
  ghost predicate FateOk(c: Config, p: Pub, j: string, f: Fate) {
    match f.event
    case None => f == Fate(None, false, false, false, [], {}, false)
    case Some(e) =>
      && Complete(e)
      && (f.hook || f.notified || f.failed) && !(f.hook && f.notified) && !(f.hook && f.failed) && !(f.notified && f.failed)
      && (f.wire == {} || f.wire == {MessageFor(c, p, j, e)})
      && (if j == p.origin then f.copies == [e]
          else if f.notified then
            || (f.copies == [] && f.wire == {} && f.lost)
            || (f.copies == [] && f.wire != {} && !f.lost)
            || (f.copies == [Strip(c, e)] && f.wire == {} && !f.lost)
          else f.copies == [] && f.wire == {} && !f.lost)
      && (!f.notified ==> f.wire == {} && !f.lost)
  }

  ghost predicate Inv(c: Config, s: State) {
    && s.logs.Keys == c.replicas
    && forall p, j :: j in c.replicas ==> FateOk(c, p, j, FateOf(s, p, j))
  }

  // ---------- Steps ----------

  lemma CopiesAppend(log: seq<Entry>, e: Entry, p: Pub)
    ensures Copies(log + [e], p) == Copies(log, p) + if e.pub == p then [e.event] else []
  {
    assert (log + [e])[..|log + [e]| - 1] == log;
  }

  lemma CompletedIsComplete(e: Event, n: nat, now: int)
    requires now != 0
    ensures Complete(EventBus.Completed(e, n, now))
    ensures Complete(e) ==> EventBus.Completed(e, n, now) == e
  {
    assert EventBus.StringId(n)[0] == 'e';
  }

  lemma PublishKeeps(c: Config, s: State, s': State, p: Pub, e: Event)
    requires Inv(c, s) && Published(s, s', p, e) && p.origin in c.replicas && Complete(e)
    ensures Inv(c, s')
  {
    forall q, j | j in c.replicas
      ensures FateOk(c, q, j, FateOf(s', q, j))
    {
      var f, f' := FateOf(s, q, j), FateOf(s', q, j);
      assert FateOk(c, q, j, f);
      CopiesAppend(s.logs[p.origin], Entry(p, e), q);
      assert f'.wire == f.wire;
    }
  }

  lemma SentKeeps(c: Config, s: State, s': State, p: Pub, listening: set<string>)
    requires Inv(c, s) && NotifySent(c, s, s', p, listening)
    ensures Inv(c, s')
  {
    forall q, j | j in c.replicas
      ensures FateOk(c, q, j, FateOf(s', q, j))
    {
      var f, f' := FateOf(s, q, j), FateOf(s', q, j);
      assert FateOk(c, q, j, f);
      assert f'.wire == f.wire + if q == p && j in listening then {MessageFor(c, p, j, s.pubs[p])} else {};
      assert f'.lost == (f.lost || (q == p && j !in listening));
    }
  }

  lemma NotifyFailedKeeps(c: Config, s: State, s': State, p: Pub)
    requires Inv(c, s) && NotifyFailed(s, s', p)
    ensures Inv(c, s')
  {
    forall q, j | j in c.replicas
      ensures FateOk(c, q, j, FateOf(s', q, j))
    {
      assert FateOk(c, q, j, FateOf(s, q, j));
      assert FateOf(s', q, j).wire == FateOf(s, q, j).wire;
    }
  }

  /** A message on the wire is the one its publication sends to its destination. */
  lemma WireIsSound(c: Config, s: State, m: Message)
    requires Inv(c, s) && m in s.wire && m.dest in c.replicas
    ensures m.pub in s.pubs && m == MessageFor(c, m.pub, m.dest, s.pubs[m.pub]) && Complete(m.event)
  {
    var f := FateOf(s, m.pub, m.dest);
    assert FateOk(c, m.pub, m.dest, f) && m in f.wire;
  }

  lemma ReceivedKeeps(c: Config, s: State, s': State, m: Message, now: int)
    requires Inv(c, s) && Received(s, s', m, now)
    ensures Inv(c, s')
  {
    WireIsSound(c, s, m);
    CompletedIsComplete(m.event, |s.logs[m.dest]| + 1, now);
    forall q, j | j in c.replicas
      ensures FateOk(c, q, j, FateOf(s', q, j))
    {
      var f, f' := FateOf(s, q, j), FateOf(s', q, j);
      assert FateOk(c, q, j, f);
      CopiesAppend(s.logs[m.dest], Entry(m.pub, m.event), q);
      assert f'.wire == f.wire - {m};
    }
  }

  lemma LostKeeps(c: Config, s: State, s': State, m: Message)
    requires Inv(c, s) && MessageLost(s, s', m)
    ensures Inv(c, s')
  {
    forall q, j | j in c.replicas
      ensures FateOk(c, q, j, FateOf(s', q, j))
    {
      var f, f' := FateOf(s, q, j), FateOf(s', q, j);
      assert FateOk(c, q, j, f);
      assert f'.wire == f.wire - {m};
      if q == m.pub && j == m.dest {
        assert m in f.wire;
      }
    }
  }

  lemma StepKeeps(c: Config, s: State, s': State)
    requires Inv(c, s) && Next(c, s, s')
    ensures Inv(c, s')
  {
    if i, e, now :| Publish(c, s, s', i, e, now) {
      CompletedIsComplete(e, |s.logs[i]| + 1, now);
      var k: nat :| Published(s, s', Pub(i, k), EventBus.Completed(e, |s.logs[i]| + 1, now));
      PublishKeeps(c, s, s', Pub(i, k), EventBus.Completed(e, |s.logs[i]| + 1, now));
    } else if p, listening :| NotifySent(c, s, s', p, listening) {
      SentKeeps(c, s, s', p, listening);
    } else if p :| NotifyFailed(s, s', p) {
      NotifyFailedKeeps(c, s, s', p);
    } else if m, now :| Received(s, s', m, now) {
      ReceivedKeeps(c, s, s', m, now);
    } else {
      var m :| MessageLost(s, s', m);
      LostKeeps(c, s, s', m);
    }
  }

  lemma {:induction false} AlwaysSound(c: Config, run: seq<State>, i: nat)
    requires IsRun(c, run) && i < |run|
    ensures Inv(c, run[i])
  {
    if i > 0 {
      AlwaysSound(c, run, i - 1);
      assert Follows(c, run, i);
      StepKeeps(c, run[i - 1], run[i]);
    }
  }

  // ---------- Whole runs ----------

  /** A published event is in the history of its replica exactly once, in full, and in any
      other replica's at most once, up to stripped data. */
  lemma OnceAtOriginAtMostOnceElsewhere(c: Config, run: seq<State>, i: nat, p: Pub, j: string)
    requires IsRun(c, run) && i < |run| && j in c.replicas && p in run[i].pubs
    ensures j in run[i].logs
    ensures if j == p.origin then Copies(run[i].logs[j], p) == [run[i].pubs[p]]
            else Copies(run[i].logs[j], p) in {[], [Strip(c, run[i].pubs[p])]}
  {
    AlwaysSound(c, run, i);
    assert FateOk(c, p, j, FateOf(run[i], p, j));
  }

  /** An event within the size limit arrives elsewhere as it was published or not at all. */
  lemma SmallEventsArriveWhole(c: Config, run: seq<State>, i: nat, p: Pub, j: string)
    requires IsRun(c, run) && i < |run| && j in c.replicas && p in run[i].pubs && j != p.origin
    requires c.size(run[i].pubs[p]) <= 7900
    ensures j in run[i].logs && Copies(run[i].logs[j], p) in {[], [run[i].pubs[p]]}
  {
    OnceAtOriginAtMostOnceElsewhere(c, run, i, p, j);
  }

  /** A larger one arrives without its data and otherwise unchanged, or not at all. */
  lemma LargeEventsLoseTheirData(c: Config, run: seq<State>, i: nat, p: Pub, j: string)
    requires IsRun(c, run) && i < |run| && j in c.replicas && p in run[i].pubs && j != p.origin
    requires c.size(run[i].pubs[p]) > 7900
    ensures j in run[i].logs && Copies(run[i].logs[j], p) in {[], [run[i].pubs[p].(data := None)]}
  {
    OnceAtOriginAtMostOnceElsewhere(c, run, i, p, j);
  }

  /** No echo: every successful or failed NOTIFY belongs to its own local publication, so
      they never outnumber the publications. */
  lemma NotifiesNeverOutnumberPublications(c: Config, run: seq<State>, i: nat)
    requires IsRun(c, run) && i < |run| && c.replicas != {}
    ensures |run[i].notified| + |run[i].failed| + |run[i].hooks| == |run[i].pubs|
  {
    AlwaysSound(c, run, i);
    var s := run[i];
    var j :| j in c.replicas;
    forall p
      ensures p in s.pubs <==> p in s.notified + s.failed + s.hooks
      ensures !(p in s.notified && p in s.failed) && !(p in s.hooks && p in s.notified + s.failed)
    {
      assert FateOk(c, p, j, FateOf(s, p, j));
    }
    assert s.pubs.Keys == s.notified + s.failed + s.hooks;
  }

  /** Conservation: for every publication and every other replica exactly one of these
      holds: its hook has not run, its NOTIFY failed, its message is on the wire, its message
      is lost, its event is in the history. */
  lemma EachPublicationIsInOnePlace(c: Config, run: seq<State>, i: nat, p: Pub, j: string)
    requires IsRun(c, run) && i < |run| && j in c.replicas && p in run[i].pubs && j != p.origin
    ensures j in run[i].logs
    ensures var s := run[i];
            (if p in s.hooks then 1 else 0) + (if p in s.failed then 1 else 0)
            + |set m | m in s.wire && m.pub == p && m.dest == j|
            + (if (p, j) in s.lost then 1 else 0) + |Copies(s.logs[j], p)| == 1
  {
    AlwaysSound(c, run, i);
    assert FateOk(c, p, j, FateOf(run[i], p, j));
  }

  // ---------- Arriving ----------

  lemma Extend(c: Config, run: seq<State>, s': State) returns (longer: seq<State>)
    requires IsRun(c, run) && Next(c, run[|run| - 1], s')
    ensures longer == run + [s'] && IsRun(c, longer)
  {
    longer := run + [s'];
    forall i | 0 < i < |longer| ensures Follows(c, longer, i) {
      if i < |run| {
        assert Follows(c, run, i) && longer[i - 1] == run[i - 1] && longer[i] == run[i];
      } else {
        assert longer[i - 1] == run[|run| - 1] && longer[i] == s';
      }
    }
  }

  lemma Sends(c: Config, run: seq<State>, p: Pub, j: string) returns (longer: seq<State>)
    requires IsRun(c, run) && p in run[|run| - 1].hooks && p in run[|run| - 1].pubs && j in c.replicas
    ensures IsRun(c, longer) && run <= longer
    ensures var s, s' := run[|run| - 1], longer[|longer| - 1];
            MessageFor(c, p, j, s.pubs[p]) in s'.wire && s'.pubs == s.pubs && s'.logs == s.logs
  {
    var s := run[|run| - 1];
    var sent := set k | k in c.replicas :: Message(p, k, p.origin, Strip(c, s.pubs[p]));
    var missed := set k | k in c.replicas - c.replicas :: (p, k);
    var s' := s.(hooks := s.hooks - {p}, notified := s.notified + {p}, wire := s.wire + sent, lost := s.lost + missed);
    assert NotifySent(c, s, s', p, c.replicas);
    longer := Extend(c, run, s');
    assert MessageFor(c, p, j, s.pubs[p]) in sent;
  }

  /** Nothing but a failure keeps a publication away: while its hook has not run, every run can
      go on to any other replica having it, whole if it is small. */
  lemma PublicationCanArrive(c: Config, run: seq<State>, p: Pub, j: string) returns (longer: seq<State>)
    requires IsRun(c, run) && p in run[|run| - 1].hooks && p in run[|run| - 1].pubs && j in c.replicas && j != p.origin
    ensures IsRun(c, longer) && run <= longer
    ensures var s, s' := run[|run| - 1], longer[|longer| - 1];
            var e := if c.size(s.pubs[p]) <= 7900 then s.pubs[p] else s.pubs[p].(data := None);
            j in s'.logs && j in s.logs && s'.logs[j] == s.logs[j] + [Entry(p, e)]
  {
    AlwaysSound(c, run, |run| - 1);
    longer := Sends(c, run, p, j);
    var s, m := longer[|longer| - 1], MessageFor(c, p, j, run[|run| - 1].pubs[p]);
    AlwaysSound(c, longer, |longer| - 1);
    WireIsSound(c, s, m);
    CompletedIsComplete(m.event, |s.logs[j]| + 1, 1);
    var s' := s.(wire := s.wire - {m}, logs := s.logs[j := s.logs[j] + [Entry(p, m.event)]]);
    assert Received(s, s', m, 1);
    longer := Extend(c, longer, s');
  }

  // ---------- When everything has arrived ----------

  /** A history with the data of large events left out. */
  function Normal(c: Config, log: seq<Entry>): seq<Entry> {
    if log == [] then []
    else
      var last := log[|log| - 1];
      Normal(c, log[..|log| - 1]) + [Entry(last.pub, Strip(c, last.event))]
  }

  function StripAll(c: Config, events: seq<Event>): seq<Event> {
    if events == [] then [] else StripAll(c, events[..|events| - 1]) + [Strip(c, events[|events| - 1])]
  }

  lemma {:induction false} CountIsCopies(c: Config, log: seq<Entry>, x: Entry)
    ensures multiset(Normal(c, log))[x] == multiset(StripAll(c, Copies(log, x.pub)))[x.event]
  {
    if log != [] {
      var front, last := log[..|log| - 1], log[|log| - 1];
      CountIsCopies(c, front, x);
      var entry := Entry(last.pub, Strip(c, last.event));
      assert multiset(Normal(c, log))[x] == multiset(Normal(c, front))[x] + (if entry == x then 1 else 0) by {
        assert multiset(Normal(c, front) + [entry]) == multiset(Normal(c, front)) + multiset{entry};
      }
      var before, after := Copies(front, x.pub), Copies(log, x.pub);
      if last.pub == x.pub {
        assert after[..|after| - 1] == before;
        assert multiset(StripAll(c, before) + [entry.event]) == multiset(StripAll(c, before)) + multiset{entry.event};
      } else {
        assert after == before;
      }
    }
  }

  ghost predicate AllArrived(s: State) {
    s.hooks == {} && s.failed == {} && s.wire == {} && s.lost == {}
  }

  lemma StripOne(c: Config, e: Event)
    ensures StripAll(c, [e]) == [Strip(c, e)] == StripAll(c, [Strip(c, e)])
  {
    assert [e][..0] == [] == [Strip(c, e)][..0];
  }

  /** What has arrived at j is the one event that was published, stripped or not. */
  lemma CopiesArrived(c: Config, s: State, p: Pub, j: string)
    requires AllArrived(s) && j in s.logs && FateOk(c, p, j, FateOf(s, p, j))
    ensures if p in s.pubs then Copies(s.logs[j], p) in {[s.pubs[p]], [Strip(c, s.pubs[p])]}
            else Copies(s.logs[j], p) == []
  {
    assert FateOf(s, p, j).wire == {};
  }

  lemma SameCopies(c: Config, s: State, p: Pub, i: string, j: string)
    requires Inv(c, s) && AllArrived(s) && i in c.replicas && j in c.replicas
    ensures StripAll(c, Copies(s.logs[i], p)) == StripAll(c, Copies(s.logs[j], p))
  {
    CopiesArrived(c, s, p, i);
    CopiesArrived(c, s, p, j);
    if p in s.pubs {
      StripOne(c, s.pubs[p]);
    }
  }

  /** When nothing is in flight and nothing failed or was lost, all replicas have delivered
      the same events, up to order and to the data of large ones. */
  lemma ReplicasAgreeWhenAllArrived(c: Config, run: seq<State>, k: nat, i: string, j: string)
    requires IsRun(c, run) && k < |run| && AllArrived(run[k]) && i in c.replicas && j in c.replicas
    ensures i in run[k].logs && j in run[k].logs
    ensures multiset(Normal(c, run[k].logs[i])) == multiset(Normal(c, run[k].logs[j]))
  {
    AlwaysSound(c, run, k);
    forall x: Entry
      ensures multiset(Normal(c, run[k].logs[i]))[x] == multiset(Normal(c, run[k].logs[j]))[x]
    {
      CountIsCopies(c, run[k].logs[i], x);
      CountIsCopies(c, run[k].logs[j], x);
      SameCopies(c, run[k], x.pub, i, j);
    }
  }

  lemma {:induction false} CountInLog(log: seq<Entry>, x: Entry)
    ensures multiset(log)[x] == multiset(Copies(log, x.pub))[x.event]
  {
    if log != [] {
      var front, last := log[..|log| - 1], log[|log| - 1];
      CountInLog(front, x);
      assert log == front + [last];
    }
  }

  /** If, besides, every event was within the size limit, the histories themselves hold the
      same events, data included. */
  lemma ReplicasEqualWhenSmall(c: Config, run: seq<State>, k: nat, i: string, j: string)
    requires IsRun(c, run) && k < |run| && AllArrived(run[k]) && i in c.replicas && j in c.replicas
    requires forall p :: p in run[k].pubs ==> c.size(run[k].pubs[p]) <= 7900
    ensures i in run[k].logs && j in run[k].logs
    ensures multiset(run[k].logs[i]) == multiset(run[k].logs[j])
  {
    AlwaysSound(c, run, k);
    var s := run[k];
    forall x: Entry ensures multiset(s.logs[i])[x] == multiset(s.logs[j])[x] {
      CountInLog(s.logs[i], x);
      CountInLog(s.logs[j], x);
      ArrivedWhole(c, s, x.pub, i);
      ArrivedWhole(c, s, x.pub, j);
    }
  }

  lemma ArrivedWhole(c: Config, s: State, p: Pub, j: string)
    requires Inv(c, s) && AllArrived(s) && j in c.replicas
    requires p in s.pubs ==> c.size(s.pubs[p]) <= PAYLOAD_LIMIT
    ensures Copies(s.logs[j], p) == if p in s.pubs then [s.pubs[p]] else []
  {
    assert FateOk(c, p, j, FateOf(s, p, j));
    CopiesArrived(c, s, p, j);
  }
}
