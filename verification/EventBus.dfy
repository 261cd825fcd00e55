/** The in-process event bus: numbered events, a ring of recent history and subscribers
    with bounded channels that never block a publisher. */
module EventBus {
  import opened Text

  /** A zero timestamp and an empty id are filled in on publication. */
  datatype Event = Event(id: string, kind: string, sandboxId: string, stamp: int, data: Option<string>)

  const SUBSCRIBER_BUFFER: nat := 64

  function Decimal(n: nat): string {
    var digit := [('0' as int + n % 10) as char];
    if n < 10 then digit else Decimal(n / 10) + digit
  }

  function StringId(n: nat): string { "evt-" + Decimal(n) }

  /** The event as it is stored and delivered when it is the n-th. */
  function Completed(e: Event, n: nat, now: int): Event {
    e.(stamp := if e.stamp == 0 then now else e.stamp, id := if e.id == "" then StringId(n) else e.id)
  }

  /** The ring after the n-th event: appended while there is room, else written at n mod size. */
  function Put(history: seq<Event>, size: nat, n: nat, e: Event): seq<Event>
    requires size > 0 && |history| <= size
  {
    if |history| < size then history + [e] else history[n % size := e]
  }

  /** The ring after publishing exactly these events. */
  function Ring(size: nat, events: seq<Event>): (r: seq<Event>)
    requires size > 0
    ensures |r| == if |events| < size then |events| else size
  {
    if events == [] then []
    else Put(Ring(size, events[..|events| - 1]), size, |events|, events[|events| - 1])
  }

  function Offer(channel: seq<Event>, e: Event): seq<Event> {
    if |channel| < SUBSCRIBER_BUFFER then channel + [e] else channel
  }

  function Recent(history: seq<Event>, limit: int): seq<Event> {
    var n := if limit <= 0 || limit > |history| then |history| else limit;
    history[|history| - n..]
  }

  class Bus {
    const historySize: nat
    var history: seq<Event>
    var nextId: nat
    var subscribers: map<string, seq<Event>>   // id -> undelivered events
    var hooked: bool
    var outbox: seq<Event>                     // handed to the publish hook
    ghost var published: seq<Event>

    ghost predicate Valid()
      reads this
    {
      && historySize > 0 && nextId == |published| && history == Ring(historySize, published)
      && forall id :: id in subscribers ==> |subscribers[id]| <= SUBSCRIBER_BUFFER
    }

    constructor (historySize: nat)
      requires historySize > 0
      ensures Valid() && this.historySize == historySize && published == [] && subscribers == map[]
      ensures !hooked && outbox == []
    {
      this.historySize, history, nextId, subscribers, hooked, outbox := historySize, [], 0, map[], false, [];
      published := [];
    }

    /** Delivery to local history and subscribers, as remote events take it. */
    method PublishLocal(e: Event, now: int)
      requires Valid()
      modifies this`history, this`nextId, this`subscribers, this`published
      ensures Valid()
      ensures published == old(published) + [Completed(e, |old(published)| + 1, now)]
      ensures subscribers.Keys == old(subscribers).Keys
      ensures forall id :: id in subscribers ==>
                subscribers[id] == Offer(old(subscribers)[id], Completed(e, |old(published)| + 1, now))
    {
      nextId := nextId + 1;
      var evt := Completed(e, nextId, now);
      if |history| < historySize {
        history := history + [evt];
      } else {
        history := history[nextId % historySize := evt];
      }
      published := published + [evt];
      assert published[..|published| - 1] == old(published);
      Deliver(evt);
    }

    /** Every subscriber with room gets the event, the others drop it. */
    method Deliver(evt: Event)
      modifies this`subscribers
      ensures subscribers.Keys == old(subscribers).Keys
      ensures forall id :: id in subscribers ==> subscribers[id] == Offer(old(subscribers)[id], evt)
    {
      var todo := subscribers.Keys;
      while todo != {}
        invariant todo <= subscribers.Keys == old(subscribers).Keys
        invariant forall id :: id in subscribers ==>
                    subscribers[id] == if id in todo then old(subscribers)[id] else Offer(old(subscribers)[id], evt)
        decreases |todo|
      {
        var id :| id in todo;
        subscribers := subscribers[id := Offer(subscribers[id], evt)];
        todo := todo - {id};
      }
    }

    /** Publication: local delivery, and one call of the bridge's hook when there is one. */
    method Publish(e: Event, now: int)
      requires Valid()
      modifies this`history, this`nextId, this`subscribers, this`published, this`outbox
      ensures Valid()
      ensures published == old(published) + [Completed(e, |old(published)| + 1, now)]
      ensures subscribers.Keys == old(subscribers).Keys
      ensures forall id :: id in subscribers ==>
                subscribers[id] == Offer(old(subscribers)[id], Completed(e, |old(published)| + 1, now))
      ensures outbox == old(outbox) + if hooked then [Completed(e, |old(published)| + 1, now)] else []
    {
      PublishLocal(e, now);
      if hooked {
        outbox := outbox + [Completed(e, nextId, now)];
      }
    }

    method AttachDurableBridge()
      requires Valid()
      modifies this`hooked
      ensures Valid() && hooked
    {
      hooked := true;
    }

    /** A new subscription starts with an empty channel, replacing one of the same name. */
    method Subscribe(id: string)
      requires Valid()
      modifies this`subscribers
      ensures Valid() && subscribers == old(subscribers)[id := []]
    {
      subscribers := subscribers[id := []];
    }

    method Unsubscribe(id: string)
      requires Valid()
      modifies this`subscribers
      ensures Valid() && subscribers == old(subscribers) - {id}
    {
      subscribers := subscribers - {id};
    }

    method History(limit: int) returns (events: seq<Event>)
      requires Valid()
      ensures events == Recent(Ring(historySize, published), limit)
    {
      var n := if limit <= 0 || limit > |history| then |history| else limit;
      events := history[|history| - n..];
    }
  }

  // ---------- What publication fills in ----------

  /** The number that a string of decimal digits denotes. */
  function ValueOf(digits: string): int {
    if digits == "" then 0
    else ValueOf(digits[..|digits| - 1]) * 10 + (digits[|digits| - 1] as int - '0' as int)
  }

  lemma {:induction false} DecimalReadsBack(n: nat)
    ensures Decimal(n) != "" && ValueOf(Decimal(n)) == n
    ensures forall c :: c in Decimal(n) ==> '0' <= c <= '9'
  {
    var s := Decimal(n);
    if n < 10 {
      assert s[..0] == "";
    } else {
      DecimalReadsBack(n / 10);
      assert s[..|s| - 1] == Decimal(n / 10);
    }
  }

  /** Publication changes nothing that was set: it dates an undated event and gives an event
      without an id one, a different one to each number. */
  lemma CompletedFillsIn(e: Event, n: nat, now: int)
    ensures var d := Completed(e, n, now);
            && d.kind == e.kind && d.sandboxId == e.sandboxId && d.data == e.data
            && d.stamp == (if e.stamp == 0 then now else e.stamp)
            && (e.id != "" ==> d.id == e.id)
            && (e.id == "" ==> "evt-" <= d.id && ValueOf(d.id[4..]) == n)
  {
    DecimalReadsBack(n);
  }

  lemma GeneratedIdsDiffer(e: Event, n: nat, now: int, e': Event, n': nat, now': int)
    requires e.id == "" == e'.id && n != n'
    ensures Completed(e, n, now).id != Completed(e', n', now').id
  {
    CompletedFillsIn(e, n, now);
    CompletedFillsIn(e', n', now');
  }

  // ---------- Which event is where ----------

  lemma ModIs(a: int, s: nat, q: int, r: int)
    requires s > 0 && 0 <= r < s && a == q * s + r
    ensures a % s == r
  {
    var k := q - a / s;
    assert a == s * (a / s) + a % s;
    assert k * s == a % s - r;
  }

  lemma ModShift(a: nat, s: nat)
    requires s > 0
    ensures (a + 1) % s == if a % s + 1 == s then 0 else a % s + 1
  {
    var q, r := a / s, a % s;
    if r + 1 == s {
      ModIs(a + 1, s, q + 1, 0);
    } else {
      ModIs(a + 1, s, q, r + 1);
    }
  }

  /** The newest number up to n that is congruent to j. */
  function Newest(size: nat, n: nat, j: nat): nat
    requires j < size <= n
  {
    n - (n - j) % size
  }

  /** The (one-based) number of the event in slot j of a full ring after n events: numbers
      past the size land on their residue, and a slot not yet reached again still holds the
      event that was appended there, which is one more than its index. */
  function NumberAt(size: nat, n: nat, j: nat): nat
    requires j < size
  {
    if n <= size then j + 1 else if Newest(size, n, j) > size then Newest(size, n, j) else j + 1
  }

  lemma NumberAtNext(size: nat, n: nat, j: nat)
    requires size > 0 && j < size <= n
    ensures NumberAt(size, n + 1, j) == if j == (n + 1) % size then n + 1 else NumberAt(size, n, j)
  {
    ModShift(n - j, size);
    var r := (n - j) % size;
    if r + 1 == size {
      assert n + 1 == (n - j) / size * size + size + j by {
        assert n - j == size * ((n - j) / size) + r;
      }
      ModIs(n + 1, size, (n - j) / size + 1, j);
    } else {
      if j == (n + 1) % size {
        SameResidue(n + 1, j, size);
      }
    }
  }

  lemma SameResidue(a: nat, j: nat, s: nat)
    requires s > 0 && j < s && j <= a && a % s == j
    ensures (a - j) % s == 0
  {
    ModIs(a - j, s, a / s, 0);
  }

  /** Every slot holds the event with its number. */
  lemma {:induction false} RingHolds(size: nat, events: seq<Event>, j: nat)
    requires size > 0 && j < |Ring(size, events)|
    ensures 1 <= NumberAt(size, |events|, j) <= |events|
    ensures Ring(size, events)[j] == events[NumberAt(size, |events|, j) - 1]
  {
    var n := |events| - 1;
    var front := events[..n];
    if n < size {
      if j < n {
        RingHolds(size, front, j);
      }
    } else {
      RingHolds(size, front, j);
      NumberAtNext(size, n, j);
    }
  }

  // ---------- What History shows ----------

  /** Without a positive limit, or with one too large, History is the whole ring. */
  lemma HistoryWithoutLimit(history: seq<Event>, limit: int)
    requires limit <= 0 || limit >= |history|
    ensures Recent(history, limit) == history
  {
  }

  /** Until the ring wraps, History(limit) is the last `limit` events in order. */
  lemma {:induction false} HistoryBeforeWrap(size: nat, events: seq<Event>, limit: nat)
    requires size > 0 && 0 < limit <= |events| <= size
    ensures Recent(Ring(size, events), limit) == events[|events| - limit..]
  {
    assert Ring(size, events) == events by {
      forall j | 0 <= j < |events| ensures Ring(size, events)[j] == events[j] {
        RingHolds(size, events, j);
      }
    }
  }

  /** The slot in which a recent enough event sits. */
  function SlotOf(size: nat, k: nat): nat
    requires size > 0 && k > 0
  {
    if k > size then k % size else k - 1
  }

  lemma KeptLate(size: nat, n: nat, k: nat)
    requires size > 0 && size < k <= n && n - k < size
    ensures k % size < size && NumberAt(size, n, k % size) == k
  {
    var q, j := k / size, k % size;
    assert k == size * q + j;
    ModIs(n - j, size, q, n - k);
  }

  lemma KeptEarly(size: nat, n: nat, k: nat)
    requires size > 0 && 0 < k <= size < n && n - k + 2 <= size
    ensures NumberAt(size, n, k - 1) == k
  {
    ModIs(n - (k - 1), size, 0, n - (k - 1));
  }

  /** After the wrap the ring holds every one of the last size - 1 events. */
  lemma LastEventsAreKept(size: nat, events: seq<Event>, k: nat)
    requires size > 0 && |events| > size && |events| - size + 2 <= k <= |events|
    ensures SlotOf(size, k) < size && Ring(size, events)[SlotOf(size, k)] == events[k - 1]
  {
    if k > size {
      KeptLate(size, |events|, k);
    } else {
      KeptEarly(size, |events|, k);
    }
    RingHolds(size, events, SlotOf(size, k));
  }

  /** From twice the size on it holds exactly the last size events, each at its number
      modulo the size. */
  lemma FullyWrapped(size: nat, events: seq<Event>, j: nat)
    requires size > 0 && |events| >= 2 * size && j < size
    ensures var k := Newest(size, |events|, j);
            |events| - size < k <= |events| && k % size == j && Ring(size, events)[j] == events[k - 1]
  {
    var n := |events|;
    RingHolds(size, events, j);
    var q := (n - j) / size;
    assert n - j == size * q + (n - j) % size;
    ModIs(Newest(size, n, j), size, q, j);
  }

  ghost predicate Distinct(events: seq<Event>) {
    forall i, j :: 0 <= i < j < |events| ==> events[i] != events[j]
  }

  /** Whether History(limit) can be the last `limit` events after n publications. */
  predicate InOrder(size: nat, n: nat, limit: nat)
    requires size > 0
  {
    n <= size || ((n + 1) % size == 0 && (n >= 2 * size || limit < size))
  }

  lemma NumberWhenAligned(size: nat, n: nat, limit: nat, j: nat)
    requires size > 0 && n > size && InOrder(size, n, limit) && 0 < limit <= size && size - limit <= j < size
    ensures NumberAt(size, n, j) == n - size + 1 + j
  {
    var q := (n + 1) / size;
    assert n + 1 == size * q;
    assert n - j == (q - 1) * size + (size - 1 - j);
    ModIs(n - j, size, q - 1, size - 1 - j);
    if n < 2 * size {
      assert q == 2 by {
        assert size * q <= 2 * size;
        assert size * q > size;
      }
    }
  }

  lemma NumberWhenMisaligned(size: nat, n: nat, limit: nat)
    requires size > 0 && n > size && !InOrder(size, n, limit) && 0 < limit <= size
    ensures NumberAt(size, n, size - 1) != n || (limit == size && NumberAt(size, n, 0) != n - size + 1)
  {
    if (n + 1) % size != 0 {
      ModShift(n - size + 1, size);
      if (n - size + 1) % size == 0 {
        var q := (n - size + 1) / size;
        ModIs(n + 1, size, q + 1, 0);
      }
    } else {
      var q := (n + 1) / size;
      assert n + 1 == size * q;
      assert q == 2 by {
        assert size * q <= 2 * size;
        assert size * q > size;
      }
      ModIs(n, size, 1, size - 1);
    }
  }

  lemma HistoryWhenAligned(size: nat, events: seq<Event>, limit: nat)
    requires 0 < size < |events| && 0 < limit <= size && InOrder(size, |events|, limit)
    ensures Recent(Ring(size, events), limit) == events[|events| - limit..]
  {
    var n, ring := |events|, Ring(size, events);
    var shown, wanted := Recent(ring, limit), events[n - limit..];
    forall i | 0 <= i < limit ensures shown[i] == wanted[i] {
      RingHolds(size, events, size - limit + i);
      NumberWhenAligned(size, n, limit, size - limit + i);
    }
  }

  lemma HistoryWhenMisaligned(size: nat, events: seq<Event>, limit: nat)
    requires 0 < size < |events| && 0 < limit <= size && Distinct(events) && !InOrder(size, |events|, limit)
    ensures Recent(Ring(size, events), limit) != events[|events| - limit..]
  {
    var n, ring := |events|, Ring(size, events);
    var shown, wanted := Recent(ring, limit), events[n - limit..];
    NumberWhenMisaligned(size, n, limit);
    RingHolds(size, events, size - 1);
    assert shown[limit - 1] == ring[size - 1] && wanted[limit - 1] == events[n - 1];
    if limit == size {
      RingHolds(size, events, 0);
      assert shown[0] == ring[0] && wanted[0] == events[n - size];
    }
  }

  /** For distinct events, History(limit) is the last `limit` events in order exactly when
      the ring can hold so many and has not wrapped, or the next number is a multiple of the
      size and the slot that keeps the very first event is rewritten or not asked for. */
  lemma HistoryIsRecentIff(size: nat, events: seq<Event>, limit: nat)
    requires size > 0 && Distinct(events) && 0 < limit <= |events|
    ensures Recent(Ring(size, events), limit) == events[|events| - limit..]
       <==> limit <= size && InOrder(size, |events|, limit)
  {
    if limit > size {
      assert |Recent(Ring(size, events), limit)| == size;
    } else if |events| <= size {
      HistoryBeforeWrap(size, events, limit);
    } else if InOrder(size, |events|, limit) {
      HistoryWhenAligned(size, events, limit);
    } else {
      HistoryWhenMisaligned(size, events, limit);
    }
  }

  // ---------- What a subscriber gets ----------

  /** What happens to a subscription: an event is published, or the reader takes one. */
  datatype Happening = Published(event: Event) | Taken

  /** The events in the subscription's channel; it is subscribed with an empty one. */
  function Backlog(h: seq<Happening>): seq<Event> {
    if h == [] then []
    else
      var before := Backlog(h[..|h| - 1]);
      match h[|h| - 1]
      case Published(e) => Offer(before, e)
      case Taken => if before == [] then [] else before[1..]
  }

  /** The events the reader has taken, in order. */
  function Received(h: seq<Happening>): seq<Event> {
    if h == [] then []
    else
      var front := h[..|h| - 1];
      if h[|h| - 1].Taken? && Backlog(front) != [] then Received(front) + [Backlog(front)[0]] else Received(front)
  }

  function EventsOf(h: seq<Happening>): seq<Event> {
    if h == [] then []
    else
      var front := h[..|h| - 1];
      if h[|h| - 1].Published? then EventsOf(front) + [h[|h| - 1].event] else EventsOf(front)
  }

  /** No event was published while the channel was full. */
  predicate AlwaysRoom(h: seq<Happening>) {
    h == [] || (AlwaysRoom(h[..|h| - 1])
                && (h[|h| - 1].Published? ==> |Backlog(h[..|h| - 1])| < 64))
  }

  /** a is b with some elements left out. */
  predicate LeavesOut(a: seq<Event>, b: seq<Event>)
    decreases |b|
  {
    if a == [] then true
    else if b == [] then false
    else
      || (a[|a| - 1] == b[|b| - 1] && LeavesOut(a[..|a| - 1], b[..|b| - 1]))
      || LeavesOut(a, b[..|b| - 1])
  }

  lemma OneMore(a: seq<Event>, b: seq<Event>, e: Event)
    requires LeavesOut(a, b)
    ensures LeavesOut(a, b + [e]) && LeavesOut(a + [e], b + [e])
  {
    assert (b + [e])[..|b|] == b && (a + [e])[..|a|] == a;
  }

  lemma Passed(before: seq<Event>, received: seq<Event>)
    requires before != []
    ensures received + [before[0]] + before[1..] == received + before
  {
  }

  /** A subscriber has received, or still has in its channel, events published since it
      subscribed, in their order; and all of them if and only if none was published while 64
      were waiting. */
  lemma {:induction false} SubscriberMissesNothingIff(h: seq<Happening>)
    ensures var got, all := Received(h) + Backlog(h), EventsOf(h);
            && LeavesOut(got, all) && |got| <= |all|
            && (got == all <==> AlwaysRoom(h)) && (|got| == |all| ==> AlwaysRoom(h))
  {
    if h != [] {
      var front, last := h[..|h| - 1], h[|h| - 1];
      SubscriberMissesNothingIff(front);
      var received, before, all := Received(front), Backlog(front), EventsOf(front);
      if last.Taken? {
        if before != [] {
          Passed(before, received);
        }
      } else {
        OneMore(received + before, all, last.event);
        assert received + (before + [last.event]) == received + before + [last.event];
      }
    }
  }
}
