/** The two event queues every part of the gateway talks through (event_emitter.cpp): urgent events first,
    each queue in order, and no two normal events waiting that say the same. */
module EventEmitters {
  import opened Basics

  datatype Resource = Sensors | Lights | Another(name: nat)

  /** `num` and `dataSize` share memory in the program; a data event's `num` is its buffer slot. */
  datatype Event = Event(resource: Resource, what: nat, id: string, num: int, deviceKey: u64,
                         hasData: bool, dataSize: u16, urgent: bool)

  /** An event to enqueue, and the address of the node its id leads to (0: none). */
  datatype Request = Request(event: Event, node: u64)

  predicate SaysTheSame(e: Event, x: Event)
  {
    && e.deviceKey == x.deviceKey && e.resource == x.resource && e.what == x.what && e.num == x.num && e.id == x.id
    && e.hasData == x.hasData && (e.hasData ==> e.dataSize == x.dataSize)
  }

  predicate Waits(queue: seq<Event>, e: Event)
  {
    exists x :: x in queue && SaysTheSame(e, x)
  }

  /** A sensor or light event without a device key gets that of its node, unless it is urgent. */
  function Attached(q: Request): Event
  {
    if q.event.deviceKey == 0 && !q.event.resource.Another? && q.node > 0 then q.event.(deviceKey := q.node)
    else q.event
  }

  /** What waits in the two queues, what was handed to the handlers so far, and what was ever accepted. */
  datatype State = State(urgent: seq<Event>, normal: seq<Event>, delivered: seq<Event>, accepted: seq<Event>) {
    predicate Pending() { urgent != [] || normal != [] }
  }

  function Enqueue(s: State, q: Request): State
  {
    if q.event.urgent then s.(urgent := s.urgent + [q.event], accepted := s.accepted + [q.event])
    else if Waits(s.normal, Attached(q)) then s
    else s.(normal := s.normal + [Attached(q)], accepted := s.accepted + [Attached(q)])
  }

  function EnqueueAll(s: State, qs: seq<Request>): State
    decreases |qs|
  {
    if qs == [] then s else EnqueueAll(Enqueue(s, qs[0]), qs[1..])
  }

  /** What the handlers enqueue while they handle the k-th event. */
  function Answer(answers: seq<seq<Request>>, k: nat): seq<Request>
  {
    if k < |answers| then answers[k] else []
  }

  function Pop(s: State): State
    requires s.Pending()
  {
    if s.urgent != [] then s.(urgent := s.urgent[1..], delivered := s.delivered + [s.urgent[0]])
    else s.(normal := s.normal[1..], delivered := s.delivered + [s.normal[0]])
  }

  /** One delivery, with everything the handlers enqueue in response. */
  function Deliver(s: State, answers: seq<seq<Request>>): State
    requires s.Pending()
  {
    EnqueueAll(Pop(s), Answer(answers, |s.delivered|))
  }

  function Deliveries(s: State, answers: seq<seq<Request>>, n: nat): State
    decreases n
  {
    if n == 0 || !s.Pending() then s else Deliveries(Deliver(s, answers), answers, n - 1)
  }

  /** What two events must share to say the same: all but the place in the queue and, without data, its size. */
  function Essence(e: Event): Event { e.(urgent := false, dataSize := if e.hasData then e.dataSize else 0) }

  /** A normal event waits in addition to the others unless one of them says the same; an event of a sensor or
      light without a device key speaks for the node its id leads to.  Urgent events always wait. */
  lemma EnqueueLaw(s: State, q: Request)
    ensures var e := q.event;
      var known := e.deviceKey != 0 || q.node == 0 || (e.resource != Sensors && e.resource != Lights);
      var e1 := if known then e else e.(deviceKey := q.node);
      if e.urgent then Enqueue(s, q) == s.(urgent := s.urgent + [e], accepted := s.accepted + [e])
      else if exists k :: 0 <= k < |s.normal| && Essence(s.normal[k]) == Essence(e1) then Enqueue(s, q) == s
      else Enqueue(s, q) == s.(normal := s.normal + [e1], accepted := s.accepted + [e1])
  {
    var e1 := Attached(q);
    if k :| 0 <= k < |s.normal| && Essence(s.normal[k]) == Essence(e1) {
      assert s.normal[k] in s.normal && SaysTheSame(e1, s.normal[k]);
    }
    if x :| x in s.normal && SaysTheSame(e1, x) {
      var k :| 0 <= k < |s.normal| && s.normal[k] == x;
      assert Essence(s.normal[k]) == Essence(e1);
    }
  }

  // ----- Properties of the queues -----

  function Picked(s: seq<Event>, urgent: bool): seq<Event>
  {
    if s == [] then [] else (if s[0].urgent == urgent then [s[0]] else []) + Picked(s[1..], urgent)
  }

  lemma {:induction false} PickedAppend(a: seq<Event>, b: seq<Event>, urgent: bool)
    ensures Picked(a + b, urgent) == Picked(a, urgent) + Picked(b, urgent)
  {
    if a == [] {
      assert a + b == b;
    } else {
      assert (a + b)[1..] == a[1..] + b;
      PickedAppend(a[1..], b, urgent);
      Regroup(if a[0].urgent == urgent then [a[0]] else [], Picked(a[1..], urgent), Picked(b, urgent));
    }
  }

  lemma Regroup(a: seq<Event>, b: seq<Event>, c: seq<Event>)
    ensures (a + b) + c == a + (b + c)
  {
  }

  lemma PickedLast(a: seq<Event>, e: Event)
    ensures Picked(a + [e], true) == if e.urgent then Picked(a, true) + [e] else Picked(a, true)
    ensures Picked(a + [e], false) == if e.urgent then Picked(a, false) else Picked(a, false) + [e]
  {
    PickedAppend(a, [e], true);
    PickedAppend(a, [e], false);
  }

  /** The queues hold what their names say. */
  ghost predicate Sorted(s: State)
  {
    && (forall i :: 0 <= i < |s.urgent| ==> s.urgent[i].urgent)
    && (forall i :: 0 <= i < |s.normal| ==> !s.normal[i].urgent)
  }

  /** Nothing is lost, invented or overtaken within its queue. */
  ghost predicate Ledger(s: State)
  {
    && Picked(s.accepted, true) == Picked(s.delivered, true) + s.urgent
    && Picked(s.accepted, false) == Picked(s.delivered, false) + s.normal
  }

  /** No two waiting normal events say the same. */
  ghost predicate Distinct(queue: seq<Event>)
  {
    forall i, j :: 0 <= i < j < |queue| ==> !SaysTheSame(queue[j], queue[i])
  }

  ghost predicate Inv(s: State)
  {
    Sorted(s) && Ledger(s) && Distinct(s.normal)
  }

  lemma AcceptKeeps(s: State, e: Event)
    requires Ledger(s)
    ensures e.urgent ==> Ledger(s.(urgent := s.urgent + [e], accepted := s.accepted + [e]))
    ensures !e.urgent ==> Ledger(s.(normal := s.normal + [e], accepted := s.accepted + [e]))
  {
    PickedLast(s.accepted, e);
    if e.urgent {
      Regroup(Picked(s.delivered, true), s.urgent, [e]);
    } else {
      Regroup(Picked(s.delivered, false), s.normal, [e]);
    }
  }

  lemma DistinctGrows(queue: seq<Event>, e: Event)
    requires Distinct(queue) && !Waits(queue, e)
    ensures Distinct(queue + [e])
  {
    forall i, j | 0 <= i < j < |queue| + 1
      ensures !SaysTheSame((queue + [e])[j], (queue + [e])[i])
    {
      assert i < |queue| && (queue + [e])[i] == queue[i] && queue[i] in queue;
    }
  }

  lemma EnqueueKeeps(s: State, q: Request)
    requires Inv(s)
    ensures Inv(Enqueue(s, q))
    ensures if q.event.urgent then q.event in Enqueue(s, q).urgent else Waits(Enqueue(s, q).normal, Attached(q))
  {
    var e := Attached(q);
    if q.event.urgent {
      AcceptKeeps(s, q.event);
    } else if !Waits(s.normal, e) {
      AcceptKeeps(s, e);
      DistinctGrows(s.normal, e);
      assert e in s.normal + [e] && SaysTheSame(e, e);
    }
  }

  lemma {:induction false} EnqueueAllKeeps(s: State, qs: seq<Request>)
    requires Inv(s)
    ensures Inv(EnqueueAll(s, qs))
    decreases |qs|
  {
    if qs != [] {
      EnqueueKeeps(s, qs[0]);
      EnqueueAllKeeps(Enqueue(s, qs[0]), qs[1..]);
    }
  }

  lemma {:induction false} EnqueueAllGrows(s: State, qs: seq<Request>)
    ensures EnqueueAll(s, qs).delivered == s.delivered && s.urgent <= EnqueueAll(s, qs).urgent
    decreases |qs|
  {
    if qs != [] {
      EnqueueAllGrows(Enqueue(s, qs[0]), qs[1..]);
    }
  }

  lemma DeliverKeeps(s: State, answers: seq<seq<Request>>)
    requires Inv(s) && s.Pending()
    ensures Inv(Deliver(s, answers))
  {
    PopKeeps(s);
    EnqueueAllKeeps(Pop(s), Answer(answers, |s.delivered|));
  }

  lemma PopKeeps(s: State)
    requires Inv(s) && s.Pending()
    ensures Inv(Pop(s))
  {
    if s.urgent != [] {
      HandOver(s.delivered, s.urgent, true);
    } else {
      HandOver(s.delivered, s.normal, false);
    }
  }

  lemma HandOver(delivered: seq<Event>, queue: seq<Event>, urgent: bool)
    requires queue != [] && queue[0].urgent == urgent
    ensures Picked(delivered + [queue[0]], urgent) + queue[1..] == Picked(delivered, urgent) + queue
    ensures Picked(delivered + [queue[0]], !urgent) == Picked(delivered, !urgent)
  {
    PickedLast(delivered, queue[0]);
    Regroup(Picked(delivered, urgent), [queue[0]], queue[1..]);
    assert [queue[0]] + queue[1..] == queue;
  }

  /** Main result, conservation: over any number of deliveries, whatever the handlers enqueue meanwhile. */
  lemma {:induction false} DeliveriesKeep(s: State, answers: seq<seq<Request>>, n: nat)
    requires Inv(s)
    ensures Inv(Deliveries(s, answers, n))
    decreases n
  {
    if n > 0 && s.Pending() {
      DeliverKeeps(s, answers);
      DeliveriesKeep(Deliver(s, answers), answers, n - 1);
    }
  }

  /** Main result, priority: the urgent events that wait are the next ones delivered, in their order,
      whatever the handlers enqueue meanwhile; no normal event comes in between. */
  lemma {:induction false} UrgentFirst(s: State, answers: seq<seq<Request>>, n: nat)
    requires n <= |s.urgent|
    ensures Deliveries(s, answers, n).delivered == s.delivered + s.urgent[..n]
    decreases n
  {
    if n > 0 {
      EnqueueAllGrows(Pop(s), Answer(answers, |s.delivered|));
      var s1 := Deliver(s, answers);
      UrgentFirst(s1, answers, n - 1);
      FirstAndRest(s.urgent, s1.urgent, n);
      Regroup(s.delivered, [s.urgent[0]], s1.urgent[..n - 1]);
    }
  }

  lemma FirstAndRest(a: seq<Event>, b: seq<Event>, n: nat)
    requires 0 < n <= |a| && a[1..] <= b
    ensures [a[0]] + b[..n - 1] == a[..n]
  {
    assert b[..|a| - 1] == a[1..];
  }

  lemma {:induction false} OneMore(s: State, answers: seq<seq<Request>>, n: nat)
    requires Deliveries(s, answers, n).Pending()
    ensures Deliveries(s, answers, n + 1) == Deliver(Deliveries(s, answers, n), answers)
    decreases n
  {
    if n > 0 && s.Pending() {
      OneMore(Deliver(s, answers), answers, n - 1);
    }
  }

  lemma {:induction false} Together(s: State, answers: seq<seq<Request>>, n: nat, m: nat)
    ensures Deliveries(Deliveries(s, answers, n), answers, m) == Deliveries(s, answers, n + m)
    decreases n
  {
    if n > 0 && s.Pending() {
      Together(Deliver(s, answers), answers, n - 1, m);
    }
  }

  // ----- The object -----

  /** isDuplicate */
  method IsDuplicate(pos: nat, queue: seq<Event>, e: Event) returns (duplicate: bool)
    requires pos <= |queue|
    ensures duplicate <==> Waits(queue[pos..], e)
  {
    for i := pos to |queue|
      invariant forall k :: pos <= k < i ==> !SaysTheSame(e, queue[k])
    {
      if SaysTheSame(e, queue[i]) {
        assert queue[i] in queue[pos..];
        return true;
      }
    }
    duplicate := false;
    forall x | x in queue[pos..]
      ensures !SaysTheSame(e, x)
    {
      var k :| 0 <= k < |queue[pos..]| && queue[pos..][k] == x;
      assert x == queue[pos + k];
    }
  }

  class EventEmitter {
    var pos: nat
    var queue: seq<Event>
    var urgentQueue: seq<Event>
    var timerActive: bool
    var delivered: seq<Event>     // what the handlers received
    ghost var accepted: seq<Event>

    ghost predicate Valid()
      reads this
    {
      pos <= |queue|
    }

    /** The queues from the i-th urgent event on. */
    ghost function From(i: nat): State
      requires Valid() && i <= |urgentQueue|
      reads this
    {
      State(urgentQueue[i..], queue[pos..], delivered, accepted)
    }

    /** Between calls no delivered event is left in a queue. */
    ghost predicate Tidy()
      reads this
    {
      pos < |queue| || (pos == 0 && queue == [])
    }

    constructor ()
      ensures Valid() && Tidy() && From(0) == State([], [], [], []) && Inv(From(0)) && !timerActive
    {
      pos, queue, urgentQueue, timerActive := 0, [], [], false;
      delivered, accepted := [], [];
    }

    method EnqueueEvent(q: Request, ghost i: nat)
      requires Valid() && i <= |urgentQueue|
      modifies this
      ensures Valid() && i <= |urgentQueue| && From(i) == Enqueue(old(From(i)), q)
      ensures timerActive && pos == old(pos) && old(queue) <= queue && old(urgentQueue) <= urgentQueue
    {
      var event := q.event;
      var node: u64 := 0;
      if event.deviceKey == 0 && (event.resource == Sensors || event.resource == Lights) {
        node := q.node;
      }
      if event.urgent {
        urgentQueue := urgentQueue + [event];
        accepted := accepted + [event];
      } else {
        if node > 0 {
          event := event.(deviceKey := node);
        }
        var duplicate := IsDuplicate(pos, queue, event);
        if !duplicate {
          queue := queue + [event];
          accepted := accepted + [event];
        }
      }
      timerActive := true;
    }

    /** The handlers receive the event and enqueue their answer. */
    method EventNotify(ev: Event, answer: seq<Request>, ghost i: nat)
      requires Valid() && i <= |urgentQueue|
      modifies this
      ensures Valid() && i <= |urgentQueue|
      ensures From(i) == EnqueueAll(old(From(i)).(delivered := old(delivered) + [ev]), answer)
      ensures pos == old(pos) && old(queue) <= queue && old(urgentQueue) <= urgentQueue
      ensures delivered == old(delivered) + [ev]
      ensures if answer == [] then queue == old(queue) && urgentQueue == old(urgentQueue) &&
          timerActive == old(timerActive)
        else timerActive
    {
      delivered := delivered + [ev];
      ghost var start := From(i);
      for k := 0 to |answer|
        invariant Valid() && i <= |urgentQueue|
        invariant EnqueueAll(From(i), answer[k..]) == EnqueueAll(start, answer)
        invariant pos == old(pos) && old(queue) <= queue && old(urgentQueue) <= urgentQueue
        invariant k > 0 ==> timerActive
        invariant k == 0 ==> queue == old(queue) && urgentQueue == old(urgentQueue) && timerActive == old(timerActive)
        invariant delivered == old(delivered) + [ev]
      {
        EnqueueEvent(answer[k], i);
      }
    }
  
    /** The inner loop: urgent events, and those that arrive meanwhile, until none is left. */
    method DrainUrgent(answers: seq<seq<Request>>) returns (ghost n: nat)
      requires Valid()
      modifies this
      ensures Valid() && urgentQueue == [] && From(0) == Deliveries(old(From(0)), answers, n)
      ensures |old(urgentQueue)| <= n && pos == old(pos) && old(queue) <= queue
      ensures old(urgentQueue) == [] ==> n == 0 && queue == old(queue) && timerActive == old(timerActive)
    {
      n := 0;
      var i := 0;
      assert urgentQueue[0..] == urgentQueue;
      while i < |urgentQueue|
        invariant Valid() && i <= |urgentQueue| && n == i && |old(urgentQueue)| <= |urgentQueue|
        invariant From(i) == Deliveries(old(From(0)), answers, n)
        invariant pos == old(pos) && old(queue) <= queue
        invariant old(urgentQueue) == [] ==> i == 0
        invariant i == 0 ==> urgentQueue == old(urgentQueue) && queue == old(queue) && timerActive == old(timerActive)
        decreases if |delivered| < |answers| then |answers| - |delivered| else 0, |urgentQueue| - i
      {
        ghost var before := From(i);
        var ev := urgentQueue[i];
        OneMore(old(From(0)), answers, n);
        assert urgentQueue[i + 1..] == urgentQueue[i..][1..];
        EventNotify(ev, Answer(answers, |delivered|), i + 1);
        i, n := i + 1, n + 1;
        assert From(i) == Deliver(before, answers);
      }
      assert urgentQueue[i..] == [];
      urgentQueue := [];
    }

    /** The next normal event, if there is one. */
    method DeliverNormal(answers: seq<seq<Request>>) returns (ghost n: nat)
      requires Valid() && urgentQueue == [] && (pos == 0 || pos < |queue|)
      modifies this
      ensures Valid() && Tidy() && From(0) == Deliveries(old(From(0)), answers, n)
      ensures urgentQueue != [] ==> timerActive
      ensures n == if old(pos < |queue|) then 1 else 0
    {
      n := 0;
      if pos < |queue| {
        ghost var before := From(0);
        var ev := queue[pos];
        pos := pos + 1;
        assert queue[pos..] == queue[pos - 1..][1..];
        EventNotify(ev, Answer(answers, |delivered|), 0);
        n := 1;
        assert From(0) == Deliver(before, answers) == Deliveries(Deliver(before, answers), answers, 0);
        if pos == |queue| {
          queue, pos := [], 0;
        }
      }
    }

    /** EventEmitter::process; `rounds` is how often the clock finds less than 10 ms gone. */
    method Process(answers: seq<seq<Request>>, rounds: nat) returns (ghost n: nat)
      requires Valid() && Tidy()
      modifies this
      ensures Valid() && Tidy() && From(0) == Deliveries(old(From(0)), answers, n)
      ensures rounds == 0 ==>
          n == 0 && queue == old(queue) && urgentQueue == old(urgentQueue) && timerActive == old(timerActive)
      ensures rounds > 0 ==> |old(urgentQueue)| <= n && (urgentQueue != [] ==> timerActive)
      ensures rounds > 0 && old(From(0)).Pending() ==> 0 < n
    {
      n := 0;
      ghost var start := From(0);
      var left := rounds;
      while left > 0 && (|urgentQueue| > 0 || |queue| > 0)
        invariant Valid() && Tidy() && 0 <= left <= rounds
        invariant From(0) == Deliveries(start, answers, n)
        invariant left == rounds ==>
          n == 0 && queue == old(queue) && urgentQueue == old(urgentQueue) && timerActive == old(timerActive)
        invariant left < rounds ==> |old(urgentQueue)| <= n && 0 < n && (urgentQueue != [] ==> timerActive)
      {
        left := left - 1;
        ghost var m := DrainUrgent(answers);
        Together(start, answers, n, m);
        ghost var k := DeliverNormal(answers);
        Together(start, answers, n + m, k);
        n := n + m + k;
      }
    }

    /** EventEmitter::timerFired. Nothing that waits is forgotten: afterwards the timer runs whenever an
        event is pending, except when the clock allowed no round at all and only urgent events wait. */
    method TimerFired(answers: seq<seq<Request>>, rounds: nat) returns (ghost n: nat)
      requires Valid() && Tidy()
      modifies this
      ensures Valid() && Tidy() && From(0) == Deliveries(old(From(0)), answers, n)
      ensures rounds > 0 ==> |old(urgentQueue)| <= n
      ensures From(0).Pending() && !timerActive <==> rounds == 0 && old(queue) == [] && old(urgentQueue) != []
    {
      timerActive := false;
      n := Process(answers, rounds);
      if queue != [] && !timerActive {
        timerActive := true;
      }
    }
  }
}
