/** What each message does to the polling sub-machine, told apart from the handlers, and what becomes of the
    items of a session over runs of the device (device.cpp:1914-2126). */
module PollLaws {
  import opened Basics
  import opened DeviceData
  import opened PollMachine
  import B = BindingMachine
  import M = DeviceMachine
  import R = DeviceRuns

  // ----- One message -----

  /** The ZCL response belongs to the read in flight. */
  predicate IsAnswer(p: Machine, m: Message)
  {
    m.Ev? && m.event.EvZclResponse? && m.event.clusterId == p.read.clusterId
    && (p.read.ignoreSequence || m.event.sequenceNumber == p.read.sequenceNumber)
  }

  /** No answer came in time, or the read request was not delivered. */
  predicate IsFailure(p: Machine, m: Message)
  {
    m.Timeout? || m == Ev(EvApsConfirm(p.read.apsReqId, false))
  }

  /** The stack without its top item. */
  function Below(items: seq<PollItem>): seq<PollItem>
    requires items != []
  {
    items[..|items| - 1]
  }

  function Top(items: seq<PollItem>): PollItem
    requires items != []
  {
    items[|items| - 1]
  }

  /** The top item has failed once more; the third time it is given up. */
  function AfterFailure(items: seq<PollItem>): seq<PollItem>
    requires items != []
  {
    if Top(items).retry >= 2 then Below(items) else Below(items) + [PollItem(Top(items).item, Top(items).retry + 1)]
  }

  /** The machine goes on with the next item. */
  predicate GoesOn(p: Machine, items: seq<PollItem>, flags: Flags, o: Out)
  {
    o == Out(p.(state := PollNext, lock := true, timer := false, items := items), flags, true, None, false)
  }

  /** While a read is in flight its answer takes the item off the stack, a failure counts against it, a
      successful confirm starts the wait for the answer, and nothing else matters. */
  lemma BusyLaw(p: Machine, m: Message, flags: Flags, env: Env)
    requires p.state.PollBusy? && !m.Enter? && p.items != []
    ensures var o := On(p, m, flags, env);
      && (IsAnswer(p, m) ==> GoesOn(p, Below(p.items), flags, o))
      && (IsFailure(p, m) ==> GoesOn(p, AfterFailure(p.items), flags, o))
      && (m == Ev(EvApsConfirm(p.read.apsReqId, true)) ==> o == Out(p.(timer := true), flags, false, None, true))
      && (!IsAnswer(p, m) && !IsFailure(p, m) && m != Ev(EvApsConfirm(p.read.apsReqId, true)) ==>
            o == Out(p, flags, false, None, false))
  {
    var top := |p.items| - 1;
    if p.items[top].retry < 2 {
      assert p.items[top := p.items[top].(retry := p.items[top].retry + 1)] == AfterFailure(p.items);
    }
  }

  lemma BusyEnterLaw(p: Machine, flags: Flags, env: Env)
    requires p.state.PollBusy?
    ensures On(p, Enter(Level2), flags, env) == Out(p.(timer := true), flags, false, None, false)
  {
  }

  /** The session is over: DeviceTick may proceed. */
  predicate IsDone(p: Machine, o: Out)
  {
    o.p.state.PollIdle? && o.p.lock && !o.p.timer && o.enter && o.emits == Some(EvPollDone)
  }

  /** One more attempt for the top item. */
  function Tried(h: History, top: nat): History
  {
    if top < |h.tries| then h.(tries := h.tries[top := h.tries[top] + 1]) else h
  }

  /** PollNext acts on its StateEnter and on its own timer: nothing to do for an unreachable device or an empty
      stack, an item without a read function is dropped, a read that is taken is awaited, one that is not
      counts as a failure. */
  lemma NextLaw(p: Machine, m: Message, flags: Flags, env: Env)
    requires p.state.PollNext? && (m == Enter(Level2) || m == Timeout(Level2)) && !p.timer
    ensures var o := On(p, m, flags, env);
      if !env.reachable || p.items == [] then IsDone(p, o) && o.p.h == p.h.(finished := p.h.finished + 1)
      else if !env.readFunction then
        o == Out(p.(read := NO_READ, items := Below(p.items), timer := true), flags, false, None, false)
      else if env.read.isEnqueued then
        o == Out(p.(state := PollBusy, lock := true, read := env.read, h := Tried(p.h, |p.items| - 1)),
                 flags, true, None, false)
      else
        o == Out(p.(read := env.read, items := AfterFailure(p.items), timer := true,
                    h := Tried(p.h, |p.items| - 1)), flags, false, None, false)
  {
    if p.items != [] {
      var top := |p.items| - 1;
      if p.items[top].retry < 2 {
        assert p.items[top := p.items[top].(retry := p.items[top].retry + 1)] == AfterFailure(p.items);
      }
    }
  }

  lemma NextEventLaw(p: Machine, e: Event, flags: Flags, env: Env)
    requires p.state.PollNext?
    ensures On(p, Ev(e), flags, env) == Out(p, flags, false, None, false)
  {
  }

  /** The items to poll, none of them tried yet. */
  predicate AreFresh(items: seq<PollItem>, wanted: seq<nat>)
  {
    |items| == |wanted| && forall k :: 0 <= k < |items| ==> items[k] == PollItem(wanted[k], 0)
  }

  /** A poll or an awake starts a session with all the items there are, unless more than four requests are
      unconfirmed or the one-time refresh of the endpoints comes first; with nothing to poll, DeviceTick is
      told at once if it asked. */
  lemma IdleLaw(p: Machine, m: Message, flags: Flags, env: Env)
    requires p.state.PollIdle?
    ensures var o := On(p, m, flags, env);
      var asked := m == Ev(EvPoll) || m == Ev(EvAwake);
      var maintain := flags.needMaintenance && env.jitterDone;
      var flags1 := flags.(needMaintenance := flags.needMaintenance && !env.jitterDone);
      if !asked || env.unconfirmed > 4 then o == Out(p, flags, false, None, false)
      else if maintain && !env.sleeper && env.reachable then
        o == Out(p, flags1.(needReadActive := true, needReadSimple := true, fetchIndex := 0),
                 false, Some(EvZdpReload), false)
      else if env.pollItems == [] then
        o == Out(p.(items := []), flags1, false, if m.event.EvPoll? then Some(EvPollDone) else None, false)
      else
        && o.p.state.PollNext? && o.p.lock && o.enter && o.emits.None? && o.flags == flags1 && !o.stopTimer0
        && AreFresh(o.p.items, env.pollItems)
        && |o.p.h.tries| == |env.pollItems| && (forall k :: 0 <= k < |o.p.h.tries| ==> o.p.h.tries[k] == 0)
        && o.p.h.started == p.h.started + 1
  {
    if m == Ev(EvPoll) || m == Ev(EvAwake) {
      StartLaw(p, flags, env, m.event.EvPoll?);
      StartLaw(p, flags.(needMaintenance := false), env, m.event.EvPoll?);
      hide StartSession, AreFresh;
    }
  }

  /** The start of a session when nothing stands in its way. */
  lemma StartLaw(p: Machine, flags: Flags, env: Env, asked: bool)
    requires p.state.PollIdle?
    ensures var o := StartSession(p, flags, env, asked);
      if env.pollItems == [] then
        o == Out(p.(items := []), flags, false, if asked then Some(EvPollDone) else None, false)
      else
        && o.p.state.PollNext? && o.p.lock && o.enter && o.emits.None? && o.flags == flags && !o.stopTimer0
        && AreFresh(o.p.items, env.pollItems)
        && |o.p.h.tries| == |env.pollItems| && (forall k :: 0 <= k < |o.p.h.tries| ==> o.p.h.tries[k] == 0)
        && o.p.h.started == p.h.started + 1
  {
  }

  // ----- A session in which every read is answered -----

  /** The top item is read: the request is taken, confirmed and answered. */
  function ServeTop(p: Machine, flags: Flags, env: Env): Machine
  {
    var p1 := On(p.(lock := false), Enter(Level2), flags, env).p;
    var p2 := On(p1.(lock := false), Enter(Level2), flags, env).p;
    var p3 := On(p2, Ev(EvApsConfirm(p2.read.apsReqId, true)), flags, env).p;
    On(p3, Ev(EvZclResponse(p3.read.clusterId, p3.read.sequenceNumber, ZCL_SUCCESS)), flags, env).p
  }

  function ServeAll(p: Machine, flags: Flags, env: Env, n: nat): Machine
  {
    if n == 0 then p else ServeTop(ServeAll(p, flags, env, n - 1), flags, env)
  }

  predicate ReadsWork(env: Env) { env.reachable && env.readFunction && env.read.isEnqueued }

  lemma TopIsServed(p: Machine, flags: Flags, env: Env)
    requires p.state.PollNext? && p.lock && !p.timer && p.items != [] && ReadsWork(env)
    ensures ServeTop(p, flags, env) ==
      p.(items := Below(p.items), read := env.read, h := Tried(p.h, |p.items| - 1))
  {
    var p0 := p.(lock := false);
    NextLaw(p0, Enter(Level2), flags, env);
    var p1 := p0.(state := PollBusy, lock := true, read := env.read, h := Tried(p.h, |p.items| - 1));
    BusyEnterLaw(p1.(lock := false), flags, env);
    var p2 := p1.(lock := false, timer := true);
    BusyLaw(p2, Ev(EvApsConfirm(p2.read.apsReqId, true)), flags, env);
    BusyLaw(p2, Ev(EvZclResponse(p2.read.clusterId, p2.read.sequenceNumber, ZCL_SUCCESS)), flags, env);
    assert p2.(timer := true) == p2;
    hide On;
  }

  /** Main result on answered sessions: every item is read exactly once, from the top of the stack down, and
      then the session is done. */
  lemma {:induction false} AnsweredSessionEnds(p: Machine, flags: Flags, env: Env, n: nat)
    requires p.state.PollNext? && p.lock && !p.timer && ReadsWork(env)
    requires n <= |p.items| <= |p.h.tries|
    ensures var r := ServeAll(p, flags, env, n);
      && r.state.PollNext? && r.lock && !r.timer && r.items == p.items[..|p.items| - n]
      && |r.h.tries| == |p.h.tries|
      && (forall k :: 0 <= k < |r.h.tries| ==>
            r.h.tries[k] == p.h.tries[k] + if |p.items| - n <= k < |p.items| then 1 else 0)
      && (n == |p.items| ==> IsDone(r.(lock := false), On(r.(lock := false), Enter(Level2), flags, env)))
  {
    hide On, ServeTop;
    var r := ServeAll(p, flags, env, n);
    if n > 0 {
      var r1 := ServeAll(p, flags, env, n - 1);
      AnsweredSessionEnds(p, flags, env, n - 1);
      TopIsServed(r1, flags, env);
      assert Below(r1.items) == p.items[..|p.items| - n];
      assert r.h == Tried(r1.h, |p.items| - n);
    } else {
      assert p.items[..|p.items|] == p.items;
    }
    hide ServeAll;
    if n == |p.items| {
      NextLaw(r.(lock := false), Enter(Level2), flags, env);
    }
  }

  // ----- What becomes of the items over runs -----

  /** Within a session the stack only shrinks, its items stay in place, and what is off the stack is not tried
      again. */
  ghost predicate Shrinks(p: Machine, q: Machine)
  {
    && p.h.started <= q.h.started
    && (p.h.started == q.h.started ==>
          && |q.items| <= |p.items| && |q.h.tries| == |p.h.tries|
          && (forall k :: 0 <= k < |q.items| ==> q.items[k].item == p.items[k].item)
          && (forall k :: |p.items| <= k < |p.h.tries| ==> q.h.tries[k] == p.h.tries[k]))
  }

  lemma ShrinksOn(p: Machine, q: Machine, r: Machine)
    requires Shrinks(p, q) && Shrinks(q, r)
    ensures Shrinks(p, r)
  {
  }

  /** The message finds the machine as the invariant of all runs has it. */
  ghost predicate Expected(p: Machine, m: Message)
  {
    && (!m.Ev? ==> m.level.Level2? && (!p.timer || !Timed(p.state)))
    && (Timed(p.state) ==> SessionInv(p.state, p.items, p.h.tries))
  }

  lemma OnShrinks(p: Machine, m: Message, flags: Flags, env: Env)
    requires Expected(p, m)
    ensures Shrinks(p, On(p, m, flags, env).p)
  {
    match p.state
    case NoPoll =>
    case PollIdle =>
      IdleLaw(p, m, flags, env);
      hide On;
    case PollNext =>
      if m.Ev? {
        NextEventLaw(p, m.event, flags, env);
      } else {
        NextLaw(p, m, flags, env);
        NextKeepsTries(p, m, flags, env);
      }
      hide On, SessionInv;
    case PollBusy =>
      if m.Enter? {
        BusyEnterLaw(p, flags, env);
      } else {
        BusyLaw(p, m, flags, env);
      }
      hide On, SessionInv;
  }

  /** A session that ends leaves its items and tries behind, at most without the items. */
  lemma NextKeepsTries(p: Machine, m: Message, flags: Flags, env: Env)
    requires p.state.PollNext? && !m.Ev? && m.level.Level2?
    ensures !env.reachable || p.items == [] ==>
      On(p, m, flags, env).p.items == [] && On(p, m, flags, env).p.h.tries == p.h.tries
  {
  }

  /** Level 0 leaves the items alone. */
  ghost predicate SameItems(p: Machine, q: Machine)
  {
    q.items == p.items && q.h.tries == p.h.tries && q.h.started == p.h.started
  }

  lemma SetTopKeepsItems()
    ensures forall s: M.Dev, t: Top :: SameItems(s.p, M.SetTop(s, t).p)
  {
    hide B.SetBind;
  }

  lemma InitKeepsItems(s: M.Dev, m: Message, env: Env)
    ensures SameItems(s.p, M.OnInit(s, m, env).p)
    ensures SameItems(s.p, M.OnNodeDescriptor(s, m, env).p)
  {
    hide M.SetTop;
    SetTopKeepsItems();
  }

  lemma QueriesKeepItems(s: M.Dev, m: Message, env: Env)
    ensures SameItems(s.p, M.OnActiveEndpoints(s, m, env).p)
    ensures SameItems(s.p, M.OnSimpleDescriptor(s, m, env).p) && SameItems(s.p, M.OnBasicCluster(s, m, env).p)
  {
    hide M.SetTop, M.EndpointToFetch, M.NextEndpoint;
    SetTopKeepsItems();
  }

  lemma OnTopKeepsItems(s: M.Dev, m: Message, env: Env)
    requires !s.top.Idle?
    ensures SameItems(s.p, M.OnTop(s, m, env).p)
  {
    InitKeepsItems(s, m, env);
    QueriesKeepItems(s, m, env);
    hide M.OnInit, M.OnNodeDescriptor, M.OnActiveEndpoints, M.OnSimpleDescriptor, M.OnBasicCluster, M.SetTop;
    SetTopKeepsItems();
  }

  lemma EnterIdleKeepsItems(s: M.Dev)
    ensures SameItems(s.p, M.EnterIdle(s).p)
  {
    hide B.SetBind;
  }

  lemma ReloadKeepsItems(s: M.Dev, t: Top)
    ensures SameItems(s.p, M.Reload(s, t).p)
  {
    hide M.SetTop;
    SetTopKeepsItems();
  }

  /** The message that reaches the poll machine in a step, if any does. */
  function Received(s: M.Dev, step: M.Step): Option<Message>
  {
    match step
    case Deliver(_) =>
      if s.urgent != [] then if s.urgent[0].Level2? then Some(Enter(Level2)) else None
      else if s.queue != [] && s.top.Idle? && !s.queue[0].EvDDFReload? && !s.queue[0].EvZdpReload? then
        Some(Ev(s.queue[0]))
      else None
    case Fire(l, _) => if l.Level2? && s.p.timer then Some(Timeout(Level2)) else None
    case _ => None
  }

  /** The poll machine when it gets the message: its StateEnter unlocks it, its timeout finds the timer off. */
  function Receiving(p: Machine, m: Message): Machine
  {
    match m case Enter(_) => p.(lock := false) case Timeout(_) => p.(timer := false) case Ev(_) => p
  }

  function EnvOf(step: M.Step): Option<Env>
  {
    match step case Deliver(env) => Some(env) case Fire(_, env) => Some(env) case _ => None
  }

  /** The items change with the messages that reach the poll machine and with nothing else. */
  lemma StepOfItems(s: M.Dev, step: M.Step)
    requires R.Inv(s)
    ensures var m := Received(s, step); var q := M.Next(s, step).p;
      if m.None? then SameItems(s.p, q)
      else EnvOf(step).Some? && q == On(Receiving(s.p, m.value), m.value, s.flags, EnvOf(step).value).p
  {
    hide B.On, On;
    match step
    case Deliver(env) => DeliverOfItems(s, env);
    case Fire(l, env) =>
      if l.Level0? && s.timer0 {
        OnTopKeepsItems(s.(timer0 := false), Timeout(Level0), env);
        hide M.OnTop;
      }
    case ReloadNow(env) =>
      ReloadKeepsItems(s, Init);
      hide M.Reload;
    case Construct =>
      SetTopKeepsItems();
      hide M.SetTop;
    case Clear => hide B.ClearBindings;
    case _ =>
  }

  lemma DeliverOfItems(s: M.Dev, env: Env)
    requires R.Inv(s)
    ensures var step := M.Deliver(env); var m := Received(s, step); var q := M.Next(s, step).p;
      if m.None? then SameItems(s.p, q)
      else q == On(Receiving(s.p, m.value), m.value, s.flags, env).p
  {
    hide B.On, On;
    if s.urgent != [] {
      if s.urgent[0].Level0? {
        var s1 := s.(urgent := s.urgent[1..], lock0 := false);
        EnterIdleKeepsItems(s1);
        if !s.top.Idle? {
          OnTopKeepsItems(s1, Enter(Level0), env);
          hide M.OnTop;
        }
        hide M.EnterIdle;
      }
    } else if s.queue != [] {
      R.NothingIsLocked(s);
      hide R.Inv;
      EventOfItems(s.(queue := s.queue[1..]), s.queue[0], env);
      hide M.HandleEvent;
    }
  }

  lemma EventOfItems(s: M.Dev, e: Event, env: Env)
    requires !s.lock0 && !s.b.lock && !s.p.lock
    ensures var q := M.HandleEvent(s, e, env).p;
      if s.top.Idle? && !e.EvDDFReload? && !e.EvZdpReload? then q == On(s.p, Ev(e), s.flags, env).p
      else SameItems(s.p, q)
  {
    hide B.On, On;
    ReloadKeepsItems(s, Init);
    ReloadKeepsItems(s, ActiveEndpoints);
    if !s.top.Idle? {
      OnTopKeepsItems(s, Ev(e), env);
      hide M.OnTop;
    }
    hide M.Reload;
  }

  lemma ReceivedIsExpected(s: M.Dev, step: M.Step)
    requires R.Inv(s) && Received(s, step).Some?
    ensures var m := Received(s, step).value; Expected(Receiving(s.p, m), m)
  {
    R.PopUrgent(if s.urgent != [] then s.urgent else [Level2], Level2);
    hide B.On, On, SessionInv;
  }

  lemma StepShrinks(s: M.Dev, step: M.Step)
    requires R.Inv(s)
    ensures Shrinks(s.p, M.Next(s, step).p)
  {
    StepOfItems(s, step);
    var m := Received(s, step);
    if m.Some? {
      ReceivedIsExpected(s, step);
      hide Expected;
      OnShrinks(Receiving(s.p, m.value), m.value, s.flags, EnvOf(step).value);
    }
    hide On, M.Next, R.Inv;
  }

  /** Over runs: what has left the stack, answered or given up, is not tried again in its session. */
  lemma {:induction false} GoneIsNotTriedAgain(steps: seq<M.Step>, more: seq<M.Step>)
    ensures Shrinks(M.Run(steps).p, M.Run(steps + more).p)
  {
    if more == [] {
      assert steps + more == steps;
    } else {
      var front, last := more[..|more| - 1], more[|more| - 1];
      GoneIsNotTriedAgain(steps, front);
      assert (steps + more)[..|steps + more| - 1] == steps + front;
      R.Reachable(steps + front);
      StepShrinks(M.Run(steps + front), last);
      ShrinksOn(M.Run(steps).p, M.Run(steps + front).p, M.Run(steps + more).p);
    }
  }

  /** Why an item leaves the stack: its answer has arrived, it has failed for the third time, it has no read
      function, or the device is unreachable. */
  ghost predicate Leaves(p: Machine, m: Message, env: Env, q: Machine)
    requires p.items != [] && |p.items| <= |p.h.tries|
  {
    var top := |p.items| - 1;
    || (p.state.PollBusy? && IsAnswer(p, m) && q.items == Below(p.items))
    || (p.state.PollBusy? && IsFailure(p, m) && q.items == Below(p.items) && p.h.tries[top] == 3)
    || (p.state.PollNext? && env.reachable && env.readFunction && !env.read.isEnqueued && q.items == Below(p.items)
        && |q.h.tries| > top && q.h.tries[top] == 3)
    || (p.state.PollNext? && env.reachable && !env.readFunction && q.items == Below(p.items))
    || (p.state.PollNext? && !env.reachable)
  }

  lemma LeavesOn(p: Machine, m: Message, flags: Flags, env: Env)
    requires Timed(p.state) && Expected(p, m) && p.items != []
    ensures var q := On(p, m, flags, env).p;
      |q.items| < |p.items| ==> Leaves(p, m, env, q)
  {
    if p.state.PollBusy? {
      if m.Enter? {
        BusyEnterLaw(p, flags, env);
      } else {
        BusyLaw(p, m, flags, env);
      }
    } else if m.Ev? {
      NextEventLaw(p, m.event, flags, env);
    } else {
      NextLaw(p, m, flags, env);
    }
    hide On;
  }

  /** Over runs: an item of a running session leaves the stack for one of these reasons only. */
  lemma ItemsLeaveForAReason(steps: seq<M.Step>, step: M.Step)
    requires var s := M.Run(steps); var r := M.Next(s, step);
      Timed(s.p.state) && |r.p.items| < |s.p.items|
    ensures var s := M.Run(steps); var m := Received(s, step);
      && m.Some? && EnvOf(step).Some? && |s.p.items| <= |s.p.h.tries|
      && Leaves(s.p, m.value, EnvOf(step).value, M.Next(s, step).p)
  {
    var s := M.Run(steps);
    R.Reachable(steps);
    LeavesInStep(s, step);
  }

  lemma LeavesInStep(s: M.Dev, step: M.Step)
    requires R.Inv(s) && Timed(s.p.state) && |M.Next(s, step).p.items| < |s.p.items|
    ensures var m := Received(s, step);
      && m.Some? && EnvOf(step).Some? && |s.p.items| <= |s.p.h.tries|
      && Leaves(s.p, m.value, EnvOf(step).value, M.Next(s, step).p)
  {
    StepOfItems(s, step);
    ReceivedIsExpected(s, step);
    var m := Received(s, step);
    assert |s.p.items| <= |s.p.h.tries|;
    hide On, M.Next, R.Inv, Expected, Received;
    LeavesOn(Receiving(s.p, m.value), m.value, s.flags, EnvOf(step).value);
  }
}
