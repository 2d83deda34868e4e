/** Level 2 of the device supervisor: polling of resource items (device.cpp:1914-2126).

    The session is a stack of items; history variables record every attempt and every session. */
module PollMachine {
  import opened Basics
  import opened DeviceData

  datatype PollItem = PollItem(item: nat, retry: nat)

  /** History: what the sessions did.  No handler reads it. */
  datatype History = History(
    tries: seq<nat>,      // read attempts per item of the current session, in stack order
    started: nat, finished: nat, aborted: nat,
    fault: bool)          // a failed assertion

  datatype Machine = Machine(state: Poll, lock: bool, timer: bool, read: ReadResult, items: seq<PollItem>, h: History)

  /** The machine after a handler, the device flags, and what the handler asked for: a StateEnter of
      level 2, an event for the normal queue, the level 0 timer to be stopped. */
  datatype Out = Out(p: Machine, flags: Flags, enter: bool, emits: Option<Event>, stopTimer0: bool)

  function Stay(p: Machine, flags: Flags): Out { Out(p, flags, false, None, false) }

  predicate Timed(s: Poll) { s.PollNext? || s.PollBusy? }

  /** setState for level 2. */
  function SetPoll(p: Machine, flags: Flags, s: Poll): Out
  {
    if p.state == s then Stay(p, flags)
    else
      var left := p.(state := s, timer := p.timer && !Timed(p.state), lock := !s.NoPoll?);
      Out(if s.NoPoll? && Timed(p.state) then left.(h := p.h.(aborted := p.h.aborted + 1)) else left, flags,
          !s.NoPoll?, None, false)
  }

  function FreshItems(items: seq<nat>): seq<PollItem>
  {
    seq(|items|, k requires 0 <= k < |items| => PollItem(items[k], 0))
  }

  function Zeros(n: nat): seq<nat> { seq(n, _ => 0) }

  /** Collect the items to poll; an empty session asked for by DeviceTick is done at once. */
  function StartSession(p: Machine, flags: Flags, env: Env, asked: bool): Out
  {
    if env.pollItems != [] then
      SetPoll(p.(items := FreshItems(env.pollItems),
                 h := p.h.(tries := Zeros(|env.pollItems|), started := p.h.started + 1)), flags, PollNext)
    else Out(p.(items := []), flags, false, if asked then Some(EvPollDone) else None, false)
  }

  function OnPollIdle(p: Machine, m: Message, flags: Flags, env: Env): Out
  {
    if !(m.Ev? && m.event in {EvPoll, EvAwake}) || env.unconfirmed > MAX_UNCONFIRMED then Stay(p, flags) else
    var maintain := flags.needMaintenance && env.jitterDone;
    var flags1 := if maintain then flags.(needMaintenance := false) else flags;
    if maintain && !env.sleeper && env.reachable then
      Out(p, flags1.(needReadActive := true, needReadSimple := true, fetchIndex := 0), false, Some(EvZdpReload), false)
    else StartSession(p, flags1, env, m.event.EvPoll?)
  }

  /** One more attempt for the top item. */
  function CountTry(p: Machine): Machine
  {
    var top := |p.items| - 1;
    if 0 <= top < |p.h.tries| then p.(h := p.h.(tries := p.h.tries[top := p.h.tries[top] + 1])) else p
  }

  function DropTop(items: seq<PollItem>): seq<PollItem>
  {
    if items == [] then [] else items[..|items| - 1]
  }

  /** checkPollItemRetry */
  function RetryTop(items: seq<PollItem>): seq<PollItem>
  {
    if items == [] then [] else
    var top := |items| - 1;
    var retry := items[top].retry + 1;
    if retry >= MAX_POLL_RETRIES then items[..top] else items[top := items[top].(retry := retry)]
  }

  /** Nothing left to poll: back to PollIdle, and let DeviceTick proceed. */
  function FinishSession(p: Machine, flags: Flags): Out
  {
    SetPoll(p.(h := p.h.(finished := p.h.finished + 1)), flags, PollIdle).(emits := Some(EvPollDone))
  }

  /** Call the read function of the top item. */
  function ReadTop(p: Machine, flags: Flags, env: Env): Out
  {
    var p1 := CountTry(p.(read := env.read));
    if env.read.isEnqueued then SetPoll(p1, flags, PollBusy)
    else Stay(p1.(items := RetryTop(p1.items), timer := true), flags)
  }

  function OnPollNext(p: Machine, m: Message, flags: Flags, env: Env): Out
  {
    if m.Ev? then Stay(p, flags) else
    var p0 := if m.level.Level2? then p else p.(h := p.h.(fault := true));
    var p1 := if env.reachable then p0 else p0.(items := []);
    if p1.items == [] then FinishSession(p1, flags)
    else if !env.readFunction then Stay(p1.(read := NO_READ, items := DropTop(p1.items), timer := true), flags)
    else ReadTop(p1, flags, env)
  }

  function OnPollBusy(p: Machine, m: Message, flags: Flags): Out
  {
    if m.Enter? then Stay(p.(timer := true), flags)
    else if m.Timeout? then SetPoll(p.(items := RetryTop(p.items)), flags, PollNext)
    else if m.event.EvApsConfirm? && m.event.apsReqId == p.read.apsReqId then
      if m.event.confirmed then Out(p.(timer := true), flags, false, None, true)
      else SetPoll(p.(items := RetryTop(p.items)), flags, PollNext)
    else if m.event.EvZclResponse? && m.event.clusterId == p.read.clusterId
            && (m.event.sequenceNumber == p.read.sequenceNumber || p.read.ignoreSequence) then
      SetPoll(p.(items := DropTop(p.items), h := p.h.(fault := p.h.fault || p.items == [])), flags, PollNext)
    else Stay(p, flags)
  }

  function On(p: Machine, m: Message, flags: Flags, env: Env): Out
  {
    match p.state
    case NoPoll => Stay(p, flags)
    case PollIdle => OnPollIdle(p, m, flags, env)
    case PollNext => OnPollNext(p, m, flags, env)
    case PollBusy => OnPollBusy(p, m, flags)
  }

  const START := Machine(NoPoll, false, false, NO_READ, [], History([], 0, 0, 0, false))

  // ----- What every message keeps -----

  /** Only the top item may have an attempt in flight. */
  ghost predicate SessionInv(s: Poll, items: seq<PollItem>, tries: seq<nat>)
  {
    var n := |items|;
    && n <= |tries|
    && (s.PollBusy? ==> n > 0)
    && (forall k :: 0 <= k < n ==> items[k].retry < MAX_POLL_RETRIES)
    && (forall k :: 0 <= k < n ==> tries[k] == items[k].retry + if s.PollBusy? && k == n - 1 then 1 else 0)
  }

  ghost predicate PollInv(p: Machine, pending: nat)
  {
    && !p.h.fault
    && (p.lock ==> pending > 0 && !p.state.NoPoll?)
    && (!p.state.NoPoll? ==> pending == if p.lock then 1 else 0)
    && (p.timer ==> !p.lock && Timed(p.state))
    && p.h.started == p.h.finished + p.h.aborted + (if Timed(p.state) then 1 else 0)
    && (forall k :: 0 <= k < |p.h.tries| ==> p.h.tries[k] <= MAX_POLL_RETRIES)
    && (Timed(p.state) ==> SessionInv(p.state, p.items, p.h.tries))
  }

  ghost predicate Alive(p: Machine) { Timed(p.state) ==> p.lock || p.timer }

  ghost predicate Kept(o: Out, pending: nat)
  {
    !o.p.state.NoPoll? && PollInv(o.p, pending + if o.enter then 1 else 0) && Alive(o.p)
  }

  lemma EnterKeeps(p: Machine, flags: Flags, env: Env, pending: nat)
    requires PollInv(p, pending) && pending > 0 && !p.state.NoPoll?
    ensures Kept(On(p.(lock := false), Enter(Level2), flags, env), pending - 1)
  {
  }

  lemma TimeoutKeeps(p: Machine, flags: Flags, env: Env, pending: nat)
    requires PollInv(p, pending) && p.timer
    ensures Kept(On(p.(timer := false), Timeout(Level2), flags, env), pending)
  {
  }

  lemma EventKeeps(p: Machine, e: Event, flags: Flags, env: Env)
    requires PollInv(p, 0) && Alive(p) && !p.state.NoPoll?
    ensures Kept(On(p, Ev(e), flags, env), 0)
  {
  }

  // ----- Attempts use up the session -----

  /** Attempts the session may still make. */
  function Budget(items: seq<PollItem>): (n: int)
  {
    if items == [] then 0 else Budget(items[..|items| - 1]) + MAX_POLL_RETRIES - items[|items| - 1].retry
  }

  lemma {:induction false} RetryLowersBudget(items: seq<PollItem>)
    requires items != [] && items[|items| - 1].retry < MAX_POLL_RETRIES
    ensures Budget(RetryTop(items)) < Budget(items)
    ensures Budget(DropTop(items)) < Budget(items)
  {
    var top := |items| - 1;
    var retried := items[top := items[top].(retry := items[top].retry + 1)];
    assert retried[..top] == items[..top];
  }

  /** Main result on sessions: whenever the machine acts, the session ends, the attempt starts, or the
      budget drops; PollNext always acts on its StateEnter and its timer. */
  lemma {:induction false} SessionProgress(p: Machine, m: Message, flags: Flags, env: Env)
    requires Timed(p.state) && SessionInv(p.state, p.items, p.h.tries)
    ensures var q := On(p, m, flags, env).p;
      || q.state.PollIdle?
      || (q.state == p.state && q.items == p.items && (p.state.PollNext? ==> m.Ev?))
      || (p.state.PollNext? && q.state.PollBusy? && q.items == p.items)
      || (q.state.PollNext? && Budget(q.items) < Budget(p.items))
  {
    if p.items != [] {
      RetryLowersBudget(p.items);
    }
    if p.state.PollBusy? {
      BusyMoves(p, m, flags);
    } else {
      NextMoves(p, m, flags, env);
    }
  }

  lemma BusyMoves(p: Machine, m: Message, flags: Flags)
    requires p.state.PollBusy?
    ensures var q := OnPollBusy(p, m, flags).p;
      || (q.state == p.state && q.items == p.items)
      || (q.state.PollNext? && q.items in {RetryTop(p.items), DropTop(p.items)})
  {
  }

  lemma NextMoves(p: Machine, m: Message, flags: Flags, env: Env)
    requires p.state.PollNext?
    ensures var q := OnPollNext(p, m, flags, env).p;
      || q.state.PollIdle?
      || (m.Ev? && q == p)
      || (q.state.PollBusy? && q.items == p.items)
      || (p.items != [] && q.state.PollNext? && q.items in {RetryTop(p.items), DropTop(p.items)})
  {
  }
}
