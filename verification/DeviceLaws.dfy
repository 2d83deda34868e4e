/** What each message does to level 0 of the device supervisor, told apart from the handlers
    (device.cpp:227-963, 2130-2200, 2354-2460). */
module DeviceLaws {
  import opened Basics
  import opened DeviceData
  import opened DeviceMachine
  import B = BindingMachine
  import P = PollMachine

  /** The states that send a query and wait for its answer. */
  predicate Asks(t: Top) { t in {NodeDescriptor, ActiveEndpoints, SimpleDescriptor, BasicCluster} }

  /** Another state outside Idle: its StateEnter is queued, and the timer of a query is stopped. */
  function Moved(s: Dev, t: Top): Dev
  {
    s.(top := t, lock0 := true, urgent := s.urgent + [Level0], timer0 := s.timer0 && !Asks(s.top))
  }

  lemma MovedLaw(s: Dev, t: Top)
    requires !s.top.Idle? && s.top != t
    ensures SetTop(s, t) == Moved(s, t)
  {
  }

  /** Start over, and wake up at once. */
  function StartedOver(s: Dev): Dev
  {
    Moved(s, Init).(queue := if EvAwake in s.queue then s.queue else s.queue + [EvAwake])
  }

  function InFlight(s: Dev): u8 { if s.top.BasicCluster? then s.p.read.apsReqId else s.b.zdp.apsReqId }

  // ----- Queries -----

  /** A successful confirm of the query in flight arms the timer for the answer; a failed one and a timeout lead
      back to Init; a confirm of any other request is ignored. */
  lemma ConfirmLaw(s: Dev, id: u8, success: bool, env: Env)
    requires Asks(s.top)
    ensures OnTop(s, Ev(EvApsConfirm(id, success)), env) ==
      if id != InFlight(s) then s else if success then s.(timer0 := true) else Moved(s, Init)
    ensures OnTop(s, Timeout(Level0), env) == Moved(s, Init)
  {
    hide NextEndpoint, EndpointToFetch;
  }

  /** The event that says that the answer of the state's query has been processed. */
  function Answer(t: Top): Event
    requires Asks(t)
  {
    match t
    case NodeDescriptor => EvNodeDescriptor
    case ActiveEndpoints => EvActiveEndpoints
    case SimpleDescriptor => EvSimpleDescriptor
    case BasicCluster => EvBasicAttribute
    case _ => assert false; EvOther
  }

  /** The answer starts the interview over with one fact more; a forced read of the endpoints is over with it,
      and one of the simple descriptors goes on with the next endpoint. */
  lemma AnswerLaw(s: Dev, env: Env)
    requires Asks(s.top)
    ensures var f := s.flags;
      OnTop(s, Ev(Answer(s.top)), env) == StartedOver(s.(flags :=
        if s.top.ActiveEndpoints? then f.(needReadActive := false)
        else if s.top.SimpleDescriptor? && f.needReadSimple && f.fetchIndex < |env.endpoints| then
          f.(fetchIndex := f.fetchIndex + 1)
        else f))
  {
  }

  lemma OtherEventsLaw(s: Dev, e: Event, env: Env)
    requires Asks(s.top) && e != Answer(s.top) && !e.EvApsConfirm?
    ensures OnTop(s, Ev(e), env) == s
  {
    hide NextEndpoint, EndpointToFetch;
  }

  /** A ZDP query is sent to a reachable device; without one that is taken the device starts over. */
  function Queried(s: Dev, env: Env): Dev
  {
    if !env.reachable then Moved(s, Init)
    else if !env.zdp.isEnqueued then Moved(s.(b := s.b.(zdp := env.zdp)), Init)
    else s.(b := s.b.(zdp := env.zdp), timer0 := true)
  }

  lemma NodeDescriptorLaw(s: Dev, env: Env)
    requires s.top.NodeDescriptor?
    ensures OnTop(s, Enter(Level0), env) == if env.nodeDescriptor then Moved(s, ActiveEndpoints) else Queried(s, env)
  {
  }

  lemma ActiveEndpointsLaw(s: Dev, env: Env)
    requires s.top.ActiveEndpoints?
    ensures OnTop(s, Enter(Level0), env) ==
      if env.endpoints != [] && !s.flags.needReadActive then Moved(s, SimpleDescriptor) else Queried(s, env)
  {
  }

  /** The endpoint whose simple descriptor is read: the first one without a usable descriptor, or, in a forced
      read, the next one in turn; 0 if there is none. */
  lemma EndpointLaw(flags: Flags, env: Env)
    ensures var r := EndpointToFetch(flags, env);
      if flags.needReadSimple then
        r == if flags.fetchIndex < |env.endpoints| then env.endpoints[flags.fetchIndex] else 0
      else if forall k :: 0 <= k < |env.endpoints| ==> env.endpoints[k] in env.described then r == 0
      else exists k :: 0 <= k < |env.endpoints| && r == env.endpoints[k] && r !in env.described
             && forall j :: 0 <= j < k ==> env.endpoints[j] in env.described
  {
    FirstLaw(env.endpoints, env.described);
  }

  lemma {:induction false} FirstLaw(endpoints: seq<u8>, described: set<u8>)
    ensures var r := FirstUndescribed(endpoints, described);
      if forall k :: 0 <= k < |endpoints| ==> endpoints[k] in described then r == 0
      else exists k :: 0 <= k < |endpoints| && r == endpoints[k] && r !in described
             && forall j :: 0 <= j < k ==> endpoints[j] in described
  {
    if endpoints != [] && endpoints[0] in described {
      var rest := endpoints[1..];
      FirstLaw(rest, described);
      if k :| 0 <= k < |rest| && FirstUndescribed(rest, described) == rest[k] && rest[k] !in described
              && forall j :: 0 <= j < k ==> rest[j] in described {
        assert endpoints[k + 1] == rest[k];
        forall j | 0 <= j < k + 1
          ensures endpoints[j] in described
        {
          assert j > 0 ==> endpoints[j] == rest[j - 1];
        }
      } else {
        forall k | 0 <= k < |endpoints|
          ensures endpoints[k] in described
        {
          assert k > 0 ==> endpoints[k] == rest[k - 1];
        }
      }
    }
  }

  lemma SimpleDescriptorLaw(s: Dev, env: Env)
    requires s.top.SimpleDescriptor?
    ensures OnTop(s, Enter(Level0), env) ==
      if EndpointToFetch(s.flags, env) == 0 then
        Moved(s.(flags := s.flags.(needReadSimple := false, fetchIndex := 0xFF)), BasicCluster)
      else Queried(s, env)
  {
    hide EndpointToFetch;
  }

  lemma BasicClusterLaw(s: Dev, env: Env)
    requires s.top.BasicCluster?
    ensures OnTop(s, Enter(Level0), env) ==
      if env.manufacturerKnown && env.modelKnown then Moved(s, GetDeviceDescription)
      else if !env.reachable then Moved(s, Init)
      else
        var asked := s.(p := s.p.(read := env.read));
        if env.read.isEnqueued then asked.(timer0 := true) else Moved(asked, Init)
  {
  }

  // ----- Init, description, Idle, Dead -----

  /** Init waits for a sign of life, except in the first run of a device; the coordinator itself is not
      supervised, a node with a descriptor or a reachable one is queried, and a Green Power device has a state of
      its own. */
  lemma InitLaw(s: Dev, m: Message, env: Env)
    requires s.top.Init?
    ensures var s1 := if m.Enter? then s.(b := s.b.(zdp := NO_ZDP)) else s;
      var acts := m.Timeout? || m == Ev(EvPoll) || m == Ev(EvAwake) || m == Ev(EvReachable) || s.flags.initialRun;
      var s2 := s1.(flags := s.flags.(initialRun := false), b := s1.b.(c := s.b.c.(checkRound := 0)));
      OnTop(s, m, env) ==
        if m.Enter? && env.coordinator then Moved(s1, Dead)
        else if !acts then s1
        else if env.node then if env.nodeDescriptor || env.reachable then Moved(s2, NodeDescriptor) else s2
        else if env.greenPower then Moved(s2, Zgp) else s2
  {
    var s1 := if m.Enter? then s.(b := s.b.(zdp := NO_ZDP)) else s;
    var s2 := s1.(flags := s.flags.(initialRun := false), b := s1.b.(c := s.b.c.(checkRound := 0)));
    MovedLaw(s1, Dead);
    MovedLaw(s2, NodeDescriptor);
    MovedLaw(s2, Zgp);
    hide SetTop, Moved;
  }

  /** The description is asked for on entry; it is found with response 1 or 3, and the device is idle then and
      dead otherwise. */
  lemma DescriptionLaw(s: Dev, num: int, env: Env)
    requires s.top.GetDeviceDescription?
    ensures OnTop(s, Enter(Level0), env).queue ==
      if EvDDFInitRequest in s.queue then s.queue else s.queue + [EvDDFInitRequest]
    ensures var found := num == 1 || num == 3;
      OnTop(s, Ev(EvDDFInitResponse(num)), env) ==
        Moved(s.(flags := s.flags.(managed := found, hasDdf := found)), if found then Idle else Dead)
  {
  }

  /** A device without a description comes back once it has one and is managed. */
  lemma DeadLaw(s: Dev, e: Event, env: Env)
    requires s.top.Dead?
    ensures OnTop(s, Enter(Level0), env) == s
    ensures OnTop(s, Ev(e), env) == if s.flags.managed && s.flags.hasDdf then Moved(s, Init) else s
  {
  }

  /** Entering Idle starts both sub-machines. */
  lemma IdleEnterLaw(s: Dev, env: Env)
    requires s.top.Idle? && s.b.state.NoBind? && s.p.state.NoPoll? && !s.b.timer && !s.p.timer
    ensures OnTop(s, Enter(Level0), env) ==
      s.(b := s.b.(state := BindingHandler, lock := true, c := s.b.c.(bindingIter := 0)),
         p := s.p.(state := PollIdle, lock := true), urgent := s.urgent + [Level1, Level2])
  {
    assert s.urgent + [Level1] + [Level2] == s.urgent + [Level1, Level2];
  }

  /** In Idle an event reaches the bindings first and the polling then, with whatever they queue. */
  lemma IdleEventLaw(s: Dev, e: Event, env: Env)
    requires s.top.Idle? && !s.b.lock && !s.p.lock
    ensures var r := OnTop(s, Ev(e), env); var o := B.On(s.b, Ev(e), env); var q := P.On(s.p, Ev(e), s.flags, env);
      && r.b == o.b && r.p == q.p && r.flags == q.flags && r.top.Idle? && r.timer0 == (s.timer0 && !q.stopTimer0)
      && r.urgent == s.urgent + (if o.enter then [Level1] else []) + (if q.enter then [Level2] else [])
      && (o.tick ==> EvBindingTick in r.queue) && (q.emits.Some? ==> q.emits.value in r.queue)
      && s.queue <= r.queue
  {
    hide B.On, P.On;
  }

  /** A timer fires once, and only if it is armed; its level gets the timeout whether it is locked or not. */
  lemma TimerLaw(s: Dev, env: Env)
    ensures !s.timer0 ==> FireTimer(s, Level0, env) == s
    ensures s.timer0 ==> FireTimer(s, Level0, env) == OnTop(s.(timer0 := false), Timeout(Level0), env)
    ensures if s.b.timer then FireTimer(s, Level1, env).b == B.On(s.b.(timer := false), Timeout(Level1), env).b
            else FireTimer(s, Level1, env) == s
    ensures if s.p.timer then FireTimer(s, Level2, env).p == P.On(s.p.(timer := false), Timeout(Level2), s.flags, env).p
            else FireTimer(s, Level2, env) == s
  {
    hide OnTop, B.On, P.On;
  }

  /** Neither sub-machine runs or has its timer armed. */
  predicate Off(s: Dev) { s.b.state.NoBind? && s.p.state.NoPoll? && !s.b.timer && !s.p.timer }

  /** A reload event leaves any state: a reload of the DDF starts over with check round 0, one of the ZDP data
      with the endpoints.  Neither sub-machine runs afterwards. */
  lemma ReloadLaw(s: Dev, env: Env)
    requires !s.lock0
    ensures var r := HandleEvent(s, EvDDFReload, env);
      && r.top.Init? && r.timer0 && r.b.c.checkRound == 0
      && (!s.top.Init? ==> r.lock0 && Level0 in r.urgent)
    ensures var r := HandleEvent(s, EvZdpReload, env);
      && r.top.ActiveEndpoints? && r.timer0 && r.b.c == s.b.c
      && (!s.top.ActiveEndpoints? ==> r.lock0 && Level0 in r.urgent)
    ensures s.top.Idle? ==> Off(HandleEvent(s, EvDDFReload, env)) && Off(HandleEvent(s, EvZdpReload, env))
  {
  }
}
