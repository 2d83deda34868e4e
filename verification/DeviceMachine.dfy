/** The device supervisor (device.cpp): level 0, the event queues, and runs of the whole device. */
module DeviceMachine {
  import opened Basics
  import opened DeviceData
  import B = BindingMachine
  import P = PollMachine

  datatype Dev = Dev(
    top: Top, lock0: bool, timer0: bool, flags: Flags,
    b: B.Machine, p: P.Machine,
    urgent: seq<Level>,       // queued StateEnter events
    queue: seq<Event>,
    lost: nat,                // history: events that met a locked level and were thrown away
    lostQueued: nat)          // history: those of them that came out of the queue

  // ----- Queues and state changes (device.cpp:197-202, 2354-2460) -----

  /** DEV_EnqueueEvent with the duplicate filter of the event emitter. */
  function Enqueue(queue: seq<Event>, e: Event): seq<Event>
  {
    if e in queue then queue else queue + [e]
  }

  function ApplyBind(s: Dev, o: B.Out): Dev
  {
    s.(b := o.b,
       urgent := if o.enter then s.urgent + [Level1] else s.urgent,
       queue := if o.tick then Enqueue(s.queue, EvBindingTick) else s.queue)
  }

  function ApplyPoll(s: Dev, o: P.Out): Dev
  {
    s.(p := o.p, flags := o.flags, timer0 := s.timer0 && !o.stopTimer0,
       urgent := if o.enter then s.urgent + [Level2] else s.urgent,
       queue := if o.emits.Some? then Enqueue(s.queue, o.emits.value) else s.queue)
  }

  /** Handlers whose StateLeave stops the level 0 timer. */
  predicate Timed(t: Top)
  {
    t in {NodeDescriptor, ActiveEndpoints, SimpleDescriptor, BasicCluster}
  }

  /** StateLeave of Idle: both sub-machines are switched off. */
  function LeaveIdle(s: Dev): Dev
  {
    var s1 := ApplyBind(s, B.SetBind(s.b, NoBind));
    var s2 := ApplyPoll(s1, P.SetPoll(s1.p, s1.flags, NoPoll));
    s2.(b := s2.b.(timer := false), p := s2.p.(timer := false))
  }

  function LeaveTop(s: Dev): Dev
  {
    if Timed(s.top) then s.(timer0 := false) else if s.top.Idle? then LeaveIdle(s) else s
  }

  function SetTop(s: Dev, t: Top): Dev
  {
    if s.top == t then s else
    var left := LeaveTop(s);
    left.(top := t, lock0 := true, urgent := left.urgent + [Level0])
  }

  // ----- Level 0 handlers (device.cpp:227-963, 2130-2200) -----

  function SetZdp(s: Dev, zdp: ZdpResult): Dev { s.(b := s.b.(zdp := zdp)) }

  function OnInit(s: Dev, m: Message, env: Env): Dev
  {
    var s1 := if m.Enter? then SetZdp(s, NO_ZDP) else s;
    if m.Enter? && env.coordinator then SetTop(s1, Dead)
    else if m.Timeout? || (m.Ev? && m.event in {EvPoll, EvAwake, EvReachable}) || s.flags.initialRun then
      var s2 := s1.(flags := s1.flags.(initialRun := false), b := s1.b.(c := s1.b.c.(checkRound := 0)));
      if env.node then (if env.nodeDescriptor || env.reachable then SetTop(s2, NodeDescriptor) else s2)
      else if env.greenPower then SetTop(s2, Zgp) else s2
    else s1
  }

  /** The common tail of the three ZDP query states: send the request or fall back to Init. */
  function QueryOrInit(s: Dev, env: Env): Dev
  {
    if !env.reachable then SetTop(s, Init)
    else if env.zdp.isEnqueued then SetZdp(s, env.zdp).(timer0 := true)
    else SetTop(SetZdp(s, env.zdp), Init)
  }

  /** APS confirm and timeout, treated alike by every level 0 query state. */
  function QueryReply(s: Dev, m: Message, requestId: u8): Dev
  {
    if m.Timeout? then SetTop(s, Init)
    else if m.Ev? && m.event.EvApsConfirm? && m.event.apsReqId == requestId then
      if m.event.confirmed then s.(timer0 := true) else SetTop(s, Init)
    else s
  }

  /** Re-evaluate from the first state and wake it at once. */
  function Restart(s: Dev): Dev
  {
    var s1 := SetTop(s, Init);
    s1.(queue := Enqueue(s1.queue, EvAwake))
  }

  function OnNodeDescriptor(s: Dev, m: Message, env: Env): Dev
  {
    if m.Enter? then (if env.nodeDescriptor then SetTop(s, ActiveEndpoints) else QueryOrInit(s, env))
    else if m == Ev(EvNodeDescriptor) then Restart(s)
    else QueryReply(s, m, s.b.zdp.apsReqId)
  }

  function OnActiveEndpoints(s: Dev, m: Message, env: Env): Dev
  {
    if m.Enter? then
      if env.endpoints != [] && !s.flags.needReadActive then SetTop(s, SimpleDescriptor) else QueryOrInit(s, env)
    else if m == Ev(EvActiveEndpoints) then Restart(s.(flags := s.flags.(needReadActive := false)))
    else QueryReply(s, m, s.b.zdp.apsReqId)
  }

  /** The first endpoint without a usable simple descriptor, or 0. */
  function FirstUndescribed(endpoints: seq<u8>, described: set<u8>): u8
  {
    if endpoints == [] then 0
    else if endpoints[0] !in described then endpoints[0]
    else FirstUndescribed(endpoints[1..], described)
  }

  function EndpointToFetch(flags: Flags, env: Env): u8
  {
    if !flags.needReadSimple then FirstUndescribed(env.endpoints, env.described)
    else if flags.fetchIndex < |env.endpoints| then env.endpoints[flags.fetchIndex]
    else 0
  }

  function FetchEndpoint(s: Dev, endpoint: u8, env: Env): Dev
  {
    if endpoint == 0 then SetTop(s.(flags := s.flags.(needReadSimple := false, fetchIndex := 0xFF)), BasicCluster)
    else QueryOrInit(s, env)
  }

  /** A forced read moves on to the next endpoint. */
  function NextEndpoint(flags: Flags, env: Env): Flags
  {
    if flags.needReadSimple &&
        flags.fetchIndex < |env.endpoints| then flags.(fetchIndex := flags.fetchIndex + 1) else flags
  }

  function EndpointFetched(s: Dev, env: Env): Dev
  {
    Restart(s.(flags := NextEndpoint(s.flags, env)))
  }

  function OnSimpleDescriptor(s: Dev, m: Message, env: Env): Dev
  {
    if m.Enter? then FetchEndpoint(s, EndpointToFetch(s.flags, env), env)
    else if m == Ev(EvSimpleDescriptor) then EndpointFetched(s, env)
    else QueryReply(s, m, s.b.zdp.apsReqId)
  }

  function OnBasicCluster(s: Dev, m: Message, env: Env): Dev
  {
    if m.Enter? then
      if env.manufacturerKnown && env.modelKnown then SetTop(s, GetDeviceDescription)
      else if !env.reachable then SetTop(s, Init)
      else
        var s1 := s.(p := s.p.(read := env.read));
        if env.read.isEnqueued then s1.(timer0 := true) else SetTop(s1, Init)
    else if m == Ev(EvBasicAttribute) then Restart(s)
    else QueryReply(s, m, s.p.read.apsReqId)
  }

  function OnGetDeviceDescription(s: Dev, m: Message): Dev
  {
    if m.Enter? then s.(queue := Enqueue(s.queue, EvDDFInitRequest))
    else if m.Ev? && m.event.EvDDFInitResponse? then
      var found := m.event.num == 1 || m.event.num == 3;
      SetTop(s.(flags := s.flags.(managed := found, hasDdf := found)), if found then Idle else Dead)
    else s
  }

  function OnLevel1(s: Dev, m: Message, env: Env): Dev
  {
    if s.b.lock then s.(lost := s.lost + 1) else ApplyBind(s, B.On(s.b, m, env))
  }

  function OnLevel2(s: Dev, m: Message, env: Env): Dev
  {
    if s.p.lock then s.(lost := s.lost + 1) else ApplyPoll(s, P.On(s.p, m, s.flags, env))
  }

  function EnterIdle(s: Dev): Dev
  {
    var s1 := ApplyBind(s, B.SetBind(s.b.(c := s.b.c.(bindingIter := 0)), BindingHandler));
    ApplyPoll(s1, P.SetPoll(s1.p, s1.flags, PollIdle))
  }

  function OnIdle(s: Dev, m: Message, env: Env): Dev
  {
    if m.Enter? then EnterIdle(s) else OnLevel2(OnLevel1(s, m, env), m, env)
  }

  function OnDead(s: Dev, m: Message): Dev
  {
    if !m.Enter? && s.flags.managed && s.flags.hasDdf then SetTop(s, Init) else s
  }

  function OnTop(s: Dev, m: Message, env: Env): Dev
  {
    match s.top
    case NoTop => s
    case Init => OnInit(s, m, env)
    case NodeDescriptor => OnNodeDescriptor(s, m, env)
    case ActiveEndpoints => OnActiveEndpoints(s, m, env)
    case SimpleDescriptor => OnSimpleDescriptor(s, m, env)
    case BasicCluster => OnBasicCluster(s, m, env)
    case GetDeviceDescription => OnGetDeviceDescription(s, m)
    case Idle => OnIdle(s, m, env)
    case Dead => OnDead(s, m)
    case Zgp => s
  }

  // ----- Event entry -----

  /** Device::handleEvent for a StateEnter event. */
  function DeliverEnter(s: Dev, l: Level, env: Env): Dev
  {
    match l
    case Level0 => OnTop(s.(lock0 := false), Enter(Level0), env)
    case Level1 => ApplyBind(s, B.On(s.b.(lock := false), Enter(Level1), env))
    case Level2 => ApplyPoll(s, P.On(s.p.(lock := false), Enter(Level2), s.flags, env))
  }

  /** Restart from a state; a DDF reload also starts with check round 0. */
  function Reload(s: Dev, t: Top): Dev
  {
    var s1 := SetTop(s, t);
    var s2 := if t.Init? then s1.(b := s1.b.(c := s1.b.c.(checkRound := 0))) else s1;
    s2.(timer0 := true)
  }

  /** Device::handleEvent for every other event. */
  function HandleEvent(s: Dev, e: Event, env: Env): Dev
  {
    if s.lock0 then s.(lost := s.lost + 1)
    else match e
      case EvDDFReload => Reload(s, Init)
      case EvZdpReload => Reload(s, ActiveEndpoints)
      case _ => OnTop(s, Ev(e), env)
  }

  /** Device::timerEvent; a timeout does not look at the lock. */
  function FireTimer(s: Dev, l: Level, env: Env): Dev
  {
    match l
    case Level0 => if s.timer0 then OnTop(s.(timer0 := false), Timeout(Level0), env) else s
    case Level1 => if s.b.timer then ApplyBind(s, B.On(s.b.(timer := false), Timeout(Level1), env)) else s
    case Level2 => if s.p.timer then ApplyPoll(s, P.On(s.p.(timer := false), Timeout(Level2), s.flags, env)) else s
  }

  /** One iteration of EventEmitter::process: urgent events go first. */
  function Process(s: Dev, env: Env): Dev
  {
    if s.urgent != [] then DeliverEnter(s.(urgent := s.urgent[1..]), s.urgent[0], env)
    else if s.queue != [] then
      var r := HandleEvent(s.(queue := s.queue[1..]), s.queue[0], env);
      if r.lost > s.lost then r.(lostQueued := r.lostQueued + 1) else r
    else s
  }

  // ----- Runs -----

  /** Everything that can happen to a device. */
  datatype Step =
    | Deliver(env: Env)                  // the emitter delivers the next event
    | Fire(level: Level, env: Env)       // a timer of the device elapses
    | Arrive(event: Event)               // an outside event is queued
    | Add(binding: B.Binding)
    | Clear
    | SetMgmtBind(supported: bool)
    | SetManaged(managed: bool)
    | Construct                          // the deferred start of the constructor
    | ReloadNow(env: Env)                // the device widget calls handleEvent from its own timer

  function Next(s: Dev, step: Step): Dev
  {
    match step
    case Deliver(env) => Process(s, env)
    case Fire(l, env) => FireTimer(s, l, env)
    case Arrive(e) => s.(queue := Enqueue(s.queue, e))
    case Add(bnd) => s.(b := s.b.(c := B.AddBinding(s.b.c, bnd)))
    case Clear => ApplyBind(s, B.ClearBindings(s.b))
    case SetMgmtBind(supported) =>
      s.(b := s.b.(c := s.b.c.(mgmtBind := if supported then B.Supported else B.NotSupported)))
    case SetManaged(managed) => s.(flags := s.flags.(managed := managed))
    case Construct => SetTop(s, Init)
    case ReloadNow(env) => HandleEvent(s, EvDDFReload, env)
  }

  function Run(steps: seq<Step>): Dev
  {
    if steps == [] then START else Next(Run(steps[..|steps| - 1]), steps[|steps| - 1])
  }

  const START := Dev(NoTop, false, false, Flags(true, false, false, true, false, false, 0xFF),
                     B.START, P.START, [], [], 0, 0)
}
