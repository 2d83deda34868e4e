/** A device that confirms and answers every query: from construction it gets to Idle. */
module InterviewRuns {
  import opened Basics
  import opened DeviceData
  import opened DeviceMachine
  import opened DeviceLaws
  import RR = ReportRuns
  import B = BindingMachine
  import P = PollMachine

  /** What the gateway knows about the device at some moment. */
  datatype Facts = Facts(descriptor: bool, endpoints: seq<u8>, described: set<u8>, basic: bool)

  /** The world with these facts, in which every query is taken. */
  function With(env: Env, f: Facts): Env
  {
    env.(node := true, coordinator := false, reachable := true, nodeDescriptor := f.descriptor,
         endpoints := f.endpoints, described := f.described, manufacturerKnown := f.basic, modelKnown := f.basic,
         zdp := env.zdp.(isEnqueued := true), read := env.read.(isEnqueued := true))
  }

  const NOTHING := Facts(false, [], {}, false)

  function Missing(f: Facts): u8 { FirstUndescribed(f.endpoints, f.described) }

  /** The state in which the interview stops to ask. */
  function StopsAt(f: Facts): Top
  {
    if !f.descriptor then NodeDescriptor
    else if f.endpoints == [] then ActiveEndpoints
    else if Missing(f) != 0 then SimpleDescriptor
    else if !f.basic then BasicCluster
    else GetDeviceDescription
  }

  /** The answer to what is asked there; `endpoints` are those of the device. */
  function Learnt(f: Facts, endpoints: seq<u8>): Facts
  {
    if !f.descriptor then f.(descriptor := true)
    else if f.endpoints == [] then f.(endpoints := endpoints)
    else if Missing(f) != 0 then f.(described := f.described + {Missing(f)})
    else f.(basic := true)
  }

  /** The gateway knows nothing wrong. */
  predicate Sound(f: Facts, endpoints: seq<u8>)
  {
    endpoints != [] && 0 !in endpoints && (f.endpoints == [] || f.endpoints == endpoints)
  }

  function Undescribed(endpoints: seq<u8>, described: set<u8>): nat
  {
    |(set e | e in endpoints) - described|
  }

  /** How many answers are still missing. */
  function Questions(f: Facts, endpoints: seq<u8>): nat
  {
    (if f.descriptor then 0 else 1) + (if f.endpoints == [] then 1 else 0)
    + Undescribed(endpoints, f.described) + if f.basic then 0 else 1
  }

  lemma LearningHelps(f: Facts, endpoints: seq<u8>)
    requires Sound(f, endpoints) && !StopsAt(f).GetDeviceDescription?
    ensures var g := Learnt(f, endpoints);
      Sound(g, endpoints) && Questions(g, endpoints) < Questions(f, endpoints)
  {
    if f.descriptor && f.endpoints != [] && Missing(f) != 0 {
      FirstLaw(f.endpoints, f.described);
      var all := set e | e in endpoints;
      var e := Missing(f);
      assert e in all - f.described;
      assert all - (f.described + {e}) == (all - f.described) - {e};
    }
  }

  // ----- States on the way -----

  /** Nothing but the StateEnter of the level 0 state is queued, besides perhaps the wake-up of a restart. */
  predicate Entering(s: Dev, t: Top, queue: seq<Event>)
  {
    && s.top == t && s.lock0 && !s.timer0 && s.urgent == [Level0] && s.queue == queue
    && s.b == B.START.(zdp := s.b.zdp) && s.p == P.START.(read := s.p.read)
    && !s.flags.needReadActive && !s.flags.needReadSimple
  }

  /** Before the interview, in the first run or after a restart. */
  predicate Starting(s: Dev)
  {
    if s.flags.initialRun then Entering(s, Init, []) else Entering(s, Init, [EvAwake])
  }

  lemma DeliverEnter0(s: Dev, t: Top, queue: seq<Event>, env: Env)
    requires Entering(s, t, queue)
    ensures Next(s, Deliver(env)) == OnTop(s.(lock0 := false, urgent := []), Enter(Level0), env)
  {
    assert s.urgent[1..] == [];
    hide OnTop;
  }

  lemma DeliverEvent0(s: Dev, e: Event, env: Env)
    requires !s.lock0 && s.urgent == [] && s.queue == [e] && !e.EvDDFReload? && !e.EvZdpReload?
    requires OnTop(s.(queue := []), Ev(e), env).lost == s.lost
    ensures Next(s, Deliver(env)) == OnTop(s.(queue := []), Ev(e), env)
  {
    assert s.queue[1..] == [];
    hide OnTop;
  }

  /** Init leads to the first query, at once in the first run and on the wake-up after a restart. */
  lemma LeaveInit(s: Dev, env: Env, f: Facts) returns (r: Dev)
    requires RR.Reachable(s) && Starting(s)
    ensures RR.Reachable(r) && Entering(r, NodeDescriptor, []) && !r.flags.initialRun
  {
    var w := With(env, f);
    DeliverEnter0(s, Init, if s.flags.initialRun then [] else [EvAwake], w);
    InitLaw(s.(lock0 := false, urgent := []), Enter(Level0), w);
    RR.Go(s, Deliver(w));
    r := Next(s, Deliver(w));
    if !s.flags.initialRun {
      var s1 := r;
      InitLaw(s1.(queue := []), Ev(EvAwake), w);
      DeliverEvent0(s1, EvAwake, w);
      RR.Go(s1, Deliver(w));
      r := Next(s1, Deliver(w));
    }
    hide OnTop, Next;
  }

  /** A state whose fact is known leads on to the next one. */
  lemma PassBy(s: Dev, t: Top, next: Top, env: Env, f: Facts) returns (r: Dev)
    requires RR.Reachable(s) && Entering(s, t, []) && !s.flags.initialRun
    requires || (t.NodeDescriptor? && next.ActiveEndpoints? && f.descriptor)
             || (t.ActiveEndpoints? && next.SimpleDescriptor? && f.endpoints != [])
             || (t.SimpleDescriptor? && next.BasicCluster? && Missing(f) == 0)
             || (t.BasicCluster? && next.GetDeviceDescription? && f.basic)
    ensures RR.Reachable(r) && Entering(r, next, []) && !r.flags.initialRun
  {
    var w, s0 := With(env, f), s.(lock0 := false, urgent := []);
    DeliverEnter0(s, t, [], w);
    match t {
      case NodeDescriptor => NodeDescriptorLaw(s0, w);
      case ActiveEndpoints => ActiveEndpointsLaw(s0, w);
      case SimpleDescriptor => SimpleDescriptorLaw(s0, w);
      case _ => BasicClusterLaw(s0, w);
    }
    RR.Go(s, Deliver(w));
    r := Next(s, Deliver(w));
    hide OnTop, Next;
  }

  /** Through all the states whose facts are known. */
  lemma WalkOn(s: Dev, env: Env, f: Facts) returns (r: Dev)
    requires RR.Reachable(s) && Starting(s)
    ensures RR.Reachable(r) && Entering(r, StopsAt(f), []) && !r.flags.initialRun
  {
    hide Entering, Starting, RR.Reachable;
    r := LeaveInit(s, env, f);
    if f.descriptor {
      r := PassBy(r, NodeDescriptor, ActiveEndpoints, env, f);
      if f.endpoints != [] {
        r := PassBy(r, ActiveEndpoints, SimpleDescriptor, env, f);
        if Missing(f) == 0 {
          r := PassBy(r, SimpleDescriptor, BasicCluster, env, f);
          if f.basic {
            r := PassBy(r, BasicCluster, GetDeviceDescription, env, f);
          }
        }
      }
    }
  }

  // ----- One query -----

  /** Waiting for the answer. */
  predicate Awaiting(s: Dev, t: Top)
  {
    && s.top == t && Asks(t) && !s.lock0 && s.timer0 && s.urgent == [] && s.queue == []
    && s.b == B.START.(zdp := s.b.zdp) && s.p == P.START.(read := s.p.read)
    && !s.flags.needReadActive && !s.flags.needReadSimple && !s.flags.initialRun
  }

  lemma SendQuery(s: Dev, env: Env, f: Facts) returns (r: Dev)
    requires RR.Reachable(s) && Entering(s, StopsAt(f), []) && !s.flags.initialRun && Asks(StopsAt(f))
    ensures RR.Reachable(r) && Awaiting(r, StopsAt(f))
  {
    var w, s0 := With(env, f), s.(lock0 := false, urgent := []);
    DeliverEnter0(s, StopsAt(f), [], w);
    match StopsAt(f) {
      case NodeDescriptor => NodeDescriptorLaw(s0, w);
      case ActiveEndpoints => ActiveEndpointsLaw(s0, w);
      case SimpleDescriptor => SimpleDescriptorLaw(s0, w);
      case _ => BasicClusterLaw(s0, w);
    }
    RR.Go(s, Deliver(w));
    r := Next(s, Deliver(w));
    hide OnTop, Next;
  }

  /** The query is confirmed. */
  lemma GetConfirm(s: Dev, t: Top, env: Env)
    requires RR.Reachable(s) && Awaiting(s, t)
    ensures var e := EvApsConfirm(InFlight(s), true); Next(Next(s, Arrive(e)), Deliver(env)) == s
  {
    var e := EvApsConfirm(InFlight(s), true);
    var s1 := Next(s, Arrive(e));
    assert s1 == s.(queue := [e]);
    ConfirmLaw(s, InFlight(s), true, env);
    assert s1.(queue := []) == s && s.(timer0 := true) == s;
    DeliverEvent0(s1, e, env);
  }

  /** The answer is processed, with one fact more known. */
  lemma GetAnswer(s: Dev, t: Top, env: Env) returns (r: Dev)
    requires RR.Reachable(s) && Awaiting(s, t)
    ensures RR.Reachable(r) && Starting(r) && !r.flags.initialRun
  {
    var e := Answer(t);
    RR.Go(s, Arrive(e));
    var s1 := Next(s, Arrive(e));
    assert s1 == s.(queue := [e]);
    AnswerLaw(s, env);
    assert s1.(queue := []) == s;
    DeliverEvent0(s1, e, env);
    RR.Go(s1, Deliver(env));
    r := Next(s1, Deliver(env));
    hide OnTop, Next;
  }

  /** Main result: whatever is known at the start, a device with any endpoints that confirms and answers every
      query is asked for every missing fact and gets to the look-up of its description. */
  lemma {:induction false} InterviewEnds(s: Dev, env: Env, f: Facts, endpoints: seq<u8>) returns (r: Dev)
    requires RR.Reachable(s) && Starting(s) && Sound(f, endpoints)
    ensures RR.Reachable(r) && Entering(r, GetDeviceDescription, [])
    decreases Questions(f, endpoints)
  {
    hide Entering, Starting, Awaiting, RR.Reachable, Sound, Questions;
    r := WalkOn(s, env, f);
    if !StopsAt(f).GetDeviceDescription? {
      var g := Learnt(f, endpoints);
      r := SendQuery(r, env, f);
      GetConfirm(r, StopsAt(f), With(env, f));
      r := GetAnswer(r, StopsAt(f), With(env, g));
      LearningHelps(f, endpoints);
      r := InterviewEnds(r, env, g, endpoints);
    }
  }

  /** In Idle, with both sub-machines at rest. */
  predicate Supervised(s: Dev)
  {
    && s.top.Idle? && !s.lock0 && !s.timer0 && s.flags.managed && s.flags.hasDdf
    && s.b.state.BindingHandler? && !s.b.lock && !s.b.timer && s.p.state.PollIdle? && !s.p.lock && !s.p.timer
    && s.urgent == [] && s.queue == []
  }

  /** The description is found, and Idle starts the sub-machines. */
  lemma FindDescription(s: Dev, env: Env) returns (r: Dev)
    requires RR.Reachable(s) && Entering(s, GetDeviceDescription, [])
    ensures RR.Reachable(r) && Supervised(r)
  {
    var found := EvDDFInitResponse(1);
    hide RR.Reachable;
    RR.Go(s, Deliver(env));
    var s1 := Next(s, Deliver(env));
    assert s1 == s.(lock0 := false, urgent := [], queue := [EvDDFInitRequest]);
    RR.Go(s1, Deliver(env));
    var s2 := Next(s1, Deliver(env));
    assert s2 == s1.(queue := []);
    RR.Go(s2, Arrive(found));
    var s3 := Next(s2, Arrive(found));
    DescriptionLaw(s2, 1, env);
    DeliverEvent0(s3, found, env);
    RR.Go(s3, Deliver(env));
    r := EnterIdleRun(Next(s3, Deliver(env)), env);
  }

  lemma EnterIdleRun(s: Dev, env: Env) returns (r: Dev)
    requires RR.Reachable(s) && Entering(s, Idle, []) && s.flags.managed && s.flags.hasDdf
    ensures RR.Reachable(r) && Supervised(r)
  {
    hide RR.Reachable;
    DeliverEnter0(s, Idle, [], env);
    IdleEnterLaw(s.(lock0 := false, urgent := []), env);
    RR.Go(s, Deliver(env));
    var s1 := Next(s, Deliver(env));
    assert s1.urgent == [Level1, Level2];
    RR.Go(s1, Deliver(env));
    var s2 := Next(s1, Deliver(env));
    assert s2 == s1.(urgent := [Level2], b := s1.b.(lock := false));
    RR.Go(s2, Deliver(env));
    r := Next(s2, Deliver(env));
    assert r == s2.(urgent := [], p := s2.p.(lock := false));
  }

  /** Main result from construction on: such a device is supervised in the end. */
  lemma InterviewedDeviceIsSupervised(env: Env, endpoints: seq<u8>)
    requires endpoints != [] && 0 !in endpoints
    ensures exists steps :: Supervised(Run(steps))
  {
    var s := Next(START, Construct);
    assert Run([]) == START;
    RR.Go(START, Construct);
    assert Starting(s);
    var r := InterviewEnds(s, env, NOTHING, endpoints);
    r := FindDescription(r, env);
    var steps :| Run(steps) == r;
    assert Supervised(Run(steps));
  }
}
