/** What holds in every reachable state of the device supervisor. */
module DeviceRuns {
  import opened DeviceData
  import opened DeviceMachine
  import B = BindingMachine
  import BI = BindingInvariant
  import P = PollMachine

  /** Queued StateEnter events of a level. */
  ghost function Pending(urgent: seq<Level>, l: Level): nat { multiset(urgent)[l] }

  /** Level 0, its lock and timer, and how Idle ties the two sub-machines to it. */
  ghost predicate TopInv(s: Dev)
  {
    && s.lostQueued == 0
    && (s.lock0 ==> Level0 in s.urgent && !s.top.NoTop?)
    && (s.timer0 ==> !s.top.Idle? && !s.top.GetDeviceDescription?)
    && (!s.top.Idle? || s.lock0 ==> s.b.state.NoBind? && s.p.state.NoPoll?)
    && (s.top.Idle? && s.lock0 ==> s.urgent == [Level0])
    && (s.top.Idle? && !s.lock0 ==> Level0 !in s.urgent && !s.b.state.NoBind? && !s.p.state.NoPoll?)
  }

  ghost predicate Inv(s: Dev)
  {
    && TopInv(s)
    && BI.BindInv(s.b, Pending(s.urgent, Level1)) && BI.Alive(s.b, EvBindingTick in s.queue)
    && P.PollInv(s.p, Pending(s.urgent, Level2)) && P.Alive(s.p)
  }

  // ----- Level 0 alone: states in which both sub-machines are off -----

  /** Inv for a state whose sub-machines are off; `urgent` may hold left-over events of theirs. */
  ghost predicate Off(s: Dev)
  {
    && s.lostQueued == 0 && !s.top.Idle? && (s.lock0 ==> Level0 in s.urgent && !s.top.NoTop?)
    && s.b.state.NoBind? && !s.b.lock && !s.b.timer && BI.Core(s.b, true)
    && s.p.state.NoPoll? && P.PollInv(s.p, 0)
  }

  lemma OffIsInv(s: Dev)
    requires Off(s) && (s.timer0 ==> !s.top.GetDeviceDescription?)
    ensures Inv(s)
  {
  }

  /** A state change outside Idle. */
  lemma SetTopKeeps(s: Dev, t: Top)
    requires Off(s) && (s.timer0 ==> !s.top.GetDeviceDescription?)
    requires t != s.top && !t.NoTop?
    requires t.Idle? ==> s.urgent == [] && !s.timer0
    requires t.GetDeviceDescription? ==> Timed(s.top)
    ensures Inv(SetTop(s, t))
  {
    if !t.Idle? {
      OffIsInv(SetTop(s, t));
    }
  }

  /** Leaving Idle switches both sub-machines off. */
  lemma LeaveIdleKeeps(s: Dev, t: Top)
    requires TopInv(s) && BI.BindInv(s.b, Pending(s.urgent, Level1)) && P.PollInv(s.p, Pending(s.urgent, Level2))
    requires s.top.Idle? && (t.Init? || t.ActiveEndpoints?)
    ensures var r := SetTop(s, t); Off(r) && r.lock0 && r.top == t
  {
  }

  lemma RestartKeeps(s: Dev)
    requires Off(s) && Timed(s.top)
    ensures Inv(Restart(s))
  {
    SetTopKeeps(s, Init);
  }

  lemma QueryKeeps(s: Dev, m: Message, env: Env)
    requires Off(s) && Timed(s.top)
    ensures Inv(QueryOrInit(s, env))
    ensures !m.Enter? ==> Inv(QueryReply(s, m, s.b.zdp.apsReqId)) && Inv(QueryReply(s, m, s.p.read.apsReqId))
  {
    SetTopKeeps(s, Init);
    SetTopKeeps(SetZdp(s, env.zdp), Init);
    OffIsInv(s);
    OffIsInv(s.(timer0 := true));
    OffIsInv(SetZdp(s, env.zdp).(timer0 := true));
    hide Inv, Off, SetTop, SetZdp;
  }

  lemma FirstRoundKeepsOff(s: Dev)
    requires Off(s)
    ensures Off(s.(flags := s.flags.(initialRun := false), b := s.b.(c := s.b.c.(checkRound := 0))))
  {
  }

  /** The state changes that Init can make. */
  lemma LeaveInitKeeps(s: Dev)
    requires Off(s) && s.top.Init?
    ensures Inv(s) && Inv(SetTop(s, Dead)) && Inv(SetTop(s, NodeDescriptor)) && Inv(SetTop(s, Zgp))
  {
    OffIsInv(s);
    SetTopKeeps(s, Dead);
    SetTopKeeps(s, NodeDescriptor);
    SetTopKeeps(s, Zgp);
    hide Inv;
  }

  lemma InitKeeps(s: Dev, m: Message, env: Env)
    requires Off(s) && s.top.Init?
    ensures Inv(OnInit(s, m, env))
  {
    var s1 := if m.Enter? then SetZdp(s, NO_ZDP) else s;
    assert Off(s1);
    FirstRoundKeeps(s1);
    LeaveInitKeeps(s1);
    hide Inv, Off, SetTop, SetZdp;
  }

  /** The same once check round 0 has begun. */
  lemma FirstRoundKeeps(s: Dev)
    requires Off(s) && s.top.Init?
    ensures var s2 := s.(flags := s.flags.(initialRun := false), b := s.b.(c := s.b.c.(checkRound := 0)));
      Inv(s2) && Inv(SetTop(s2, NodeDescriptor)) && Inv(SetTop(s2, Zgp))
  {
    var s2 := s.(flags := s.flags.(initialRun := false), b := s.b.(c := s.b.c.(checkRound := 0)));
    FirstRoundKeepsOff(s);
    hide Inv, Off, SetTop;
    LeaveInitKeeps(s2);
  }

  lemma NodeDescriptorKeeps(s: Dev, m: Message, env: Env)
    requires Off(s) && s.top.NodeDescriptor?
    ensures Inv(OnNodeDescriptor(s, m, env))
  {
    QueryKeeps(s, m, env);
    SetTopKeeps(s, ActiveEndpoints);
    RestartKeeps(s);
  }

  lemma FlagsKeepOff(s: Dev, flags: Flags)
    requires Off(s)
    ensures Off(s.(flags := flags))
  {
  }

  lemma ActiveEndpointsKeeps(s: Dev, m: Message, env: Env)
    requires Off(s) && s.top.ActiveEndpoints?
    ensures Inv(OnActiveEndpoints(s, m, env))
  {
    if m.Enter? {
      QueryKeeps(s, m, env);
      SetTopKeeps(s, SimpleDescriptor);
      hide Inv, Off, SetTop, QueryOrInit;
    } else if m == Ev(EvActiveEndpoints) {
      var flags := s.flags.(needReadActive := false);
      FlagsKeepOff(s, flags);
      hide Inv, Off, Restart;
      RestartKeeps(s.(flags := flags));
    } else {
      QueryKeeps(s, m, env);
      hide Inv, Off, QueryReply;
    }
  }

  lemma SimpleDescriptorKeeps(s: Dev, m: Message, env: Env)
    requires Off(s) && s.top.SimpleDescriptor?
    ensures Inv(OnSimpleDescriptor(s, m, env))
  {
    QueryKeeps(s, m, env);
    if m.Enter? {
      SetTopKeeps(s.(flags := s.flags.(needReadSimple := false, fetchIndex := 0xFF)), BasicCluster);
    } else {
      RestartKeeps(s.(flags := NextEndpoint(s.flags, env)));
    }
  }

  lemma BasicClusterKeeps(s: Dev, m: Message, env: Env)
    requires Off(s) && s.top.BasicCluster?
    ensures Inv(OnBasicCluster(s, m, env))
  {
    var s1 := s.(p := s.p.(read := env.read));
    SetTopKeeps(s1, Init);
    OffIsInv(s1.(timer0 := true));
    hide Inv;
    if m.Enter? {
      SetTopKeeps(s, GetDeviceDescription);
      SetTopKeeps(s, Init);
    } else if m == Ev(EvBasicAttribute) {
      RestartKeeps(s);
    } else {
      QueryKeeps(s, m, env);
    }
  }

  lemma DescriptionKeeps(s: Dev, m: Message)
    requires Off(s) && s.top.GetDeviceDescription? && !s.timer0
    requires m.Ev? ==> s.urgent == []
    ensures Inv(OnGetDeviceDescription(s, m))
  {
    OffIsInv(s);
    if m.Ev? && m.event.EvDDFInitResponse? {
      var found := m.event.num == 1 || m.event.num == 3;
      SetTopKeeps(s.(flags := s.flags.(managed := found, hasDdf := found)), if found then Idle else Dead);
    }
  }

  /** Level 0 outside Idle: any message keeps the invariant. */
  lemma OffKeeps(s: Dev, m: Message, env: Env)
    requires Off(s) && (s.timer0 ==> !s.top.GetDeviceDescription?)
    requires m.Ev? ==> s.urgent == []
    ensures Inv(OnTop(s, m, env))
  {
    OffIsInv(s);
    match s.top
    case Init => InitKeeps(s, m, env);
    case GetDeviceDescription => DescriptionKeeps(s, m);
    case Dead => SetTopKeeps(s, Init);
    case NodeDescriptor => NodeDescriptorKeeps(s, m, env);
    case ActiveEndpoints => ActiveEndpointsKeeps(s, m, env);
    case SimpleDescriptor => SimpleDescriptorKeeps(s, m, env);
    case BasicCluster => BasicClusterKeeps(s, m, env);
    case _ =>
  }

  // ----- Idle: the sub-machines run -----

  /** What a level 1 handler leaves behind, once its events are queued. */
  lemma ApplyBindKeeps(s: Dev, o: B.Out)
    requires BI.Kept(o, Pending(s.urgent, Level1), EvBindingTick in s.queue)
    ensures var r := ApplyBind(s, o);
      && BI.BindInv(r.b, Pending(r.urgent, Level1)) && BI.Alive(r.b, EvBindingTick in r.queue)
      && !r.b.state.NoBind?
      && Pending(r.urgent, Level2) == Pending(s.urgent, Level2)
      && (Level0 in r.urgent <==> Level0 in s.urgent)
  {
  }

  lemma ApplyPollKeeps(s: Dev, o: P.Out)
    requires P.Kept(o, Pending(s.urgent, Level2))
    ensures var r := ApplyPoll(s, o);
      && P.PollInv(r.p, Pending(r.urgent, Level2)) && P.Alive(r.p)
      && !r.p.state.NoPoll?
      && Pending(r.urgent, Level1) == Pending(s.urgent, Level1)
      && (Level0 in r.urgent <==> Level0 in s.urgent)
      && (EvBindingTick in s.queue ==> EvBindingTick in r.queue)
  {
  }

  lemma AliveWithMore(b: B.Machine, tick: bool)
    requires BI.Alive(b, tick)
    ensures BI.Alive(b, true)
  {
  }

  lemma EnterIdleKeeps(s: Dev)
    requires s.top.Idle? && !s.lock0 && !s.timer0 && s.lostQueued == 0 && s.urgent == []
    requires Off(s.(top := Init))
    ensures Inv(EnterIdle(s))
  {
    var b := s.b.(c := s.b.c.(bindingIter := 0));
    var o := B.SetBind(b, BindingHandler);
    assert BI.Kept(o, 0, EvBindingTick in s.queue);
    ApplyBindKeeps(s, o);
    var s1 := ApplyBind(s, o);
    ApplyPollKeeps(s1, P.SetPoll(s1.p, s1.flags, PollIdle));
  }

  lemma IdleEventKeeps(s: Dev, e: Event, env: Env)
    requires TopInv(s) && s.top.Idle? && !s.lock0 && s.urgent == []
    requires BI.BindInv(s.b, 0) && P.PollInv(s.p, 0) && P.Alive(s.p)
    requires BI.Alive(s.b, EvBindingTick in s.queue) || (e.EvBindingTick? && (s.b.state.TableRead? ||
        s.b.state.TableVerify?))
    ensures Inv(OnIdle(s, Ev(e), env))
  {
    BI.EventKeeps(s.b, e, env, EvBindingTick in s.queue);
    ApplyBindKeeps(s, B.On(s.b, Ev(e), env));
    var s1 := OnLevel1(s, Ev(e), env);
    P.EventKeeps(s1.p, e, s1.flags, env);
    ApplyPollKeeps(s1, P.On(s1.p, Ev(e), s1.flags, env));
  }

  // ----- Every step, every run -----

  lemma PopUrgent(urgent: seq<Level>, l: Level)
    requires urgent != []
    ensures Pending(urgent, l) == Pending(urgent[1..], l) + if urgent[0] == l then 1 else 0
    ensures Pending(urgent, l) > 0 <==> l in urgent
    ensures Pending(urgent[1..], l) > 0 <==> l in urgent[1..]
  {
    assert urgent == [urgent[0]] + urgent[1..];
  }

  lemma EnterTopKeeps(s: Dev, env: Env)
    requires Inv(s) && s.urgent != [] && s.urgent[0].Level0?
    ensures Inv(Process(s, env))
  {
    var s1 := s.(urgent := s.urgent[1..], lock0 := false);
    PopTop(s);
    hide Inv, Off, OnTop, EnterIdle;
    if s.top.Idle? {
      EnterIdleKeeps(s1);
      assert Process(s, env) == EnterIdle(s1) by { EnterIdleOnTop(s1, env); }
    } else {
      OffKeeps(s1, Enter(Level0), env);
    }
  }

  lemma EnterIdleOnTop(s: Dev, env: Env)
    requires s.top.Idle?
    ensures OnTop(s, Enter(Level0), env) == EnterIdle(s)
  {
    hide EnterIdle;
  }

  /** The StateEnter of level 0 is taken from the queue. */
  lemma PopTop(s: Dev)
    requires Inv(s) && s.urgent != [] && s.urgent[0].Level0?
    ensures var s1 := s.(urgent := s.urgent[1..], lock0 := false);
      if s.top.Idle? then !s.timer0 && s.lostQueued == 0 && s1.urgent == [] && Off(s1.(top := Init))
      else Off(s1) && (s1.timer0 ==> !s1.top.GetDeviceDescription?)
  {
    PopUrgent(s.urgent, Level1);
    PopUrgent(s.urgent, Level2);
  }

  lemma EnterBindKeeps(s: Dev, env: Env)
    requires Inv(s) && s.urgent != [] && s.urgent[0].Level1?
    ensures Inv(Process(s, env))
  {
    var s1 := s.(urgent := s.urgent[1..]);
    PopUrgent(s.urgent, Level0);
    PopUrgent(s.urgent, Level1);
    PopUrgent(s.urgent, Level2);
    if !s.b.state.NoBind? {
      BI.EnterKeeps(s.b, env, Pending(s.urgent, Level1), EvBindingTick in s.queue);
      ApplyBindKeeps(s1, B.On(s.b.(lock := false), Enter(Level1), env));
    }
  }

  lemma EnterPollKeeps(s: Dev, env: Env)
    requires Inv(s) && s.urgent != [] && s.urgent[0].Level2?
    ensures Inv(Process(s, env))
  {
    var s1 := s.(urgent := s.urgent[1..]);
    PopUrgent(s.urgent, Level0);
    PopUrgent(s.urgent, Level1);
    PopUrgent(s.urgent, Level2);
    if !s.p.state.NoPoll? {
      P.EnterKeeps(s.p, s.flags, env, Pending(s.urgent, Level2));
      ApplyPollKeeps(s1, P.On(s.p.(lock := false), Enter(Level2), s.flags, env));
      AliveWithMore(s.b, EvBindingTick in s.queue);
    }
  }

  lemma EnterKeeps(s: Dev, env: Env)
    requires Inv(s) && s.urgent != []
    ensures Inv(Process(s, env))
  {
    match s.urgent[0]
    case Level0 => EnterTopKeeps(s, env);
    case Level1 => EnterBindKeeps(s, env);
    case Level2 => EnterPollKeeps(s, env);
  }

  /** Changing to a state that a reload asks for, from anywhere, before the timer is armed. */
  lemma ReloadTargetIsOff(s: Dev, t: Top)
    requires TopInv(s) && !s.lock0 && (t.Init? || t.ActiveEndpoints?)
    requires BI.BindInv(s.b, Pending(s.urgent, Level1)) && P.PollInv(s.p, Pending(s.urgent, Level2))
    ensures Off(SetTop(s, t)) && SetTop(s, t).top == t
  {
    if s.top.Idle? {
      LeaveIdleKeeps(s, t);
    }
  }

  lemma ArmedReload(s: Dev)
    requires Off(s) && (s.top.Init? || s.top.ActiveEndpoints?)
    ensures Inv(s.(timer0 := true)) && Inv(s.(b := s.b.(c := s.b.c.(checkRound := 0)), timer0 := true))
  {
    OffIsInv(s.(timer0 := true));
    OffIsInv(s.(b := s.b.(c := s.b.c.(checkRound := 0)), timer0 := true));
  }

  /** The two reload events work in every state; they may leave Idle at any time. */
  lemma ReloadKeeps(s: Dev, e: Event, env: Env)
    requires TopInv(s) && !s.lock0 && (e.EvDDFReload? || e.EvZdpReload?)
    requires BI.BindInv(s.b, Pending(s.urgent, Level1)) && P.PollInv(s.p, Pending(s.urgent, Level2))
    ensures Inv(HandleEvent(s, e, env))
  {
    var t := if e.EvDDFReload? then Init else ActiveEndpoints;
    ReloadTargetIsOff(s, t);
    ArmedReload(SetTop(s, t));
  }

  lemma TailKeepsTick(queue: seq<Event>)
    requires queue != []
    ensures EvBindingTick in queue && queue[0] != EvBindingTick ==> EvBindingTick in queue[1..]
  {
    assert queue == [queue[0]] + queue[1..];
  }

  lemma EventInIdleKeeps(s: Dev, env: Env)
    requires Inv(s) && s.urgent == [] && s.queue != [] && s.top.Idle?
    ensures Inv(OnIdle(s.(queue := s.queue[1..]), Ev(s.queue[0]), env))
  {
    TailKeepsTick(s.queue);
    IdleEventKeeps(s.(queue := s.queue[1..]), s.queue[0], env);
  }

  lemma EventOutsideIdleKeeps(s: Dev, env: Env)
    requires Inv(s) && s.urgent == [] && s.queue != [] && !s.top.Idle?
    ensures Inv(OnTop(s.(queue := s.queue[1..]), Ev(s.queue[0]), env))
  {
    OffKeeps(s.(queue := s.queue[1..]), Ev(s.queue[0]), env);
  }

  lemma ReloadEventKeeps(s: Dev, env: Env)
    requires Inv(s) && s.urgent == [] && s.queue != [] && (s.queue[0].EvDDFReload? || s.queue[0].EvZdpReload?)
    ensures Inv(HandleEvent(s.(queue := s.queue[1..]), s.queue[0], env))
  {
    ReloadKeeps(s.(queue := s.queue[1..]), s.queue[0], env);
  }

  ghost predicate LosesNothing(s: Dev, r: Dev) { r.lost == s.lost && r.lostQueued == s.lostQueued }

  /** A handler loses nothing, provided no level it passes the event on to is locked. */
  lemma OnTopLosesNothing(s: Dev, m: Message, env: Env)
    requires s.top.Idle? && !m.Enter? ==> !s.b.lock && !s.p.lock
    ensures LosesNothing(s, OnTop(s, m, env))
  {
    InitLosesNothing(s, m, env);
    QueriesLoseNothing(s, m, env);
    if s.top.Idle? {
      IdleLosesNothing(s, m, env);
    }
    OthersLoseNothing(s, m);
    assert LosesNothing(s, s);
    hide LosesNothing, OnInit, OnNodeDescriptor, OnActiveEndpoints, OnSimpleDescriptor, OnBasicCluster, OnIdle;
    hide OnGetDeviceDescription, OnDead;
  }

  lemma OthersLoseNothing(s: Dev, m: Message)
    ensures LosesNothing(s, OnGetDeviceDescription(s, m)) && LosesNothing(s, OnDead(s, m))
  {
    hide SetTop;
    SetTopLosesNothing();
  }

  lemma InitLosesNothing(s: Dev, m: Message, env: Env)
    ensures LosesNothing(s, OnInit(s, m, env))
  {
    hide SetTop;
    SetTopLosesNothing();
  }

  lemma QueriesLoseNothing(s: Dev, m: Message, env: Env)
    ensures LosesNothing(s, OnNodeDescriptor(s, m, env)) && LosesNothing(s, OnActiveEndpoints(s, m, env))
    ensures LosesNothing(s, OnSimpleDescriptor(s, m, env)) && LosesNothing(s, OnBasicCluster(s, m, env))
  {
    hide SetTop, EndpointToFetch, NextEndpoint;
    SetTopLosesNothing();
  }

  lemma IdleLosesNothing(s: Dev, m: Message, env: Env)
    requires !m.Enter? ==> !s.b.lock && !s.p.lock
    ensures LosesNothing(s, OnIdle(s, m, env))
  {
    hide B.On, P.On, B.SetBind, P.SetPoll;
  }

  lemma SetTopLosesNothing()
    ensures forall s, t :: LosesNothing(s, SetTop(s, t))
  {
    hide B.SetBind, P.SetPoll;
  }

  lemma HandleEventLosesNothing(s: Dev, e: Event, env: Env)
    requires !s.lock0 && (s.top.Idle? ==> !s.b.lock && !s.p.lock)
    ensures HandleEvent(s, e, env).lost == s.lost
  {
    OnTopLosesNothing(s, Ev(e), env);
  }

  lemma EventKeeps(s: Dev, env: Env)
    requires Inv(s) && s.urgent == [] && s.queue != []
    ensures Inv(Process(s, env))
  {
    HandleEventKeeps(s, env);
    NothingIsLocked(s);
    HandleEventLosesNothing(s.(queue := s.queue[1..]), s.queue[0], env);
    hide Inv, HandleEvent;
  }

  lemma HandleEventKeeps(s: Dev, env: Env)
    requires Inv(s) && s.urgent == [] && s.queue != []
    ensures Inv(HandleEvent(s.(queue := s.queue[1..]), s.queue[0], env))
  {
    NothingIsLocked(s);
    hide Inv, OnTop;
    if s.queue[0].EvDDFReload? || s.queue[0].EvZdpReload? {
      ReloadEventKeeps(s, env);
    } else {
      PassedOnKeeps(s, env);
    }
  }

  lemma PassedOnKeeps(s: Dev, env: Env)
    requires Inv(s) && s.urgent == [] && s.queue != []
    ensures Inv(OnTop(s.(queue := s.queue[1..]), Ev(s.queue[0]), env))
  {
    hide Inv, OnInit, OnNodeDescriptor, OnActiveEndpoints, OnSimpleDescriptor, OnBasicCluster, OnIdle;
    if s.top.Idle? {
      EventInIdleKeeps(s, env);
    } else {
      EventOutsideIdleKeeps(s, env);
    }
  }

  /** With no StateEnter queued no level is locked. */
  lemma NothingIsLocked(s: Dev)
    requires Inv(s) && s.urgent == []
    ensures !s.lock0 && !s.b.lock && !s.p.lock
  {
  }

  lemma FireKeeps(s: Dev, l: Level, env: Env)
    requires Inv(s)
    ensures Inv(FireTimer(s, l, env))
  {
    match l
    case Level0 =>
      if s.timer0 {
        OffKeeps(s.(timer0 := false), Timeout(Level0), env);
      }
    case Level1 =>
      if s.b.timer {
        BI.TimeoutKeeps(s.b, env, Pending(s.urgent, Level1), EvBindingTick in s.queue);
        ApplyBindKeeps(s, B.On(s.b.(timer := false), Timeout(Level1), env));
      }
    case Level2 =>
      if s.p.timer {
        P.TimeoutKeeps(s.p, s.flags, env, Pending(s.urgent, Level2));
        ApplyPollKeeps(s, P.On(s.p.(timer := false), Timeout(Level2), s.flags, env));
        AliveWithMore(s.b, EvBindingTick in s.queue);
      }
  }

  lemma ConstructKeeps(s: Dev)
    requires Inv(s)
    ensures Inv(SetTop(s, Init))
  {
    if s.top.Idle? {
      LeaveIdleKeeps(s, Init);
      OffIsInv(SetTop(s, Init));
    } else if s.top != Init {
      SetTopKeeps(s, Init);
    }
  }

  lemma ClearKeeps(s: Dev)
    requires Inv(s)
    ensures Inv(Next(s, Clear))
  {
    if !s.b.state.NoBind? {
      assert BI.Kept(B.ClearBindings(s.b), Pending(s.urgent, Level1), EvBindingTick in s.queue);
      ApplyBindKeeps(s, B.ClearBindings(s.b));
    }
  }

  lemma LosingKeeps(s: Dev)
    requires Inv(s)
    ensures Inv(s.(lost := s.lost + 1))
  {
  }

  lemma OutsideCallsKeep(s: Dev, step: Step)
    requires Inv(s)
    requires step.Arrive? || step.SetMgmtBind? || step.SetManaged?
    ensures Inv(Next(s, step))
  {
    AliveWithMore(s.b, EvBindingTick in s.queue);
  }

  lemma AddKeeps(s: Dev, bnd: B.Binding)
    requires Inv(s)
    ensures Inv(Next(s, Add(bnd)))
  {
    BI.AddBindingKeeps(s.b, bnd, Pending(s.urgent, Level1));
  }

  lemma ReloadNowKeeps(s: Dev, env: Env)
    requires Inv(s)
    ensures Inv(HandleEvent(s, EvDDFReload, env))
  {
    if s.lock0 {
      LosingKeeps(s);
    } else {
      ReloadKeeps(s, EvDDFReload, env);
    }
  }

  lemma StepKeeps(s: Dev, step: Step)
    requires Inv(s)
    ensures Inv(Next(s, step))
  {
    hide Inv, HandleEvent, FireTimer, SetTop, ApplyBind, B.AddBinding, B.ClearBindings, DeliverEnter;
    match step
    case Deliver(env) =>
      if s.urgent != [] { EnterKeeps(s, env); } else if s.queue != [] { EventKeeps(s, env); }
    case Fire(l, env) => FireKeeps(s, l, env);
    case Add(bnd) => AddKeeps(s, bnd);
    case Clear => ClearKeeps(s);
    case Construct => ConstructKeeps(s);
    case ReloadNow(env) => ReloadNowKeeps(s, env);
    case _ => OutsideCallsKeep(s, step);
  }

  /** Every reachable state satisfies the invariant. */
  lemma {:induction false} Reachable(steps: seq<Step>)
    ensures Inv(Run(steps))
  {
    if steps != [] {
      Reachable(steps[..|steps| - 1]);
      StepKeeps(Run(steps[..|steps| - 1]), steps[|steps| - 1]);
    }
  }
}
