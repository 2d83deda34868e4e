/** The ledger of the report trackers over runs of the whole device. */
module DeviceTrackers {
  import opened ReportCheck
  import opened DeviceData
  import opened DeviceMachine
  import opened BindingTrackers
  import B = BindingMachine
  import P = PollMachine
  import R = DeviceRuns

  // ----- Level 0 touches no tracker -----

  lemma SetTopTouchesNothing()
    ensures forall s: Dev, t: Top :: Untouched(s.b, SetTop(s, t).b) && SetTop(s, t).b.c.bindings == s.b.c.bindings
  {
    hide P.SetPoll;
  }

  lemma InitTouchesNothing(s: Dev, m: Message, env: Env)
    ensures Untouched(s.b, OnInit(s, m, env).b)
  {
    SetTopTouchesNothing();
    var s1 := if m.Enter? then SetZdp(s, NO_ZDP) else s;
    var s2 := s1.(flags := s1.flags.(initialRun := false), b := s1.b.(c := s1.b.c.(checkRound := 0)));
    assert SameReports(s.b.c.bindings, s.b.c.bindings);
    hide SetTop, SameReports;
    assert Untouched(s.b, SetTop(s1, Dead).b);
    assert Untouched(s.b, SetTop(s2, NodeDescriptor).b) && Untouched(s.b, SetTop(s2, Zgp).b);
    assert Untouched(s.b, s1.b) && Untouched(s.b, s2.b);
    hide Untouched;
  }

  lemma QueriesTouchNothing(s: Dev, m: Message, env: Env)
    ensures Untouched(s.b, OnNodeDescriptor(s, m, env).b) && Untouched(s.b, OnActiveEndpoints(s, m, env).b)
  {
    hide SetTop;
    SetTopTouchesNothing();
    assert SameReports(s.b.c.bindings, s.b.c.bindings);
    hide SameReports;
  }

  lemma LaterQueriesTouchNothing(s: Dev, m: Message, env: Env)
    ensures Untouched(s.b, OnSimpleDescriptor(s, m, env).b) && Untouched(s.b, OnBasicCluster(s, m, env).b)
  {
    hide SetTop, EndpointToFetch, NextEndpoint;
    SetTopTouchesNothing();
    assert SameReports(s.b.c.bindings, s.b.c.bindings);
    hide SameReports;
  }

  lemma OnTopTouchesNothing(s: Dev, m: Message, env: Env)
    requires !s.top.Idle?
    ensures Untouched(s.b, OnTop(s, m, env).b)
  {
    InitTouchesNothing(s, m, env);
    QueriesTouchNothing(s, m, env);
    LaterQueriesTouchNothing(s, m, env);
    hide OnInit, OnNodeDescriptor, OnActiveEndpoints, OnSimpleDescriptor, OnBasicCluster, SetTop;
    SetTopTouchesNothing();
  }

  lemma EnterIdleTouchesNothing(s: Dev)
    ensures Untouched(s.b, EnterIdle(s).b)
  {
    hide P.SetPoll;
  }

  // ----- Idle -----

  lemma IdleEventTracks(s: Dev, m: Message, env: Env, asks: set<B.Ask>)
    requires !s.b.lock && !m.Enter? && TrackInv(s.b, asks)
    ensures TrackInv(OnIdle(s, m, env).b, asks)
  {
    OnTracks(s.b, m, env, asks);
    hide B.On, P.On, TrackInv;
  }

  // ----- Every step, every run -----

  lemma EnterTracksTop(s: Dev, env: Env, asks: set<B.Ask>)
    requires R.Inv(s) && s.urgent != [] && TrackInv(s.b, asks)
    ensures TrackInv(Process(s, env).b, asks)
  {
    var s1 := s.(urgent := s.urgent[1..]);
    match s.urgent[0]
    case Level0 =>
      if s.top.Idle? {
        EnterIdleTouchesNothing(s1.(lock0 := false));
        UntouchedKeeps(s.b, EnterIdle(s1.(lock0 := false)).b, asks);
      } else {
        OnTopTouchesNothing(s1.(lock0 := false), Enter(Level0), env);
        UntouchedKeeps(s.b, OnTop(s1.(lock0 := false), Enter(Level0), env).b, asks);
      }
    case Level1 =>
      R.PopUrgent(s.urgent, Level1);
      EnterTracks(s.b, env, R.Pending(s.urgent, Level1), asks);
    case Level2 =>
  }

  lemma ReloadTracks(s: Dev, t: Top, asks: set<B.Ask>)
    requires TrackInv(s.b, asks)
    ensures TrackInv(Reload(s, t).b, asks)
  {
    SetTopTouchesNothing();
    hide SetTop;
    UntouchedKeeps(s.b, Reload(s, t).b, asks);
  }

  lemma EventTracks(s: Dev, e: Event, env: Env, asks: set<B.Ask>)
    requires TrackInv(s.b, asks) && !s.lock0 && (s.top.Idle? ==> !s.b.lock)
    ensures TrackInv(HandleEvent(s, e, env).b, asks)
  {
    hide TrackInv, Untouched, Reload, OnIdle;
    if e.EvDDFReload? || e.EvZdpReload? {
      ReloadTracks(s, if e.EvDDFReload? then Init else ActiveEndpoints, asks);
    } else if s.top.Idle? {
      IdleEventTracks(s, Ev(e), env, asks);
    } else {
      hide OnTop;
      OnTopTouchesNothing(s, Ev(e), env);
      UntouchedKeeps(s.b, OnTop(s, Ev(e), env).b, asks);
    }
  }

  lemma FireTracks(s: Dev, l: Level, env: Env, asks: set<B.Ask>)
    requires R.Inv(s) && TrackInv(s.b, asks)
    ensures TrackInv(FireTimer(s, l, env).b, asks)
  {
    match l
    case Level0 =>
      if s.timer0 {
        OnTopTouchesNothing(s.(timer0 := false), Timeout(l), env);
        UntouchedKeeps(s.b, OnTop(s.(timer0 := false), Timeout(l), env).b, asks);
      }
    case Level1 =>
      if s.b.timer {
        UntouchedKeeps(s.b, s.b.(timer := false), asks);
        OnTracks(s.b.(timer := false), Timeout(l), env, asks);
      }
    case Level2 =>
  }

  /** The reports that a step adds. */
  function AddedBy(step: Step): set<B.Ask>
  {
    if step.Add? then AsksOfBinding(step.binding) else {}
  }

  function AsksOfBinding(bnd: B.Binding): set<B.Ask>
  {
    set i | 0 <= i < |bnd.reporting| :: B.AskOf(bnd, i)
  }

  /** Every report that a run ever added. */
  function Added(steps: seq<Step>): set<B.Ask>
  {
    if steps == [] then {} else Added(steps[..|steps| - 1]) + AddedBy(steps[|steps| - 1])
  }

  lemma {:induction false} MergedIsAdded(bnd: B.Binding, reports: seq<Report>, more: seq<Report>, asks: set<B.Ask>)
    requires AllIn(bnd.(reporting := reports), asks) && AllIn(bnd.(reporting := more), asks)
    ensures AllIn(bnd.(reporting := B.MergeReports(reports, more)), asks)
  {
    if more != [] {
      var front, last := more[..|more| - 1], |more| - 1;
      assert forall i :: 0 <= i < last ==>
          B.AskOf(bnd.(reporting := front), i) == B.AskOf(bnd.(reporting := more), i);
      MergedIsAdded(bnd, reports, front, asks);
      var merged := B.MergeReports(reports, front);
      assert B.AskOf(bnd.(reporting := more), last) in asks;
      forall i | 0 <= i < |merged + [more[last]]|
        ensures B.AskOf(bnd.(reporting := merged + [more[last]]), i) in asks
      {
        if i < |merged| {
          assert B.AskOf(bnd.(reporting := merged), i) in asks;
        }
      }
    }
  }

  lemma AddingKeepsWanted(c: B.Context, bnd: B.Binding, asks: set<B.Ask>)
    requires WantedIn(c.bindings, asks)
    ensures WantedIn(B.AddBinding(c, bnd).bindings, asks + AsksOfBinding(bnd))
  {
    var more := asks + AsksOfBinding(bnd);
    assert AllIn(bnd, more) by {
      forall i | 0 <= i < |bnd.reporting|
        ensures B.AskOf(bnd, i) in more
      {
      }
    }
    var i := B.FindBinding(c.bindings, bnd);
    assert forall n :: 0 <= n < |c.bindings| ==> AllIn(c.bindings[n], asks);
    if i < |c.bindings| {
      var at := c.bindings[i];
      assert AllIn(at.(reporting := bnd.reporting), more) by {
        assert forall k :: 0 <= k < |bnd.reporting| ==> B.AskOf(at.(reporting := bnd.reporting), k) == B.AskOf(bnd, k);
      }
      assert at.(reporting := at.reporting) == at;
      MergedIsAdded(at, at.reporting, bnd.reporting, more);
    } else {
      assert forall d :: forall k :: 0 <= k < |bnd.reporting| ==>
          B.AskOf(bnd.(dstEndpoint := d), k) == B.AskOf(bnd, k);
    }
  }

  lemma AddTracks(s: Dev, bnd: B.Binding, asks: set<B.Ask>)
    requires TrackInv(s.b, asks)
    ensures TrackInv(Next(s, Add(bnd)).b, asks + AsksOfBinding(bnd))
  {
    AddingKeepsWanted(s.b.c, bnd, asks);
    var r := Next(s, Add(bnd)).b;
    hide B.FindBinding, AsksOfBinding, WantedIn;
    assert LedgerAlone(s.b, r);
    hide B.AddBinding;
    NewBindingsKeep(s.b, r, asks, asks + AsksOfBinding(bnd));
  }

  lemma ClearTracks(s: Dev, asks: set<B.Ask>)
    requires TrackInv(s.b, asks)
    ensures TrackInv(Next(s, Clear).b, asks)
  {
    NewBindingsKeep(s.b, Next(s, Clear).b, asks, asks);
  }

  lemma OutsideTracks(s: Dev, step: Step, asks: set<B.Ask>)
    requires TrackInv(s.b, asks)
    requires step.Arrive? || step.SetMgmtBind? || step.SetManaged?
    ensures TrackInv(Next(s, step).b, asks)
  {
    assert Untouched(s.b, Next(s, step).b);
    hide TrackInv, Untouched;
    UntouchedKeeps(s.b, Next(s, step).b, asks);
  }

  lemma StepTracks(s: Dev, step: Step, asks: set<B.Ask>)
    requires R.Inv(s) && TrackInv(s.b, asks)
    ensures TrackInv(Next(s, step).b, asks + AddedBy(step))
  {
    assert !step.Add? ==> asks + AddedBy(step) == asks;
    match step
    case Deliver(env) =>
      if s.urgent != [] {
        EnterTracksTop(s, env, asks);
      } else if s.queue != [] {
        EventTracks(s.(queue := s.queue[1..]), s.queue[0], env, asks);
      }
    case Fire(l, env) => FireTracks(s, l, env, asks);
    case Add(bnd) => AddTracks(s, bnd, asks);
    case Clear => ClearTracks(s, asks);
    case Construct =>
      SetTopTouchesNothing();
      UntouchedKeeps(s.b, SetTop(s, Init).b, asks);
    case ReloadNow(env) =>
      if !s.lock0 {
        ReloadTracks(s, Init, asks);
      }
    case _ => OutsideTracks(s, step, asks);
  }

  lemma {:induction false} TrackersReachable(steps: seq<Step>)
    ensures TrackInv(Run(steps).b, Added(steps))
  {
    if steps != [] {
      var front := steps[..|steps| - 1];
      TrackersReachable(front);
      R.Reachable(front);
      StepTracks(Run(front), steps[|steps| - 1], Added(front));
    }
  }
}
