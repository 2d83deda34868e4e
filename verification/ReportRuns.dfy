/** Runs of the device from construction on, up to the states in which a report check goes wrong. */
module ReportRuns {
  import opened Basics
  import opened ReportCheck
  import opened DeviceData
  import opened BindingMachine
  import opened ReportPhase
  import M = DeviceMachine
  import P = PollMachine

  // ----- Driving the binding machine of an idle device -----

  /** A device in Idle whose poll machine rests. */
  predicate Resting(base: M.Dev)
  {
    base.top.Idle? && !base.lock0 && base.p.state.PollIdle? && !base.p.lock
  }

  /** The device with this binding machine, its StateEnter and its tick queued. */
  function At(base: M.Dev, b: Machine, tick: bool): M.Dev
  {
    base.(b := b, urgent := if b.lock then [Level1] else [], queue := if tick then [EvBindingTick] else [])
  }

  ghost predicate Reachable(s: M.Dev) { exists steps :: M.Run(steps) == s }

  ghost predicate Reach(base: M.Dev, b: Machine, tick: bool) { Reachable(At(base, b, tick)) }

  lemma Go(s: M.Dev, step: M.Step)
    requires Reachable(s)
    ensures Reachable(M.Next(s, step))
  {
    var steps :| M.Run(steps) == s;
    assert (steps + [step])[..|steps|] == steps;
    assert M.Run(steps + [step]) == M.Next(s, step);
  }

  /** A handler queued a StateEnter exactly when it left its level locked. */
  predicate Fits(o: Out) { o.b.lock == o.enter && !o.b.state.NoBind? }

  lemma DoEnter(base: M.Dev, b: Machine, env: Env)
    requires Resting(base) && Reach(base, b, false) && b.lock && Fits(On(b.(lock := false), Enter(Level1), env))
    ensures var o := On(b.(lock := false), Enter(Level1), env); Reach(base, o.b, o.tick)
  {
    hide On;
    var o := On(b.(lock := false), Enter(Level1), env);
    assert M.Next(At(base, b, false), M.Deliver(env)) == At(base, o.b, o.tick);
    Go(At(base, b, false), M.Deliver(env));
  }

  lemma DoTick(base: M.Dev, b: Machine, env: Env)
    requires Resting(base) && Reach(base, b, true) && !b.lock && Fits(On(b, Ev(EvBindingTick), env))
    ensures var o := On(b, Ev(EvBindingTick), env); Reach(base, o.b, o.tick)
  {
    hide On;
    var o := On(b, Ev(EvBindingTick), env);
    assert M.Next(At(base, b, true), M.Deliver(env)) == At(base, o.b, o.tick);
    Go(At(base, b, true), M.Deliver(env));
  }

  /** Events that the resting poll machine ignores. */
  predicate OfLevel1(e: Event)
  {
    || e.EvBindingTick? || e.EvReportConfig? || e.EvZclResponse? || e.EvZdpResponse? || e.EvApsConfirm?
    || e.EvMgmtBindResponse?
  }

  /** An outside event arrives and is delivered. */
  lemma DoEvent(base: M.Dev, b: Machine, e: Event, env: Env)
    requires Resting(base) && Reach(base, b, false) && !b.lock && Fits(On(b, Ev(e), env))
    requires OfLevel1(e)
    ensures var o := On(b, Ev(e), env); Reach(base, o.b, o.tick)
  {
    hide On;
    var o := On(b, Ev(e), env);
    var s := At(base, b, false);
    var s1 := M.Next(s, M.Arrive(e));
    assert s1 == s.(queue := [e]);
    assert M.Next(s1, M.Deliver(env)) == At(base, o.b, o.tick) by {
      hide At, Reachable;
      assert s1.queue[1..] == [];
      assert M.HandleEvent(s, e, env) == M.ApplyBind(s, o) by { EventReachesLevel1(base, b, e, env); }
      EventFits(base, b, o);
    }
    Go(s, M.Arrive(e));
    Go(s1, M.Deliver(env));
  }

  lemma EventReachesLevel1(base: M.Dev, b: Machine, e: Event, env: Env)
    requires Resting(base) && !b.lock
    requires OfLevel1(e)
    ensures M.HandleEvent(At(base, b, false), e, env) == M.ApplyBind(At(base, b, false), On(b, Ev(e), env))
  {
    hide On;
  }

  lemma EventFits(base: M.Dev, b: Machine, o: Out)
    requires !b.lock && Fits(o)
    ensures M.ApplyBind(At(base, b, false), o) == At(base, o.b, o.tick)
    ensures M.ApplyBind(At(base, b, false), o).lost == base.lost
  {
  }

  lemma DoTimeout(base: M.Dev, b: Machine, env: Env)
    requires Resting(base) && Reach(base, b, false) && b.timer && !b.lock
    requires Fits(On(b.(timer := false), Timeout(Level1), env))
    ensures var o := On(b.(timer := false), Timeout(Level1), env); Reach(base, o.b, o.tick)
  {
    hide On;
    var o := On(b.(timer := false), Timeout(Level1), env);
    assert M.Next(At(base, b, false), M.Fire(Level1, env)) == At(base, o.b, o.tick);
    Go(At(base, b, false), M.Fire(Level1, env));
  }

  lemma DoAdd(base: M.Dev, b: Machine, bnd: Binding)
    requires Reach(base, b, false)
    ensures Reach(base, b.(c := AddBinding(b.c, bnd)), false)
  {
    hide AddBinding;
    Go(At(base, b, false), M.Add(bnd));
    assert M.Next(At(base, b, false), M.Add(bnd)) == At(base, b.(c := AddBinding(b.c, bnd)), false);
  }

  lemma DoClear(base: M.Dev, b: Machine)
    requires Reach(base, b, false) && b.state.BindingHandler?
    ensures Reach(base, b.(c := b.c.(bindings := [], tBound := [])), false)
  {
    Go(At(base, b, false), M.Clear);
    assert M.Next(At(base, b, false), M.Clear) == At(base, b.(c := b.c.(bindings := [], tBound := [])), false);
  }

  // ----- From construction to Idle -----

  /** A device that answers everything; the core's binding table confirms every binding just now. */
  function World(now: int): Env
  {
    Env(true, false, false, true, [1], {1}, true, true, true, false, ZdpResult(true, 1, 1), ZclResult(true, 1, 1),
        NO_READ, 0, now, 1, None, Some(now), [], {}, false, [], false)
  }

  /** The binding machine in BindingHandler, before any binding is known. */
  function Fresh(): Machine
  {
    START.(state := BindingHandler, c := START.c.(mgmtBind := NotSupported))
  }

  /** On the way up: the StateEnter of the level 0 state is the only event queued. */
  predicate Entering(s: M.Dev, t: Top)
  {
    && s.top == t && s.lock0 && !s.timer0 && s.urgent == [Level0] && s.queue == []
    && s.b == START && s.p == P.START && s.lost == 0 && s.lostQueued == 0
    && !s.flags.needReadActive && !s.flags.needReadSimple
  }

  lemma LeaveInit(now: int)
    ensures Entering(M.Next(M.Next(M.START, M.Construct), M.Deliver(World(now))), NodeDescriptor)
  {
  }

  lemma LeaveNodeDescriptor(s: M.Dev, now: int)
    requires Entering(s, NodeDescriptor)
    ensures Entering(M.Next(s, M.Deliver(World(now))), ActiveEndpoints)
  {
  }

  lemma LeaveActiveEndpoints(s: M.Dev, now: int)
    requires Entering(s, ActiveEndpoints)
    ensures Entering(M.Next(s, M.Deliver(World(now))), SimpleDescriptor)
  {
  }

  lemma LeaveSimpleDescriptor(s: M.Dev, now: int)
    requires Entering(s, SimpleDescriptor)
    ensures Entering(M.Next(s, M.Deliver(World(now))), BasicCluster)
  {
    assert World(now).endpoints[1..] == [];
    assert M.FirstUndescribed(World(now).endpoints, World(now).described) == 0;
  }

  lemma LeaveBasicCluster(s: M.Dev, now: int)
    requires Entering(s, BasicCluster)
    ensures Entering(M.Next(s, M.Deliver(World(now))), GetDeviceDescription)
  {
  }

  lemma ReachDescription(now: int) returns (s: M.Dev)
    ensures Reachable(s) && Entering(s, GetDeviceDescription)
  {
    var step := M.Deliver(World(now));
    assert M.Run([]) == M.START;
    LeaveInit(now);
    hide M.Next, Entering;
    Go(M.START, M.Construct);
    s := M.Next(M.START, M.Construct);
    Go(s, step);
    s := M.Next(s, step);
    LeaveNodeDescriptor(s, now);
    Go(s, step);
    s := M.Next(s, step);
    LeaveActiveEndpoints(s, now);
    Go(s, step);
    s := M.Next(s, step);
    LeaveSimpleDescriptor(s, now);
    Go(s, step);
    s := M.Next(s, step);
    LeaveBasicCluster(s, now);
    Go(s, step);
    s := M.Next(s, step);
  }

  /** The DDF is asked for and found. */
  lemma LeaveDescription(s: M.Dev, now: int)
    requires Entering(s, GetDeviceDescription)
    ensures var step := M.Deliver(World(now));
      Entering(M.Next(M.Next(M.Next(M.Next(s, step), step), M.Arrive(EvDDFInitResponse(1))), step), Idle)
  {
    var step := M.Deliver(World(now));
    var s1 := M.Next(s, step);
    assert s1 == s.(lock0 := false, urgent := [], queue := [EvDDFInitRequest]);
    var s2 := M.Next(s1, step);
    assert s2 == s1.(queue := []);
    var s3 := M.Next(s2, M.Arrive(EvDDFInitResponse(1)));
    assert s3 == s2.(queue := [EvDDFInitResponse(1)]);
  }

  /** Idle starts both sub-machines, which then rest. */
  lemma StartIdle(s: M.Dev, now: int)
    requires Entering(s, Idle)
    ensures var step := M.Deliver(World(now));
      var r := M.Next(M.Next(M.Next(M.Next(s, step), step), step), M.SetMgmtBind(false));
      Resting(r) && r == At(r, Fresh(), false)
  {
    var step := M.Deliver(World(now));
    var s1 := M.Next(s, step);
    assert s1 == s.(lock0 := false, urgent := [Level1, Level2], b := START.(state := BindingHandler, lock := true),
                    p := P.START.(state := PollIdle, lock := true));
    var s2 := M.Next(s1, step);
    assert s2 == s1.(urgent := [Level2], b := START.(state := BindingHandler));
    var s3 := M.Next(s2, step);
    assert s3 == s2.(urgent := [], p := P.START.(state := PollIdle));
  }

  lemma ReachIdle(now: int) returns (base: M.Dev)
    ensures Resting(base) && Reach(base, Fresh(), false)
  {
    var step := M.Deliver(World(now));
    var s := ReachDescription(now);
    LeaveDescription(s, now);
    hide M.Next, Entering;
    Go(s, step);
    s := M.Next(s, step);
    Go(s, step);
    s := M.Next(s, step);
    Go(s, M.Arrive(EvDDFInitResponse(1)));
    s := M.Next(s, M.Arrive(EvDDFInitResponse(1)));
    Go(s, step);
    s := M.Next(s, step);
    StartIdle(s, now);
    Go(s, step);
    s := M.Next(s, step);
    Go(s, step);
    s := M.Next(s, step);
    Go(s, step);
    s := M.Next(s, step);
    Go(s, M.SetMgmtBind(false));
    base := M.Next(s, M.SetMgmtBind(false));
  }

  // ----- Parts of a round of the binding machine -----

  /** Every binding is a unicast binding that the core's table confirms. */
  predicate Bound(c: Context, now: int)
  {
    && |c.tBound| == |c.bindings|
    && (forall i :: 0 <= i < |c.tBound| ==> 0 <= c.tBound[i] <= now)
    && (forall i :: 0 <= i < |c.bindings| ==> c.bindings[i].dst.Unicast? && c.bindings[i].dst.ext != 0)
  }

  predicate Handling(b: Machine)
  {
    b.state.BindingHandler? && !b.lock && !b.timer && b.c.mgmtBind.NotSupported?
  }

  predicate Verifying(b: Machine)
  {
    b.state.TableVerify? && b.lock && !b.timer && b.c.mgmtBind.NotSupported?
  }

  predicate AtReport(b: Machine)
  {
    b.state.ReadReport? && b.lock && !b.timer && b.c.mgmtBind.NotSupported? && b.c.bindingIter < |b.c.bindings|
  }

  /** A tick starts a round. */
  lemma StartRound(base: M.Dev, b: Machine, now: int) returns (r: Machine)
    requires Resting(base) && Reach(base, b, false) && Handling(b) && b.c.bindings != []
    ensures Reach(base, r, false) && Verifying(r)
    ensures r == b.(state := TableVerify, lock := true, c := b.c.(bindingIter := 0))
  {
    r := b.(state := TableVerify, lock := true, c := b.c.(bindingIter := 0));
    assert On(b, Ev(EvBindingTick), World(now)) == Out(r, true, false);
    DoEvent(base, b, EvBindingTick, World(now));
  }

  /** The next binding needs no bind request, so its reports are looked at. */
  lemma Visit(base: M.Dev, b: Machine, now: int) returns (r: Machine)
    requires Resting(base) && Reach(base, b, false) && Verifying(b) && now > 0
    requires Bound(b.c, now) && b.c.bindingIter < |b.c.bindings|
    ensures Reach(base, r, false) && AtReport(r)
    ensures r == b.(state := ReadReport,
                    c := b.c.(tBound := b.c.tBound[b.c.bindingIter := now], configIter := 0, reportIter := 0),
                    h := b.h.(asked := {}, covered := {}, skipped := map[], readsSent := 0, configsSent := 0))
  {
    var b1 := b.(lock := false);
    assert On(b1, Enter(Level1), World(now)) == Ticking(b1);
    DoEnter(base, b, World(now));
    var i := b.c.bindingIter;
    r := b.(state := ReadReport, c := b.c.(tBound := b.c.tBound[i := now], configIter := 0, reportIter := 0),
            h := b.h.(asked := {}, covered := {}, skipped := map[], readsSent := 0, configsSent := 0));
    VisitTick(b1, r, now);
    DoTick(base, b1, World(now));
  }

  lemma NoBindNeeded(t: int, now: int)
    requires now > 0 && 0 <= t <= now
    ensures !NeedBind(t, Some(now), now)
  {
    assert TruncDiv(0, 1000) == 0;
  }

  lemma VisitTick(b: Machine, r: Machine, now: int)
    requires b.state.TableVerify? && !b.lock && !b.timer && now > 0
    requires Bound(b.c, now) && b.c.bindingIter < |b.c.bindings|
    requires r == b.(state := ReadReport, lock := true,
                     c := b.c.(tBound := b.c.tBound[b.c.bindingIter := now], configIter := 0, reportIter := 0),
                     h := b.h.(asked := {}, covered := {}, skipped := map[], readsSent := 0, configsSent := 0))
    ensures On(b, Ev(EvBindingTick), World(now)) == Out(r, true, false)
  {
    var i := b.c.bindingIter;
    NoBindNeeded(b.c.tBound[i], now);
    assert 0 <= b.c.tBound[i] <= now;
    assert b.c.bindings[i].dst.Unicast? && b.c.bindings[i].dst.ext != 0;
    hide NeedBind, Bound;
    assert VerifyTick(b, World(now)) == VerifyEntry(b, i, World(now));
    assert VerifyEntry(b, i, World(now)) == StartPhase(b.(c := b.c.(tBound := b.c.tBound[i := now])));
  }

  /** Behind the last binding the round ends; there is nothing to unbind. */
  lemma EndRound(base: M.Dev, b: Machine, now: int) returns (r: Machine)
    requires Resting(base) && Reach(base, b, false) && Verifying(b) && b.c.bindingIter >= |b.c.bindings|
    ensures Reach(base, r, false) && Handling(r)
    ensures r == b.(state := BindingHandler, lock := false, c := b.c.(checkRound := b.c.checkRound + 1))
  {
    var env := World(now);
    var b1 := b.(lock := false);
    assert On(b1, Enter(Level1), env) == Ticking(b1);
    DoEnter(base, b, env);
    var b2 := b.(state := BindingRemove, c := b.c.(checkRound := b.c.checkRound + 1));
    assert On(b1, Ev(EvBindingTick), env) == Out(b2, true, false);
    DoTick(base, b1, env);
    var b3 := b2.(state := BindingIdle);
    assert On(b2.(lock := false), Enter(Level1), env) == Out(b3, true, false);
    DoEnter(base, b2, env);
    var b4 := b3.(lock := false, timer := true);
    assert On(b3.(lock := false), Enter(Level1), env) == Stay(b4);
    DoEnter(base, b3, env);
    r := GiveUp(base, b4, now);
  }

  /** A timeout leads back to BindingHandler. */
  lemma GiveUp(base: M.Dev, b: Machine, now: int) returns (r: Machine)
    requires Resting(base) && Reach(base, b, false) && !b.lock && b.timer && b.c.mgmtBind.NotSupported?
    requires b.state.BindingIdle? || b.state.ReadReport?
    ensures Reach(base, r, false) && Handling(r)
    ensures r == b.(state := BindingHandler, timer := false)
  {
    var env := World(now);
    r := b.(state := BindingHandler, timer := false);
    assert On(b.(timer := false), Timeout(Level1), env) == Out(r.(lock := true), true, false);
    DoTimeout(base, b, env);
    assert On(r, Enter(Level1), env) == Stay(r);
    DoEnter(base, r.(lock := true), env);
  }

  function AtBinding(b: Machine): Binding
    requires b.c.bindingIter < |b.c.bindings|
  {
    b.c.bindings[b.c.bindingIter]
  }

  /** The read request for a batch is sent. */
  lemma Read(base: M.Dev, b: Machine, now: int) returns (r: Machine)
    requires Resting(base) && Reach(base, b, false) && AtReport(b)
    requires AtBinding(b).reporting != [] && ReadBatch(AtBinding(b), b.c, now).picked != []
    ensures Reach(base, r, false)
    ensures var t := ReadBatch(AtBinding(b), b.c, now);
      var ledger := Asking(b.h.ledger, AsksOf(AtBinding(b), t.picked));
      r == b.(lock := false, timer := true,
              c := b.c.(reportIter := t.next, lastCheck := t.lastCheck, readMf := t.mf,
                        readRecords := Requests(AtBinding(b).reporting, t.picked), zcl := World(now).zcl),
              h := b.h.(skipped := b.h.skipped + SkippedBy(AtBinding(b), b.c.reportIter, now, t, ledger),
                        ledger := ledger, asked := ToSet(t.picked), readsSent := b.h.readsSent + 1))
  {
    r := On(b.(lock := false), Enter(Level1), World(now)).b;
    hide ReadBatch, AsksOf, Asking, SkippedBy, Requests;
    DoEnter(base, b, World(now));
  }

  /** Every report is passed over. */
  lemma ReadNothing(base: M.Dev, b: Machine, now: int) returns (r: Machine)
    requires Resting(base) && Reach(base, b, false) && AtReport(b)
    requires AtBinding(b).reporting != [] && ReadBatch(AtBinding(b), b.c, now).picked == []
    ensures Reach(base, r, false) && Verifying(r)
    ensures var t := ReadBatch(AtBinding(b), b.c, now);
      var ledger := Asking(b.h.ledger, AsksOf(AtBinding(b), t.picked));
      var skipped := b.h.skipped + SkippedBy(AtBinding(b), b.c.reportIter, now, t, ledger);
      && r.c == b.c.(reportIter := t.next, lastCheck := t.lastCheck, readMf := t.mf,
                     readRecords := Requests(AtBinding(b).reporting, t.picked), bindingIter := b.c.bindingIter + 1)
      && r.h.ledger == ledger
      && r.h.ended == b.h.ended + [PhaseEnd(b.h.covered, skipped, |AtBinding(b).reporting|, b.c.checkRound,
                                            b.h.readsSent, b.h.configsSent)]
  {
    r := On(b.(lock := false), Enter(Level1), World(now)).b;
    hide ReadBatch, AsksOf, Asking, SkippedBy, Requests;
    DoEnter(base, b, World(now));
  }

  function AnswerFor(r: Report): Answer
  {
    Answer(true, r.attributeId, r.minInterval, r.maxInterval, r.reportableChange)
  }

  /** The answer of a device that is configured as asked. */
  function FullAnswer(reports: seq<Report>, picked: seq<nat>, mf: nat): Response
    requires forall k :: 0 <= k < |picked| ==> picked[k] < |reports|
  {
    Response(mf, seq(|picked|, k requires 0 <= k < |picked| => AnswerFor(reports[picked[k]])))
  }

  lemma FullAnswerIsValid(reports: seq<Report>, picked: seq<nat>, mf: nat)
    requires DistinctReports(reports)
    requires forall k :: 0 <= k < |picked| ==> picked[k] < |reports| && reports[picked[k]].manufacturerCode == mf
    requires forall k, m :: 0 <= k < m < |picked| ==> picked[k] < picked[m]
    ensures ConfigurationValid(FullAnswer(reports, picked, mf), reports, Requests(reports, picked))
  {
    var rsp := FullAnswer(reports, picked, mf);
    forall k | 0 <= k < |picked|
      ensures AnsweredBy(rsp.answers, |rsp.answers|, reports[picked[k]])
    {
      assert Agrees(rsp.answers[k], reports[picked[k]]);
    }
    CountingIsSound(rsp, reports, Requests(reports, picked), picked);
  }

  /** The device answers as asked, and the batch was the last of its binding. */
  lemma Confirm(base: M.Dev, b: Machine, now: int, picked: seq<nat>) returns (r: Machine)
    requires Resting(base) && Reach(base, b, false) && b.state.ReadReport? && !b.lock && b.c.mgmtBind.NotSupported?
    requires b.c.bindingIter < |b.c.bindings| && b.c.reportIter >= |AtBinding(b).reporting|
    requires DistinctReports(AtBinding(b).reporting)
    requires forall k :: 0 <= k < |picked| ==>
      picked[k] < |AtBinding(b).reporting| && AtBinding(b).reporting[picked[k]].manufacturerCode == b.c.readMf
    requires forall k, m :: 0 <= k < m < |picked| ==> picked[k] < picked[m]
    requires b.c.readRecords == Requests(AtBinding(b).reporting, picked)
    ensures Reach(base, r, false) && Verifying(r)
    ensures r.c == b.c.(lastCheck := map k | k in b.c.lastCheck ::
                          if b.c.lastCheck[k] == BUSY_MARK then now else b.c.lastCheck[k],
                        bindingIter := b.c.bindingIter + 1)
    ensures r.h.ledger == Answering(b.h.ledger, b.c.lastCheck, now)
  {
    var reports := AtBinding(b).reporting;
    var rsp := FullAnswer(reports, picked, b.c.readMf);
    FullAnswerIsValid(reports, picked, b.c.readMf);
    r := On(b, Ev(EvReportConfig(Some(rsp))), World(now)).b;
    hide ConfigurationValid, Requests, Answering, FullAnswer;
    DoEvent(base, b, EvReportConfig(Some(rsp)), World(now));
  }

  /** The device answers as asked, and there is more to read. */
  lemma ConfirmMore(base: M.Dev, b: Machine, now: int, picked: seq<nat>) returns (r: Machine)
    requires Resting(base) && Reach(base, b, false) && b.state.ReadReport? && !b.lock && b.c.mgmtBind.NotSupported?
    requires b.c.bindingIter < |b.c.bindings| && b.c.reportIter < |AtBinding(b).reporting|
    requires DistinctReports(AtBinding(b).reporting)
    requires forall k :: 0 <= k < |picked| ==>
      picked[k] < |AtBinding(b).reporting| && AtBinding(b).reporting[picked[k]].manufacturerCode == b.c.readMf
    requires forall k, m :: 0 <= k < m < |picked| ==> picked[k] < picked[m]
    requires b.c.readRecords == Requests(AtBinding(b).reporting, picked)
    ensures Reach(base, r, false) && AtReport(r)
    ensures r.c == b.c.(lastCheck := map k | k in b.c.lastCheck ::
                          if b.c.lastCheck[k] == BUSY_MARK then now else b.c.lastCheck[k])
    ensures r.h == b.h.(covered := b.h.covered + b.h.asked, asked := {},
                        ledger := Answering(b.h.ledger, b.c.lastCheck, now))
  {
    var reports := AtBinding(b).reporting;
    var rsp := FullAnswer(reports, picked, b.c.readMf);
    FullAnswerIsValid(reports, picked, b.c.readMf);
    hide ConfigurationValid, Requests, Answering, FullAnswer, At, Reachable;
    var b1 := On(b, Ev(EvReportConfig(Some(rsp))), World(now)).b;
    DoEvent(base, b, EvReportConfig(Some(rsp)), World(now));
    r := On(b1.(lock := false), Enter(Level1), World(now)).b;
    DoEnter(base, b1, World(now));
  }

  // ----- The first round -----

  function Wanted(attributeId: nat, mf: nat): Report { Report(attributeId, mf, 0, 0, 0, 0, 0) }

  function KeyFor(attributeId: nat): TrackerKey { TrackerKey(6, attributeId, 1) }

  function AskFor(attributeId: nat): Ask { Ask(KeyFor(attributeId), Wanted(attributeId, 1)) }

  /** A binding that wants attributes 0 and 6. */
  function Ends(): Binding { Binding(6, 1, 1, Unicast(1), [Wanted(0, 1), Wanted(6, 1)]) }

  lemma EndsAreRead(c: Context, now: int)
    requires c.checkRound == 0 && c.reportIter == 0 && c.lastCheck == map[]
    ensures ReadBatch(Ends(), c, now) == Batch(2, 1, [0, 1], map[KeyFor(0) := BUSY_MARK, KeyFor(6) := BUSY_MARK])
  {
    var bnd := Ends();
    var m1 := map[KeyFor(0) := BUSY_MARK];
    var m2 := m1[KeyFor(6) := BUSY_MARK];
    assert map[][KeyFor(0) := 0][KeyFor(0) := BUSY_MARK] == m1;
    assert m1[KeyFor(6) := 0][KeyFor(6) := BUSY_MARK] == m2;
    assert [] + [0] == [0] && [0] + [1] == [0, 1];
    assert FillBatch(bnd, 0, now, Batch(2, 1, [0, 1], m2)) == Batch(2, 1, [0, 1], m2);
    assert FillBatch(bnd, 0, now, Batch(1, 1, [0], m1)) == Batch(2, 1, [0, 1], m2);
  }

  /** The trackers of the two attributes when they were checked just now. */
  function RecentEnds(now: int): map<TrackerKey, int>
  {
    map[TrackerKey(6, 0, 1) := now, TrackerKey(6, 6, 1) := now]
  }

  /** With both trackers fresh and no other report, nothing is read. */
  lemma EndsAreSkipped(c: Context, now: int)
    requires c.checkRound != 0 && c.reportIter == 0 && c.lastCheck == RecentEnds(now)
    ensures ReadBatch(Ends(), c, now) == Batch(2, 0, [], RecentEnds(now))
  {
    var bnd := Ends();
    assert FillBatch(bnd, c.checkRound, now, Batch(2, 0, [], RecentEnds(now))) == Batch(2, 0, [], RecentEnds(now));
    assert FillBatch(bnd, c.checkRound, now, Batch(1, 0, [], RecentEnds(now))) == Batch(2, 0, [], RecentEnds(now));
  }

  /** The ledger after the one request that was sent and answered. */
  ghost predicate OneAnswered(l: Ledger, now: int)
  {
    var batch := {AskFor(0), AskFor(6)};
    l == Ledger(1, batch, map[KeyFor(0) := Stamped(1, 1, now, batch), KeyFor(6) := Stamped(1, 1, now, batch)],
                map[AskFor(0) := Check(1, now), AskFor(6) := Check(1, now)])
  }

  lemma EndsAreAsked()
    ensures var batch := {AskFor(0), AskFor(6)};
      && AsksOf(Ends(), [0, 1]) == batch
      && Asking(START.h.ledger, batch) == Ledger(1, batch, map[KeyFor(0) := Marked(1), KeyFor(6) := Marked(1)], map[])
  {
    var batch := {AskFor(0), AskFor(6)};
    var picked := [0, 1];
    assert picked[0] == 0 && picked[1] == 1;
    assert AskOf(Ends(), 0) == AskFor(0) && AskOf(Ends(), 1) == AskFor(6);
    assert AskFor(0).key == KeyFor(0) && AskFor(6).key == KeyFor(6);
    assert KeysOf(batch) == {KeyFor(0), KeyFor(6)};
  }

  lemma EndsAreAnswered(now: int)
    ensures var batch := {AskFor(0), AskFor(6)};
      var marked := map[KeyFor(0) := BUSY_MARK, KeyFor(6) := BUSY_MARK];
      var asked := Ledger(1, batch, map[KeyFor(0) := Marked(1), KeyFor(6) := Marked(1)], map[]);
      && OneAnswered(Answering(asked, marked, now), now)
      && (map k | k in marked :: if marked[k] == BUSY_MARK then now else marked[k]) == RecentEnds(now)
  {
  }

  /** The binding machine after one round with the binding Ends. */
  ghost predicate RoundDone(b: Machine, now: int)
  {
    && Handling(b) && b.c.bindings == [Ends()] && b.c.tBound == [now] && b.c.checkRound == 1
    && b.c.lastCheck == RecentEnds(now) && OneAnswered(b.h.ledger, now)
  }

  lemma FirstRound(now: int) returns (base: M.Dev, r: Machine)
    requires now > 0
    ensures Resting(base) && Reach(base, r, false) && RoundDone(r, now)
  {
    hide At, Reachable, AsksOf, Asking, Answering, SkippedBy, FillBatch;
    var b := Fresh();
    base := ReachIdle(now);
    DoAdd(base, b, Ends());
    b := b.(c := AddBinding(b.c, Ends()));
    assert b.c.bindings == [Ends()] && b.c.tBound == [0];
    b := StartRound(base, b, now);
    b := Visit(base, b, now);
    EndsAreRead(b.c, now);
    b := Read(base, b, now);
    b := Confirm(base, b, now, [0, 1]);
    EndsAreAsked();
    EndsAreAnswered(now);
    r := EndRound(base, b, now);
  }

  /** In the second round the binding Ends is passed over at once. */
  lemma PassEnds(base: M.Dev, b: Machine, now: int) returns (r: Machine)
    requires Resting(base) && Reach(base, b, false) && Handling(b) && now > 0
    requires b.c.bindings != [] && b.c.bindings[0] == Ends() && Bound(b.c, now) && b.c.checkRound == 1
    requires b.c.lastCheck == RecentEnds(now)
    ensures Reach(base, r, false) && Verifying(r) && Bound(r.c, now)
    ensures r.c.bindings == b.c.bindings && r.c.bindingIter == 1 && r.c.checkRound == 1
    ensures r.c.lastCheck == b.c.lastCheck && r.h.ledger == b.h.ledger
  {
    r := StartRound(base, b, now);
    r := Visit(base, r, now);
    EndsAreSkipped(r.c, now);
    assert AsksOf(Ends(), []) == {};
    r := ReadNothing(base, r, now);
  }

  // ----- Reports that are passed over without having been checked -----

  /** A binding that wants attribute 1. */
  function Other(): Binding { Binding(6, 1, 1, Unicast(2), [Wanted(1, 1)]) }

  /** The report phase of the binding Other ended without a check, for this reason. */
  ghost predicate PassedOver(s: M.Dev, e: PhaseEnd, origin: Origin)
  {
    && e in s.b.h.ended && e.round == 1 && e.reports == 1 && e.covered == {}
    && 0 in e.skipped && e.skipped[0].ask == AskFor(1) && e.skipped[0].origin == origin && e.skipped[0].checked == None
  }

  /** Only one report, and its tracker's value is recent: it is passed over. */
  lemma OtherIsSkipped(c: Context, now: int)
    requires c.checkRound == 1 && c.reportIter == 0
    requires now - (if KeyFor(1) in c.lastCheck then c.lastCheck[KeyFor(1)] else 0) < RECHECK_MS
    ensures ReadBatch(Other(), c, now) == Batch(1, 0, [], GetOrCreate(c.lastCheck, KeyFor(1)))
  {
    var end := Batch(1, 0, [], GetOrCreate(c.lastCheck, KeyFor(1)));
    assert FillBatch(Other(), 1, now, end) == end;
  }

  lemma PassOther(base: M.Dev, b: Machine, now: int, origin: Origin) returns (r: Machine, e: PhaseEnd)
    requires Resting(base) && Reach(base, b, false) && Verifying(b) && now > 0 && Bound(b.c, now)
    requires |b.c.bindings| == 2 && b.c.bindings[1] == Other() && b.c.bindingIter == 1 && b.c.checkRound == 1
    requires now - (if KeyFor(1) in b.c.lastCheck then b.c.lastCheck[KeyFor(1)] else 0) < RECHECK_MS
    requires origin == OriginOf(b.h.ledger, KeyFor(1)) && AskFor(1) !in b.h.ledger.checked
    ensures Reach(base, r, false) && PassedOver(At(base, r, false), e, origin)
  {
    var b1 := Visit(base, b, now);
    OtherIsSkipped(b1.c, now);
    assert AsksOf(Other(), []) == {};
    r := ReadNothing(base, b1, now);
    e := r.h.ended[|r.h.ended| - 1];
    var t := ReadBatch(Other(), b1.c, now);
    var skipped := SkippedBy(Other(), 0, now, t, b1.h.ledger);
    assert 0 in skipped;
    assert e.skipped == map[] + skipped == skipped;
  }

  /** First input: the clock shows less than an hour.  A report whose tracker was just created is passed
      over although it was never checked. */
  lemma NeverCheckedIsSkipped(now: int)
    requires 0 < now < RECHECK_MS
    ensures exists steps, e :: PassedOver(M.Run(steps), e, Unset)
  {
    var base, b := FirstRound(now);
    DoAdd(base, b, Other());
    b := b.(c := AddBinding(b.c, Other()));
    assert b.c.bindings == [Ends(), Other()] && b.c.tBound == [now, 0];
    b := PassEnds(base, b, now);
    var r, e := PassOther(base, b, now, Unset);
    ShowRun(base, r, e, Unset);
  }

  lemma OtherIsRead(c: Context, now: int)
    requires c.checkRound == 1 && c.reportIter == 0 && c.lastCheck == RecentEnds(now) && now >= RECHECK_MS
    ensures ReadBatch(Other(), c, now) == Batch(1, 1, [0], RecentEnds(now)[KeyFor(1) := BUSY_MARK])
    ensures AsksOf(Other(), [0]) == {AskFor(1)} && KeysOf({AskFor(1)}) == {KeyFor(1)}
  {
    var marked := RecentEnds(now)[KeyFor(1) := BUSY_MARK];
    assert RecentEnds(now)[KeyFor(1) := 0][KeyFor(1) := BUSY_MARK] == marked;
    assert [] + [0] == [0];
    assert FillBatch(Other(), 1, now, Batch(1, 1, [0], marked)) == Batch(1, 1, [0], marked);
    assert 0 in [0] && AskOf(Other(), 0) == AskFor(1) && AskFor(1).key == KeyFor(1);
  }

  /** The read request for attribute 1 goes out, but no answer comes: its tracker stays marked. */
  lemma AbandonOther(base: M.Dev, b: Machine, now: int) returns (r: Machine)
    requires Resting(base) && Reach(base, b, false) && Verifying(b) && now >= RECHECK_MS && Bound(b.c, now)
    requires b.c.bindings == [Ends(), Other()] && b.c.bindingIter == 1 && b.c.checkRound == 1
    requires b.c.lastCheck == RecentEnds(now) && OneAnswered(b.h.ledger, now)
    ensures Reach(base, r, false) && Handling(r) && Bound(r.c, now)
    ensures r.c.bindings == b.c.bindings && r.c.checkRound == 1
    ensures r.c.lastCheck == RecentEnds(now)[KeyFor(1) := BUSY_MARK]
    ensures var l := r.h.ledger;
      l.requests == 2 && OriginOf(l, KeyFor(1)) == Marked(2) && AskFor(1) !in l.checked
  {
    var b1 := Visit(base, b, now);
    OtherIsRead(b1.c, now);
    hide At, Reachable, AsksOf, SkippedBy, FillBatch;
    var b2 := Read(base, b1, now);
    r := GiveUp(base, b2, now);
  }

  /** The binding Ends, once attribute 3 was added to it. */
  function More(): Binding { Ends().(reporting := [Wanted(0, 1), Wanted(6, 1), Wanted(3, 1)]) }

  lemma MergeThird()
    ensures MergeReports(Ends().reporting, [Wanted(3, 1)]) == More().reporting
  {
    var a := Ends().reporting;
    assert [Wanted(3, 1)][..0] == [];
    assert MergeReports(a, []) == a;
    assert !HasAttribute(a, 3);
    assert a + [Wanted(3, 1)] == More().reporting;
  }

  /** The third report is due: it alone is read. */
  lemma ThirdIsRead(c: Context, now: int)
    requires c.checkRound == 1 && c.reportIter == 0 && now >= RECHECK_MS
    requires c.lastCheck == RecentEnds(now)[KeyFor(1) := BUSY_MARK]
    ensures ReadBatch(More(), c, now) == Batch(3, 1, [2], c.lastCheck[KeyFor(3) := BUSY_MARK])
    ensures AsksOf(More(), [2]) == {AskFor(3)} && KeysOf({AskFor(3)}) == {KeyFor(3)}
  {
    var marked := c.lastCheck[KeyFor(3) := BUSY_MARK];
    assert c.lastCheck[KeyFor(3) := 0][KeyFor(3) := BUSY_MARK] == marked;
    assert [] + [2] == [2];
    assert FillBatch(More(), 1, now, Batch(3, 1, [2], marked)) == Batch(3, 1, [2], marked);
    assert FillBatch(More(), 1, now, Batch(2, 0, [], c.lastCheck)) == Batch(3, 1, [2], marked);
    assert FillBatch(More(), 1, now, Batch(1, 0, [], c.lastCheck)) == Batch(3, 1, [2], marked);
    assert 2 in [2] && AskOf(More(), 2) == AskFor(3) && AskFor(3).key == KeyFor(3);
  }

  /** The answer to the request for attribute 3 stamps the stale mark of attribute 1 as well. */
  lemma ConfirmThird(base: M.Dev, b: Machine, now: int) returns (r: Machine)
    requires Resting(base) && Reach(base, b, false) && Handling(b) && now >= RECHECK_MS && Bound(b.c, now)
    requires b.c.bindings == [More(), Other()] && b.c.checkRound == 1
    requires b.c.lastCheck == RecentEnds(now)[KeyFor(1) := BUSY_MARK]
    requires b.h.ledger.requests == 2 && OriginOf(b.h.ledger, KeyFor(1)) == Marked(2)
    requires AskFor(1) !in b.h.ledger.checked
    ensures Reach(base, r, false) && Verifying(r) && Bound(r.c, now)
    ensures r.c.bindings == b.c.bindings && r.c.checkRound == 1 && r.c.bindingIter == 1
    ensures KeyFor(1) in r.c.lastCheck && r.c.lastCheck[KeyFor(1)] == now
    ensures OriginOf(r.h.ledger, KeyFor(1)) == Stamped(2, 3, now, {AskFor(3)}) && AskFor(1) !in r.h.ledger.checked
  {
    hide At, Reachable, AsksOf, SkippedBy, FillBatch;
    r := StartRound(base, b, now);
    r := Visit(base, r, now);
    ThirdIsRead(r.c, now);
    r := Read(base, r, now);
    assert OriginOf(r.h.ledger, KeyFor(1)) == Marked(2);
    r := Confirm(base, r, now, [2]);
  }

  /** Second input: a mark left behind by a request that was never answered is stamped with the answer to
      another request, and its report is passed over although it was never checked. */
  lemma StaleMarkIsSkipped(now: int)
    requires now >= 2 * RECHECK_MS
    ensures exists steps, e :: PassedOver(M.Run(steps), e, Stamped(2, 3, now, {AskFor(3)}))
  {
    hide At, Reachable, Asking;
    var base, b := FirstRound(now);
    DoAdd(base, b, Other());
    b := b.(c := AddBinding(b.c, Other()));
    assert b.c.bindings == [Ends(), Other()] && b.c.tBound == [now, 0];
    b := PassEnds(base, b, now);
    b := AbandonOther(base, b, now);
    var third := Ends().(reporting := [Wanted(3, 1)]);
    DoAdd(base, b, third);
    MergeThird();
    b := b.(c := AddBinding(b.c, third));
    assert b.c.bindings == [More(), Other()];
    b := ConfirmThird(base, b, now);
    var r, e := PassOther(base, b, now, Stamped(2, 3, now, {AskFor(3)}));
    ShowRun(base, r, e, Stamped(2, 3, now, {AskFor(3)}));
  }

  lemma ShowRun(base: M.Dev, r: Machine, e: PhaseEnd, origin: Origin)
    requires Reach(base, r, false) && PassedOver(At(base, r, false), e, origin)
    ensures exists steps, e :: PassedOver(M.Run(steps), e, origin)
  {
    var steps :| M.Run(steps) == At(base, r, false);
    assert PassedOver(M.Run(steps), e, origin);
  }

  // ----- A follow-up configure request that is empty -----

  /** Seven reports: the first (manufacturer code 1) and the last (code 2) have the attributes of Ends and
      were checked just now, the five in between (code 1) are due. */
  function SevenReports(): (r: seq<Report>)
    ensures |r| == 7
  {
    seq(7, k requires 0 <= k < 7 => Report(k, if k < 6 then 1 else 2, 0, 0, 0, 0, 0))
  }

  function SevenBinding(): Binding { Binding(6, 1, 1, Unicast(2), SevenReports()) }

  lemma SetTwice(m: map<TrackerKey, int>, k: TrackerKey)
    ensures m[k := 0][k := BUSY_MARK] == m[k := BUSY_MARK]
  {
  }

  lemma SevenRead(now: int)
    requires now >= 2 * RECHECK_MS
    ensures var t := FillBatch(SevenBinding(), 1, now, Batch(0, 0, [], RecentEnds(now)));
            t.picked == [1, 2, 3, 4, 5] && t.next == 7 && t.mf == 1
  {
    var bnd := SevenBinding();
    var m1 := RecentEnds(now);
    var m2 := m1[TrackerKey(6, 1, 1) := BUSY_MARK];
    var m3 := m2[TrackerKey(6, 2, 1) := BUSY_MARK];
    var m4 := m3[TrackerKey(6, 3, 1) := BUSY_MARK];
    var m5 := m4[TrackerKey(6, 4, 1) := BUSY_MARK];
    var m6 := m5[TrackerKey(6, 5, 1) := BUSY_MARK];
    assert [1] + [2] == [1, 2] && [1, 2] + [3] == [1, 2, 3] && [1, 2, 3] + [4] == [1, 2, 3, 4]
           && [1, 2, 3, 4] + [5] == [1, 2, 3, 4, 5];
    SetTwice(m1, TrackerKey(6, 1, 1));
    SetTwice(m2, TrackerKey(6, 2, 1));
    SetTwice(m3, TrackerKey(6, 3, 1));
    SetTwice(m4, TrackerKey(6, 4, 1));
    SetTwice(m5, TrackerKey(6, 5, 1));
    assert [] + [1] == [1];
    var end := Batch(7, 1, [1, 2, 3, 4, 5], m6);
    assert FillBatch(bnd, 1, now, Batch(6, 1, [1, 2, 3, 4, 5], m6)) == end;
    assert FillBatch(bnd, 1, now, Batch(5, 1, [1, 2, 3, 4], m5)) == end;
    assert FillBatch(bnd, 1, now, Batch(4, 1, [1, 2, 3], m4)) == end;
    assert FillBatch(bnd, 1, now, Batch(3, 1, [1, 2], m3)) == end;
    assert FillBatch(bnd, 1, now, Batch(2, 1, [1], m2)) == end;
    assert FillBatch(bnd, 1, now, Batch(1, 0, [], m1)) == end;
  }

  lemma SevenConfigured()
    ensures FillConfig(SevenReports(), 0, 7, 1, []) == (6, [0, 1, 2, 3, 4, 5])
    ensures FillConfig(SevenReports(), 6, 7, 1, []) == (7, [])
  {
    var r := SevenReports();
    assert [] + [0] == [0] && [0] + [1] == [0, 1] && [0, 1] + [2] == [0, 1, 2] && [0, 1, 2] + [3] == [0, 1, 2, 3]
           && [0, 1, 2, 3] + [4] == [0, 1, 2, 3, 4] && [0, 1, 2, 3, 4] + [5] == [0, 1, 2, 3, 4, 5];
    var end := (6, [0, 1, 2, 3, 4, 5]);
    assert FillConfig(r, 5, 7, 1, [0, 1, 2, 3, 4]) == end;
    assert FillConfig(r, 4, 7, 1, [0, 1, 2, 3]) == end;
    assert FillConfig(r, 3, 7, 1, [0, 1, 2]) == end;
    assert FillConfig(r, 2, 7, 1, [0, 1]) == end;
    assert FillConfig(r, 1, 7, 1, [0]) == end;
  }


  /** The read batch for the five fails, and a first configure request takes six reports. */
  lemma AskSeven(base: M.Dev, b: Machine, now: int) returns (r: Machine)
    requires Resting(base) && Reach(base, b, false) && Verifying(b) && now >= 2 * RECHECK_MS && Bound(b.c, now)
    requires b.c.bindings == [Ends(), SevenBinding()] && b.c.bindingIter == 1 && b.c.checkRound == 1
    requires b.c.lastCheck == RecentEnds(now)
    ensures Reach(base, r, false) && r.state.ConfigureReporting? && !r.lock && r.timer && |r.h.asked| == 6
    ensures r.c.configIter == 6 && r.c.reportIter == 7 && r.c.readMf == 1 && r.c.zcl == World(now).zcl
    ensures r.c.bindings == b.c.bindings && r.c.bindingIter == 1
  {
    var b1 := Visit(base, b, now);
    SevenRead(now);
    hide At, Reachable, SevenReports, AsksOf, Asking, SkippedBy, Requests, FillBatch;
    var b2 := Read(base, b1, now);
    r := RefuseSeven(base, b2, now);
  }

  /** The answer is not usable, so the seven reports are to be configured. */
  lemma RefuseSeven(base: M.Dev, b: Machine, now: int) returns (r: Machine)
    requires Resting(base) && Reach(base, b, false) && b.state.ReadReport? && !b.lock && b.timer
    requires b.c.configIter == 0 && b.c.reportIter == 7 && b.c.readMf == 1 && b.c.zcl == World(now).zcl
    requires b.c.bindings == [Ends(), SevenBinding()] && b.c.bindingIter == 1
    ensures Reach(base, r, false) && r.state.ConfigureReporting? && !r.lock && r.timer && |r.h.asked| == 6
    ensures r.c == b.c.(configIter := 6)
  {
    hide At, Reachable;
    DoEvent(base, b, EvReportConfig(None), World(now));
    r := ConfigureSix(base, On(b, Ev(EvReportConfig(None)), World(now)).b, now);
  }

  lemma SixPicked(c: Context)
    requires c.configIter == 0 && c.reportIter == 7 && c.readMf == 1
    ensures var picked := [0, 1, 2, 3, 4, 5]; ConfigBatch(SevenReports(), c) == (6, picked) && |ToSet(picked)| == 6
  {
    SevenConfigured();
    var picked := [0, 1, 2, 3, 4, 5];
    assert ConfigBatch(SevenReports(), c) == (6, picked);
    assert ToSet(picked) == {0, 1, 2, 3, 4, 5};
  }

  lemma ConfigureSix(base: M.Dev, b: Machine, now: int) returns (r: Machine)
    requires Resting(base) && Reach(base, b, false) && b.state.ConfigureReporting? && b.lock && !b.timer
    requires b.c.configIter == 0 && b.c.reportIter == 7 && b.c.readMf == 1 && b.c.zcl == World(now).zcl
    requires b.c.bindings == [Ends(), SevenBinding()] && b.c.bindingIter == 1
    ensures Reach(base, r, false) && r.state.ConfigureReporting? && !r.lock && r.timer && |r.h.asked| == 6
    ensures r.c == b.c.(configIter := 6)
  {
    hide At, Reachable;
    var picked := [0, 1, 2, 3, 4, 5];
    SixPicked(b.c);
    r := b.(lock := false, timer := true, c := b.c.(configIter := 6),
            h := b.h.(asked := ToSet(picked), configsSent := b.h.configsSent + 1));
    hide ConfigBatch, FillConfig, SevenReports, ToSet, Resting;
    assert ConfigureEnter(b.(lock := false), World(now)) == Stay(r);
    DoEnter(base, b, World(now));
  }

  /** The first request is answered with success, and nothing is left for the second one. */
  lemma EmptyAfterSeven(base: M.Dev, b: Machine, now: int) returns (r: Machine)
    requires Resting(base) && Reach(base, b, false) && b.state.ConfigureReporting? && !b.lock
    requires b.c.configIter == 6 && b.c.reportIter == 7 && b.c.readMf == 1 && b.c.zcl == World(now).zcl
    requires b.c.bindings == [Ends(), SevenBinding()] && b.c.bindingIter == 1
    ensures Reach(base, r, false) && r.state.ConfigureReporting? && r.lock && r.c == b.c
  {
    hide At, Reachable;
    var env := World(now);
    var e := EvZclResponse(6, b.c.zcl.sequenceNumber, ZCL_SUCCESS);
    var b1 := On(b, Ev(e), env).b;
    DoEvent(base, b, e, env);
    assert b1.state.ConfigNext? && b1.lock && b1.c == b.c;
    r := On(b1.(lock := false), Enter(Level1), env).b;
    DoEnter(base, b1, env);
  }

  /** The device is about to send a configure request without records, and gives up instead. */
  ghost predicate SendsNothing(s: M.Dev, env: Env)
  {
    && s.b.state.ConfigureReporting? && s.b.lock && s.b.c.bindingIter < |s.b.c.bindings|
    && ConfigBatch(AtBinding(s.b).reporting, s.b.c).1 == []
    && M.Next(s, M.Deliver(env)).b.state.BindingHandler?
  }

  /** In a later round a follow-up request can be empty: a run from construction on that gets there. */
  lemma FollowUpCanBeEmpty(now: int)
    requires now >= 2 * RECHECK_MS
    ensures exists steps :: SendsNothing(M.Run(steps), World(now))
  {
    var base, b := FirstRound(now);
    DoAdd(base, b, SevenBinding());
    b := b.(c := AddBinding(b.c, SevenBinding()));
    assert b.c.bindings == [Ends(), SevenBinding()] && b.c.tBound == [now, 0];
    b := PassEnds(base, b, now);
    b := AskSeven(base, b, now);
    b := EmptyAfterSeven(base, b, now);
    GivesUpOnSeven(base, b, now);
    var steps :| M.Run(steps) == At(base, b, false);
    assert SendsNothing(M.Run(steps), World(now));
  }

  lemma GivesUpOnSeven(base: M.Dev, b: Machine, now: int)
    requires Resting(base) && b.state.ConfigureReporting? && b.lock
    requires b.c.configIter == 6 && b.c.reportIter == 7 && b.c.readMf == 1
    requires b.c.bindings == [Ends(), SevenBinding()] && b.c.bindingIter == 1
    ensures SendsNothing(At(base, b, false), World(now))
  {
    SevenConfigured();
  }
}
