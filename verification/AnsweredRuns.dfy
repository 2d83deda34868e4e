/** A device that confirms and answers every request: its report phases end, and so do whole rounds. */
module AnsweredRuns {
  import opened Basics
  import opened ReportCheck
  import opened DeviceData
  import opened BindingMachine
  import opened BindingLaws
  import RP = ReportPhase
  import opened ReportRuns
  import BI = BindingInvariant
  import M = DeviceMachine
  import R = DeviceRuns

  /** What the device answers to the read request in flight. */
  type Answers = Machine -> Option<Response>

  /** The request in flight asks for the reports at these indices. */
  ghost predicate RequestOf(b: Machine, picked: seq<nat>)
  {
    && b.c.bindingIter < |b.c.bindings|
    && var reports := b.c.bindings[b.c.bindingIter].reporting;
       && DistinctReports(reports) && b.c.readRecords == Requests(reports, picked)
       && (forall k :: 0 <= k < |picked| ==> picked[k] < |reports| && reports[picked[k]].manufacturerCode == b.c.readMf)
       && forall k, m :: 0 <= k < m < |picked| ==> picked[k] < picked[m]
  }

  /** The device is configured as asked whenever it is asked. */
  ghost predicate Configured(answer: Answers)
  {
    forall b: Machine, picked :: RequestOf(b, picked) ==>
      answer(b).Some? && ConfigurationValid(answer(b).value, b.c.bindings[b.c.bindingIter].reporting, b.c.readRecords)
  }

  /** There is such a device. */
  lemma SomeDeviceIsConfigured()
    ensures exists answer :: Configured(answer)
  {
    var answer: Answers := (b: Machine) =>
      if exists picked :: RequestOf(b, picked) then
        var picked :| RequestOf(b, picked);
        Some(FullAnswer(b.c.bindings[b.c.bindingIter].reporting, picked, b.c.readMf))
      else None;
    forall b: Machine, picked | RequestOf(b, picked)
      ensures answer(b).Some?
        && ConfigurationValid(answer(b).value, b.c.bindings[b.c.bindingIter].reporting, b.c.readRecords)
    {
      var chosen :| RequestOf(b, chosen)
        && answer(b) == Some(FullAnswer(b.c.bindings[b.c.bindingIter].reporting, chosen, b.c.readMf));
      FullAnswerIsValid(b.c.bindings[b.c.bindingIter].reporting, chosen, b.c.readMf);
    }
    assert Configured(answer);
  }

  // ----- One request -----

  ghost predicate DistinctAt(b: Machine)
  {
    b.c.bindingIter < |b.c.bindings| ==> DistinctReports(b.c.bindings[b.c.bindingIter].reporting)
  }

  /** About to enter a state of the report phase that no empty request can end. */
  ghost predicate InPhase(b: Machine, answer: Answers)
  {
    && BI.BindInv(b, 1) && BI.InReportPhase(b.state) && b.lock
    && (b.c.checkRound == 0 ||
        (Configured(answer) && DistinctAt(b) && (b.state.ReadReport? || b.state.ReadNext?)))
  }

  function AnswerTo(b: Machine, answer: Answers): Event
  {
    if b.state.ReadReport? then EvReportConfig(answer(b)) else EvZclResponse(0, b.c.zcl.sequenceNumber, ZCL_SUCCESS)
  }

  /** The request that was sent is confirmed and answered; configure requests are answered with success. */
  function Reply(b: Machine, env: Env, answer: Answers): Machine
  {
    var b1 := On(b, Ev(EvApsConfirm(InFlight(b), true)), env).b;
    On(b1, Ev(AnswerTo(b, answer)), env).b
  }

  /** One state of the phase: its StateEnter is delivered, and if that sent a request, the reply. */
  function Serve(b: Machine, env: Env, answer: Answers): Machine
  {
    var b1 := On(b.(lock := false), Enter(Level1), env).b;
    if b1.lock then b1 else Reply(b1, env, answer)
  }

  /** A phase of a binding with so many reports, finished in this round. */
  predicate EndOf(e: PhaseEnd, round: nat, reports: nat) { e.round == round && e.reports == reports }

  /** The phase is over: the next binding is up, and the history has the finished phase. */
  ghost predicate PhaseOver(b: Machine, r: Machine)
  {
    && r.state.TableVerify? && r.lock && !r.timer && BI.BindInv(r, 1)
    && r.c.bindingIter == b.c.bindingIter + 1 && r.c.bindings == b.c.bindings && r.c.tBound == b.c.tBound
    && r.c.checkRound == b.c.checkRound && r.c.mgmtBind == b.c.mgmtBind
    && |r.h.ended| == |b.h.ended| + 1 && b.h.ended <= r.h.ended
    && b.c.bindingIter < |b.c.bindings|
    && EndOf(r.h.ended[|b.h.ended|], b.c.checkRound, |b.c.bindings[b.c.bindingIter].reporting|)
  }

  ghost predicate StillInPhase(b: Machine, r: Machine, answer: Answers)
  {
    && InPhase(r, answer) && RP.Below(RP.MeasureOf(r), RP.MeasureOf(b))
    && r.c.bindingIter == b.c.bindingIter && r.c.bindings == b.c.bindings && r.c.tBound == b.c.tBound
    && r.c.checkRound == b.c.checkRound && r.c.mgmtBind == b.c.mgmtBind && r.h.ended == b.h.ended
  }

  lemma HelperServes(b: Machine, env: Env, answer: Answers)
    requires InPhase(b, answer) && (b.state.ReadNext? || b.state.ConfigNext?)
    ensures StillInPhase(b, Serve(b, env, answer), answer)
  {
    HelperLaw(b.(lock := false), env);
    hide Configured;
  }

  /** What the StateEnter of ReadReport does: nothing is left to read, or the next batch is asked for. */
  lemma ReadEnters(b: Machine, env: Env, answer: Answers)
    requires InPhase(b, answer) && b.state.ReadReport? && env.zcl.isEnqueued
    ensures var r := On(b.(lock := false), Enter(Level1), env).b;
      if r.lock then PhaseOver(b, r)
      else
        && r.state.ReadReport? && r.timer && BI.BindInv(r, 0)
        && r.c.reportIter > b.c.reportIter && (DistinctAt(b) ==> exists picked :: RequestOf(r, picked))
        && r.c.bindingIter == b.c.bindingIter && r.c.bindings == b.c.bindings && r.c.tBound == b.c.tBound
        && r.c.checkRound == b.c.checkRound && r.c.mgmtBind == b.c.mgmtBind && r.h.ended == b.h.ended
  {
    BI.EnterKeeps(b, env, 1, false);
    var bnd := b.c.bindings[b.c.bindingIter];
    BI.ReadBatchDone(bnd, b.c, env.now);
    var t := ReadBatch(bnd, b.c, env.now);
    assert t.picked != [] ==> t.picked[0] in t.picked;
    assert forall k :: 0 <= k < |t.picked| ==> t.picked[k] in t.picked;
    hide ReadBatch, AsksOf, Asking, SkippedBy, BI.PhaseInv, BI.EndedInv, Requests, Configured, DistinctReports;
    hide BI.SkipsAreRecent;
    var r := On(b.(lock := false), Enter(Level1), env).b;
    if !r.lock && DistinctAt(b) {
      assert RequestOf(r, t.picked);
    }
  }

  lemma ReadReplies(b: Machine, env: Env, answer: Answers)
    requires BI.BindInv(b, 0) && b.state.ReadReport? && !b.lock && b.timer
    requires b.c.checkRound == 0 || (Configured(answer) && DistinctAt(b) && exists picked :: RequestOf(b, picked))
    ensures var r := Reply(b, env, answer);
      || PhaseOver(b, r)
      || (&& InPhase(r, answer) && r.c.reportIter == b.c.reportIter && r.c.configIter == b.c.configIter
          && r.c.bindingIter == b.c.bindingIter && r.c.bindings == b.c.bindings && r.c.tBound == b.c.tBound
          && r.c.checkRound == b.c.checkRound && r.c.mgmtBind == b.c.mgmtBind && r.h.ended == b.h.ended)
  {
    ConfirmLaw(b, InFlight(b), true, env);
    assert b.(timer := true) == b;
    BI.EventKeeps(b, EvReportConfig(answer(b)), env, false);
    ReportResponseLaw(b, answer(b), env);
    hide BI.PhaseInv, BI.EndedInv, ConfigurationValid;
  }

  lemma ReadServes(b: Machine, env: Env, answer: Answers)
    requires InPhase(b, answer) && b.state.ReadReport? && env.zcl.isEnqueued
    ensures var r := Serve(b, env, answer); PhaseOver(b, r) || StillInPhase(b, r, answer)
  {
    ReadEnters(b, env, answer);
    var b1 := On(b.(lock := false), Enter(Level1), env).b;
    if !b1.lock {
      ReadReplies(b1, env, answer);
    }
    hide On, Configured, BI.PhaseInv;
  }

  /** A configure request of round 0 is never empty, so it is sent. */
  lemma ConfigureEnters(b: Machine, env: Env, answer: Answers)
    requires InPhase(b, answer) && b.state.ConfigureReporting? && env.zcl.isEnqueued
    ensures var r := On(b.(lock := false), Enter(Level1), env).b;
      && r.state.ConfigureReporting? && !r.lock && r.timer && BI.BindInv(r, 0)
      && b.c.configIter < r.c.configIter && r.c.reportIter == b.c.reportIter
      && r.c.bindingIter == b.c.bindingIter && r.c.bindings == b.c.bindings && r.c.tBound == b.c.tBound
      && r.c.checkRound == b.c.checkRound && r.c.mgmtBind == b.c.mgmtBind && r.h.ended == b.h.ended
  {
    BI.EnterKeeps(b, env, 1, false);
    RP.NoEmptyConfigureInRound0(b, 1);
    var reports := b.c.bindings[b.c.bindingIter].reporting;
    BI.FillConfigDone(reports, b.c.configIter, b.c.reportIter, b.c.readMf, []);
    hide FillConfig, BI.EndedInv;
  }

  lemma ConfigureReplies(b: Machine, env: Env, answer: Answers)
    requires BI.BindInv(b, 0) && b.state.ConfigureReporting? && !b.lock && b.timer && b.c.checkRound == 0
    ensures var r := Reply(b, env, answer);
      || PhaseOver(b, r)
      || (&& InPhase(r, answer) && r.c == b.c && r.h.ended == b.h.ended)
  {
    ConfirmLaw(b, InFlight(b), true, env);
    assert b.(timer := true) == b;
    BI.EventKeeps(b, EvZclResponse(0, b.c.zcl.sequenceNumber, ZCL_SUCCESS), env, false);
    ConfigureResponseLaw(b, 0, b.c.zcl.sequenceNumber, ZCL_SUCCESS, env);
    hide BI.PhaseInv, BI.EndedInv, Configured;
  }

  lemma ConfigureServes(b: Machine, env: Env, answer: Answers)
    requires InPhase(b, answer) && b.state.ConfigureReporting? && env.zcl.isEnqueued
    ensures var r := Serve(b, env, answer); PhaseOver(b, r) || StillInPhase(b, r, answer)
  {
    ConfigureEnters(b, env, answer);
    ConfigureReplies(On(b.(lock := false), Enter(Level1), env).b, env, answer);
    hide On, Configured, BI.PhaseInv;
  }

  lemma Serves(b: Machine, env: Env, answer: Answers)
    requires InPhase(b, answer) && env.zcl.isEnqueued
    ensures var r := Serve(b, env, answer); PhaseOver(b, r) || StillInPhase(b, r, answer)
  {
    match b.state
    case ReadReport => ReadServes(b, env, answer);
    case ConfigureReporting => ConfigureServes(b, env, answer);
    case _ => HelperServes(b, env, answer);
  }

  // ----- The phase as a part of a run -----

  lemma PhaseFits(b: Machine, m: Message, env: Env)
    requires BI.InReportPhase(b.state) && !b.lock
    ensures var o := On(b, m, env); Fits(o) && !o.tick
  {
    hide FillConfig, ReadBatch, AsksOf, Asking, SkippedBy, Answering, ConfigurationValid, Requests;
  }

  lemma DoServe(base: M.Dev, b: Machine, env: Env, answer: Answers)
    requires Resting(base) && Reach(base, b, false) && InPhase(b, answer) && env.zcl.isEnqueued
    ensures Reach(base, Serve(b, env, answer), false)
  {
    hide At, Reachable, Configured, BI.PhaseInv;
    PhaseFits(b.(lock := false), Enter(Level1), env);
    DoEnter(base, b, env);
    var b1 := On(b.(lock := false), Enter(Level1), env).b;
    if !b1.lock {
      if b.state.ReadReport? {
        ReadEnters(b, env, answer);
      } else if b.state.ConfigureReporting? {
        ConfigureEnters(b, env, answer);
      } else {
        HelperServes(b, env, answer);
      }
      hide On, InPhase;
      DoReply(base, b1, env, answer);
    }
  }

  lemma DoReply(base: M.Dev, b: Machine, env: Env, answer: Answers)
    requires Resting(base) && Reach(base, b, false) && !b.lock
    requires b.state.ReadReport? || b.state.ConfigureReporting?
    ensures Reach(base, Reply(b, env, answer), false)
  {
    hide At, Reachable;
    var confirm := EvApsConfirm(InFlight(b), true);
    ConfirmLaw(b, InFlight(b), true, env);
    PhaseFits(b, Ev(confirm), env);
    DoEvent(base, b, confirm, env);
    var b1 := On(b, Ev(confirm), env).b;
    assert b1 == b.(timer := true);
    hide On;
    var e := AnswerTo(b, answer);
    PhaseFits(b1, Ev(e), env);
    DoEvent(base, b1, e, env);
  }

  /** Main result on the phase: whatever a device that confirms and answers every request says about its
      configuration, in round 0 the phase of its binding comes to its end; in a later round it does so when the
      device is configured as asked. */
  lemma {:induction false} PhaseEnds(base: M.Dev, b: Machine, env: Env, answer: Answers) returns (r: Machine)
    requires Resting(base) && Reach(base, b, false) && InPhase(b, answer) && env.zcl.isEnqueued
    ensures Reach(base, r, false) && PhaseOver(b, r)
    decreases |b.c.bindings| - b.c.bindingIter, RP.MeasureOf(b).unread, RP.MeasureOf(b).unconfigured,
              RP.MeasureOf(b).place
  {
    DoServe(base, b, env, answer);
    Serves(b, env, answer);
    r := Serve(b, env, answer);
    if !PhaseOver(b, r) {
      MeasureIsBounded(b);
      MeasureIsBounded(r);
      hide Serve, Reach, BI.BindInv;
      r := PhaseEnds(base, r, env, answer);
    }
  }

  lemma MeasureIsBounded(b: Machine)
    requires BI.BindInv(b, 1) && BI.InReportPhase(b.state)
    ensures RP.Bounded(RP.MeasureOf(b)) && RP.MeasureOf(b).bindings == |b.c.bindings| - b.c.bindingIter
  {
  }

  // ----- One binding -----

  /** The verify state, before its StateEnter or with its tick queued. */
  ghost predicate UpNext(b: Machine, tick: bool)
  {
    b.state.TableVerify? && !b.timer && b.lock == !tick && BI.BindInv(b, if b.lock then 1 else 0)
  }

  /** The core lists every binding as confirmed now, addresses are known, and every request is taken. */
  predicate Serving(env: Env)
  {
    && env.inTable == Some(env.now) && env.now > 0 && env.macAddress != 0
    && env.zdp.isEnqueued && env.zcl.isEnqueued
  }

  /** No tracker is ahead of the clock. */
  predicate Past(tBound: seq<int>, now: int) { forall k :: 0 <= k < |tBound| ==> tBound[k] <= now }

  lemma DoVerifyEnter(base: M.Dev, b: Machine, tick: bool, env: Env) returns (r: Machine)
    requires Resting(base) && Reach(base, b, tick) && UpNext(b, tick)
    ensures Reach(base, r, true) && UpNext(r, true) && r == b.(lock := false)
  {
    hide At, Reachable;
    r := b.(lock := false);
    if b.lock {
      BI.EnterKeeps(b, env, 1, false);
      VerifyEnterLaw(b.(lock := false), env);
      DoEnter(base, b, env);
    }
  }

  lemma DoDecide(base: M.Dev, b: Machine, env: Env) returns (o: Out)
    requires Resting(base) && Reach(base, b, true) && UpNext(b, true) && b.c.bindingIter < |b.c.bindings|
    requires Resolved(b.c.bindings[b.c.bindingIter].dst, env).Some? || b.c.bindings[b.c.bindingIter].dst.Groupcast?
    ensures o == On(b, Ev(EvBindingTick), env) && Reach(base, o.b, o.tick) && BI.Kept(o, 0, false)
  {
    hide At, Reachable;
    o := On(b, Ev(EvBindingTick), env);
    BI.VerifyTickKeeps(b, env, false);
    if Resolved(b.c.bindings[b.c.bindingIter].dst, env).Some? {
      VerifyLaw(b, env);
    } else {
      UnresolvedLaw(b, env);
    }
    assert Fits(o);
    hide On, BI.BindInv, Resolved, Decided;
    DoTick(base, b, env);
  }

  /** The bind request is sent, confirmed and answered; the binding is dated. */
  lemma BindExchange(base: M.Dev, b: Machine, env: Env) returns (r: Machine)
    requires Resting(base) && Reach(base, b, false) && BI.BindInv(b, 1) && b.state.BindingCreate? && b.lock
    requires env.zdp.isEnqueued
    ensures Reach(base, r, false) && UpNext(r, false)
    ensures r == b.(state := TableVerify, zdp := env.zdp, c := b.c.(tBound := b.c.tBound[b.c.bindingIter := env.now]))
  {
    hide At, Reachable;
    var i := b.c.bindingIter;
    BindRequestLaw(b.(lock := false), env);
    BI.EnterKeeps(b, env, 1, false);
    DoEnter(base, b, env);
    var b1 := b.(lock := false, timer := true, zdp := env.zdp, c := b.c.(tBound := b.c.tBound[i := 0]));
    assert On(b.(lock := false), Enter(Level1), env) == Out(b1, false, false);
    ConfirmLaw(b1, env.zdp.apsReqId, true, env);
    hide On;
    DoEvent(base, b1, EvApsConfirm(env.zdp.apsReqId, true), env);
    BindResponseLaw(b1, env.zdp.zdpSeq, true, env);
    BI.EventKeeps(b1, EvZdpResponse(env.zdp.zdpSeq, true), env, false);
    DoEvent(base, b1, EvZdpResponse(env.zdp.zdpSeq, true), env);
    r := On(b1, Ev(EvZdpResponse(env.zdp.zdpSeq, true)), env).b;
  }

  /** The binding at hand is done with: the next one is up, and nothing but its own entries has changed. */
  ghost predicate BindingDone(b: Machine, r: Machine, tick: bool, now: int)
  {
    && UpNext(r, tick) && b.c.bindingIter < |b.c.bindings| == |b.c.tBound|
    && r.c.bindingIter == b.c.bindingIter + 1 && r.c.checkRound == b.c.checkRound && r.c.mgmtBind == b.c.mgmtBind
    && |r.c.bindings| == |b.c.bindings| && Past(r.c.tBound, now)
    && (forall k :: 0 <= k < |r.c.bindings| ==> r.c.bindings[k] == b.c.bindings[k].(dst := r.c.bindings[k].dst))
    && (forall k :: 0 <= k < |r.c.bindings| ==> r.c.bindings[k].dst.Unicast? == b.c.bindings[k].dst.Unicast?)
    && (b.c.bindings[b.c.bindingIter].dst.Unicast? ==> r.c.tBound[b.c.bindingIter] == now)
    && (forall k :: 0 <= k < |r.c.tBound| && k != b.c.bindingIter ==> r.c.tBound[k] == b.c.tBound[k])
    && b.h.ended <= r.h.ended
    && if b.c.bindings[b.c.bindingIter].dst.Unicast? then
         && |r.h.ended| == |b.h.ended| + 1
         && EndOf(r.h.ended[|b.h.ended|], b.c.checkRound, |b.c.bindings[b.c.bindingIter].reporting|)
       else r.h.ended == b.h.ended
  }

  /** The reports can be gone through to the end. */
  ghost predicate CanFinish(b: Machine, answer: Answers)
  {
    b.c.checkRound == 0 ||
    (Configured(answer) && forall k :: 0 <= k < |b.c.bindings| ==> DistinctReports(b.c.bindings[k].reporting))
  }

  /** A binding the core lists: its reports are checked, if it has a coordinator address. */
  lemma VisitListed(base: M.Dev, b: Machine, env: Env, answer: Answers) returns (r: Machine, tick: bool)
    requires Resting(base) && Reach(base, b, true) && UpNext(b, true) && b.c.bindingIter < |b.c.bindings|
    requires Serving(env) && Past(b.c.tBound, env.now) && CanFinish(b, answer)
    ensures Reach(base, r, tick) && BindingDone(b, r, tick, env.now)
  {
    hide At, Reachable, Configured;
    var i := b.c.bindingIter;
    var bnd := b.c.bindings[i];
    var o := DoDecide(base, b, env);
    if bnd.dst.Unicast? {
      VerifyLaw(b, env);
      hide On;
      assert b.c.tBound[i] <= env.now;
      r := PhaseEnds(base, o.b, env, answer);
      tick := false;
    } else {
      GroupIsDone(b, env);
      r, tick := o.b, true;
    }
  }

  lemma GroupIsDone(b: Machine, env: Env)
    requires UpNext(b, true) && b.c.bindingIter < |b.c.bindings| && b.c.bindings[b.c.bindingIter].dst.Groupcast?
    requires Past(b.c.tBound, env.now)
    requires Serving(env) || Resolved(b.c.bindings[b.c.bindingIter].dst, env).None?
    ensures var o := On(b, Ev(EvBindingTick), env); o.tick && BindingDone(b, o.b, true, env.now)
  {
    var i := b.c.bindingIter;
    BI.VerifyTickKeeps(b, env, false);
    assert b.c.tBound[i] <= env.now;
    if Resolved(b.c.bindings[i].dst, env).Some? {
      VerifyLaw(b, env);
    } else {
      UnresolvedLaw(b, env);
    }
    hide On, BI.PhaseInv, BI.EndedInv;
  }

  /** A binding the core does not list is bound first. */
  lemma VisitNew(base: M.Dev, b: Machine, env: Env, answer: Answers) returns (r: Machine, tick: bool)
    requires Resting(base) && Reach(base, b, true) && UpNext(b, true) && b.c.bindingIter < |b.c.bindings|
    requires Serving(env) && Past(b.c.tBound, env.now) && CanFinish(b, answer)
    ensures Reach(base, r, tick) && BindingDone(b, r, tick, env.now)
  {
    hide At, Reachable, Configured;
    var env0 := env.(inTable := None);
    var dst := b.c.bindings[b.c.bindingIter].dst;
    var o := DoDecide(base, b, env0);
    if Resolved(dst, env0).Some? {
      VerifyLaw(b, env0);
      hide On, BI.PhaseInv;
      r := BindExchange(base, o.b, env0);
      assert Past(r.c.tBound, env.now);
      r := DoVerifyEnter(base, r, false, env);
      var b1 := r;
      r, tick := VisitListed(base, b1, env, answer);
      DoneAfterBinding(b, b1, r, tick, env);
    } else {
      GroupIsDone(b, env0);
      r, tick := o.b, true;
    }
  }

  lemma DoneAfterBinding(b: Machine, b1: Machine, r: Machine, tick: bool, env: Env)
    requires BindingDone(b1, r, tick, env.now) && b.c.bindingIter < |b.c.bindings| == |b.c.tBound|
    requires b1.c.bindingIter == b.c.bindingIter && b1.c.checkRound == b.c.checkRound && b1.c.mgmtBind == b.c.mgmtBind
    requires |b1.c.bindings| == |b.c.bindings| && b1.h.ended == b.h.ended && |b1.c.tBound| == |b.c.tBound|
    requires forall k :: 0 <= k < |b.c.tBound| && k != b.c.bindingIter ==> b1.c.tBound[k] == b.c.tBound[k]
    requires var i := b.c.bindingIter; exists dst: Destination ::
      dst.Unicast? == b.c.bindings[i].dst.Unicast? && b1.c.bindings == b.c.bindings[i := b.c.bindings[i].(dst := dst)]
    ensures BindingDone(b, r, tick, env.now)
  {
    assert |r.c.tBound| == |r.c.bindings|;
    hide UpNext, Past, EndOf;
    var i := b.c.bindingIter;
    var dst: Destination :| dst.Unicast? == b.c.bindings[i].dst.Unicast?
      && b1.c.bindings == b.c.bindings[i := b.c.bindings[i].(dst := dst)];
    assert b1.c.bindings[i].reporting == b.c.bindings[i].reporting;
    forall k | 0 <= k < |r.c.bindings|
      ensures r.c.bindings[k] == b.c.bindings[k].(dst := r.c.bindings[k].dst)
      ensures r.c.bindings[k].dst.Unicast? == b.c.bindings[k].dst.Unicast?
    {
      assert r.c.bindings[k] == b1.c.bindings[k].(dst := r.c.bindings[k].dst);
    }
  }

  // ----- A whole round -----

  /** The numbers of reports of the unicast bindings from index `i` on. */
  function Sizes(bindings: seq<Binding>, i: nat): seq<nat>
    decreases |bindings| - i
  {
    if i >= |bindings| then []
    else (if bindings[i].dst.Unicast? then [|bindings[i].reporting|] else []) + Sizes(bindings, i + 1)
  }

  lemma {:induction false} SameSizes(a: seq<Binding>, b: seq<Binding>, i: nat)
    requires |a| == |b| && forall k :: 0 <= k < |a| ==>
      a[k].dst.Unicast? == b[k].dst.Unicast? && |a[k].reporting| == |b[k].reporting|
    ensures Sizes(a, i) == Sizes(b, i)
    decreases |a| - i
  {
    if i < |a| {
      SameSizes(a, b, i + 1);
    }
  }

  /** `more` are finished phases of this round for bindings with so many reports. */
  ghost predicate EndsOf(more: seq<PhaseEnd>, round: nat, sizes: seq<nat>)
  {
    |more| == |sizes| && forall k :: 0 <= k < |more| ==> EndOf(more[k], round, sizes[k])
  }

  /** The round is over: every unicast binding from index `i` on is dated and had its report phase. */
  ghost predicate RoundOver(b: Machine, r: Machine, i: nat, now: int)
  {
    && r.state.BindingRemove? && r.lock && !r.timer && BI.BindInv(r, 1)
    && r.c.checkRound == b.c.checkRound + 1 && |r.c.bindings| == |b.c.bindings| == |b.c.tBound|
    && (forall k :: i <= k < |b.c.bindings| && b.c.bindings[k].dst.Unicast? ==> r.c.tBound[k] == now)
    && (forall k :: 0 <= k < i && k < |b.c.bindings| ==> r.c.tBound[k] == b.c.tBound[k])
    && b.h.ended <= r.h.ended && EndsOf(r.h.ended[|b.h.ended|..], b.c.checkRound, Sizes(b.c.bindings, i))
  }

  lemma {:induction false} FinishRound(base: M.Dev, b: Machine, tick: bool, env: Env, answer: Answers, listed: bool)
      returns (r: Machine)
    requires Resting(base) && Reach(base, b, tick) && UpNext(b, tick) && b.c.bindingIter <= |b.c.bindings|
    requires Serving(env) && Past(b.c.tBound, env.now) && CanFinish(b, answer)
    ensures Reach(base, r, false) && RoundOver(b, r, b.c.bindingIter, env.now)
    decreases |b.c.bindings| - b.c.bindingIter
  {
    hide At, Reachable, Configured;
    var b1 := DoVerifyEnter(base, b, tick, env);
    if b1.c.bindingIter == |b1.c.bindings| {
      r := DoRoundIsOver(base, b1, env);
    } else {
      var b2, tick2;
      if listed {
        b2, tick2 := VisitListed(base, b1, env, answer);
      } else {
        b2, tick2 := VisitNew(base, b1, env, answer);
      }
      assert UpNext(b2, tick2) && CanFinish(b2, answer);
      hide Reach, UpNext, Past;
      r := FinishRound(base, b2, tick2, env, answer, listed);
      RestOfRound(b1, b2, tick2, r, env.now);
    }
  }

  lemma RestOfRound(b: Machine, b2: Machine, tick: bool, r: Machine, now: int)
    requires BindingDone(b, b2, tick, now) && RoundOver(b2, r, b2.c.bindingIter, now)
    ensures RoundOver(b, r, b.c.bindingIter, now)
  {
    hide UpNext, Past, BI.BindInv, EndOf;
    var i := b.c.bindingIter;
    SameSizes(b.c.bindings, b2.c.bindings, i + 1);
    var more, rest := r.h.ended[|b.h.ended|..], r.h.ended[|b2.h.ended|..];
    if b.c.bindings[i].dst.Unicast? {
      assert more == [b2.h.ended[|b.h.ended|]] + rest;
    } else {
      assert more == rest;
    }
  }

  lemma DoRoundIsOver(base: M.Dev, b: Machine, env: Env) returns (r: Machine)
    requires Resting(base) && Reach(base, b, true) && UpNext(b, true) && b.c.bindingIter == |b.c.bindings|
    ensures Reach(base, r, false) && RoundOver(b, r, b.c.bindingIter, env.now)
  {
    hide At, Reachable;
    RoundIsOverLaw(b, env);
    BI.VerifyTickKeeps(b, env, false);
    hide On, BI.PhaseInv;
    DoTick(base, b, env);
    r := On(b, Ev(EvBindingTick), env).b;
  }

  // ----- The start of a round -----

  /** At rest before a round. */
  ghost predicate Ready(b: Machine)
  {
    b.state.BindingHandler? && !b.lock && !b.timer && BI.BindInv(b, 0) && b.c.bindings != []
  }

  /** Pages with these numbers of entries make up the table. */
  predicate Pages(size: u8, counts: seq<u8>)
  {
    size > 0 && counts != [] && Total(counts[..|counts| - 1]) < size <= Total(counts)
  }

  /** The pages arrive one after the other. */
  lemma {:induction false} DoPages(base: M.Dev, b: Machine, size: u8, counts: seq<u8>, env: Env)
    requires Resting(base) && Reach(base, b, false) && BI.BindInv(b, 0) && b.state.TableRead? && b.timer
    requires b.c.startIndex == 0 && env.zdp.isEnqueued && size > 0
    requires counts != [] ==> Total(counts[..|counts| - 1]) < size
    ensures var r := AfterPages(b, size, counts, env);
      && Reach(base, r, false) && BI.BindInv(r, if r.lock then 1 else 0) && (r.state.TableRead? ==> r.timer && !r.lock)
      && r.h == b.h && r.c.bindings == b.c.bindings && r.c.tBound == b.c.tBound && r.c.checkRound == b.c.checkRound
      && !(r.timer && r.lock)
  {
    if counts != [] {
      var front := counts[..|counts| - 1];
      if front != [] {
        assert Total(front) == Total(front[..|front| - 1]) + front[|front| - 1];
      }
      DoPages(base, b, size, front, env);
      PagesJoinUp(b, size, front, env);
      DoPage(base, AfterPages(b, size, front, env), size, counts[|counts| - 1], env);
      hide AfterPage, Reach, BI.BindInv;
    }
  }

  lemma DoPage(base: M.Dev, b: Machine, size: u8, count: u8, env: Env)
    requires Resting(base) && Reach(base, b, false) && BI.BindInv(b, 0) && b.state.TableRead? && b.timer && !b.lock
    requires env.zdp.isEnqueued
    ensures var r := AfterPage(b, size, count, env);
      && Reach(base, r, false) && BI.BindInv(r, if r.lock then 1 else 0) && (r.state.TableRead? ==> r.timer && !r.lock)
      && r.h == b.h && r.c.bindings == b.c.bindings && r.c.tBound == b.c.tBound && r.c.checkRound == b.c.checkRound
      && !(r.timer && r.lock)
  {
    hide At, Reachable;
    var e := EvMgmtBindResponse(Some(PageOf(b.zdp.zdpSeq, ZDP_SUCCESS, size, b.c.startIndex, count, [])));
    PageLaw(b, size, b.c.startIndex, count, [], env);
    BI.EventKeeps(b, e, env, false);
    DoEvent(base, b, e, env);
    var b1 := On(b, Ev(e), env).b;
    if b1.state.TableRead? {
      TableRequestLaw(b1, env);
      BI.EventKeeps(b1, EvBindingTick, env, false);
      DoTick(base, b1, env);
    }
    hide On, BI.PhaseInv;
  }

  /** A tick starts the round; a device that may have a binding table is asked for it page by page. */
  lemma BeginRound(base: M.Dev, b: Machine, size: u8, counts: seq<u8>, env: Env) returns (r: Machine)
    requires Resting(base) && Reach(base, b, false) && Ready(b) && Pages(size, counts)
    requires env.zdp.isEnqueued && env.unconfirmed <= 4
    ensures Reach(base, r, false) && UpNext(r, false) && r.c.bindingIter == 0
    ensures r.h == b.h && r.c.bindings == b.c.bindings && r.c.tBound == b.c.tBound && r.c.checkRound == b.c.checkRound
  {
    hide At, Reachable;
    StartLaw(b, EvBindingTick, env);
    BI.EventKeeps(b, EvBindingTick, env, false);
    DoEvent(base, b, EvBindingTick, env);
    r := On(b, Ev(EvBindingTick), env).b;
    hide On;
    if r.state.TableRead? {
      r := AskForTable(base, r, env);
      DoPages(base, r, size, counts, env);
      PagesJoinUp(r, size, counts, env);
      r := AfterPages(r, size, counts, env);
    }
  }

  /** The first page is asked for. */
  lemma AskForTable(base: M.Dev, b: Machine, env: Env) returns (r: Machine)
    requires Resting(base) && Reach(base, b, false) && BI.BindInv(b, 1) && b.state.TableRead? && b.lock && !b.timer
    requires env.zdp.isEnqueued
    ensures Reach(base, r, false) && BI.BindInv(r, 0)
    ensures r == b.(lock := false, timer := true, zdp := env.zdp, c := b.c.(startIndex := 0))
  {
    hide At, Reachable;
    var b1 := b.(lock := false);
    TableRequestLaw(b1, env);
    BI.EnterKeeps(b, env, 1, false);
    DoEnter(base, b, env);
    var b2 := b1.(c := b.c.(startIndex := 0));
    TableRequestLaw(b2, env);
    BI.EventKeeps(b2, EvBindingTick, env, false);
    DoTick(base, b2, env);
    r := On(b2, Ev(EvBindingTick), env).b;
    hide On;
  }

  /** Main result on rounds: a device that confirms and answers every request gets through its table and
      through all its bindings, whatever it says about its reports in round 0, and if it is configured as
      asked in later rounds. */
  lemma RoundEnds(base: M.Dev, b: Machine, size: u8, counts: seq<u8>, env: Env, answer: Answers, listed: bool)
      returns (r: Machine)
    requires Resting(base) && Reach(base, b, false) && Ready(b) && Pages(size, counts)
    requires Serving(env) && env.unconfirmed <= 4 && Past(b.c.tBound, env.now) && CanFinish(b, answer)
    ensures Reach(base, r, false) && RoundOver(b, r, 0, env.now)
  {
    var b1 := BeginRound(base, b, size, counts, env);
    hide Reach, Resting;
    r := FinishRound(base, b1, false, env, answer, listed);
  }

  // ----- From construction on -----

  function AddAll(c: Context, bnds: seq<Binding>): Context
    decreases |bnds|
  {
    if bnds == [] then c else AddAll(AddBinding(c, bnds[0]), bnds[1..])
  }

  lemma {:induction false} DoAddAll(base: M.Dev, b: Machine, bnds: seq<Binding>)
    requires Reach(base, b, false)
    ensures Reach(base, b.(c := AddAll(b.c, bnds)), false)
    decreases |bnds|
  {
    hide Reach, AddBinding;
    if bnds == [] {
      assert b.(c := AddAll(b.c, bnds)) == b;
    } else {
      DoAdd(base, b, bnds[0]);
      DoAddAll(base, b.(c := AddBinding(b.c, bnds[0])), bnds[1..]);
    }
  }

  /** Added bindings are not dated, and nothing else changes. */
  lemma {:induction false} AddedAll(c: Context, bnds: seq<Binding>, now: int)
    requires Past(c.tBound, now) && now >= 0 && |c.tBound| == |c.bindings|
    ensures var r := AddAll(c, bnds);
      && Past(r.tBound, now) && |r.tBound| == |r.bindings| >= |c.bindings|
      && (bnds != [] ==> r.bindings != []) && r.checkRound == c.checkRound && r.mgmtBind == c.mgmtBind
    decreases |bnds|
  {
    if bnds != [] {
      AddLaw(c, bnds[0]);
      hide PlaceOf, AddBinding;
      AddedAll(AddBinding(c, bnds[0]), bnds[1..], now);
    }
  }

  lemma DoSupport(base: M.Dev, b: Machine)
    requires Reach(base, b, false)
    ensures Reach(base, b.(c := b.c.(mgmtBind := Supported)), false)
  {
    Go(At(base, b, false), M.SetMgmtBind(true));
    assert M.Next(At(base, b, false), M.SetMgmtBind(true)) == At(base, b.(c := b.c.(mgmtBind := Supported)), false);
  }

  /** What every run keeps holds for the binding machine at hand. */
  lemma ReachedInv(base: M.Dev, b: Machine)
    requires Resting(base) && Reach(base, b, false)
    ensures BI.BindInv(b, if b.lock then 1 else 0)
  {
    var s := At(base, b, false);
    var steps :| M.Run(steps) == s;
    R.Reachable(steps);
    assert R.Pending(s.urgent, Level1) == if b.lock then 1 else 0;
  }

  /** Round 0 of the device is over: every binding with a coordinator address is dated, and every one of its
      reports was verified or configured. */
  ghost predicate FirstRoundDone(s: M.Dev, bindings: seq<Binding>, now: int)
  {
    && s.b.state.BindingRemove? && s.b.c.checkRound == 1
    && |s.b.c.bindings| == |bindings| == |s.b.c.tBound|
    && (forall k :: 0 <= k < |bindings| && bindings[k].dst.Unicast? ==> s.b.c.tBound[k] == now)
    && EndsOf(s.b.h.ended, 0, Sizes(bindings, 0))
    && forall e :: e in s.b.h.ended ==> forall i: nat :: i < e.reports ==> i in e.covered
  }

  /** Main result: a device that answers every query, joins with any bindings, any binding table and any
      answers about its reports, and confirms and answers every request, gets through its first round. */
  lemma JoinedDeviceIsChecked(bnds: seq<Binding>, size: u8, counts: seq<u8>, env: Env, answer: Answers, listed: bool)
    requires bnds != [] && Pages(size, counts) && Serving(env) && env.unconfirmed <= 4
    ensures exists steps :: FirstRoundDone(M.Run(steps), AddAll(START.c, bnds).bindings, env.now)
  {
    hide At, Reachable;
    var base := ReachIdle(env.now);
    var b := Fresh();
    DoSupport(base, b);
    b := b.(c := b.c.(mgmtBind := Supported));
    DoAddAll(base, b, bnds);
    AddedAll(b.c, bnds, env.now);
    AddAllIgnoresSupport(START.c, bnds, Supported);
    b := b.(c := AddAll(b.c, bnds));
    ReachedInv(base, b);
    hide AddAll;
    var r := RoundEnds(base, b, size, counts, env, answer, listed);
    RoundIsShown(base, b, r, env.now);
  }

  lemma {:induction false} AddAllIgnoresSupport(c: Context, bnds: seq<Binding>, m: MgmtBind)
    ensures AddAll(c.(mgmtBind := m), bnds).bindings == AddAll(c, bnds).bindings
    decreases |bnds|
  {
    if bnds != [] {
      hide FindBinding, MergeReports;
      assert AddBinding(c.(mgmtBind := m), bnds[0]) == AddBinding(c, bnds[0]).(mgmtBind := m);
      AddAllIgnoresSupport(AddBinding(c, bnds[0]), bnds[1..], m);
    }
  }

  lemma RoundIsShown(base: M.Dev, b: Machine, r: Machine, now: int)
    requires Reach(base, r, false) && RoundOver(b, r, 0, now) && b.c.checkRound == 0 && b.h.ended == []
    ensures exists steps :: FirstRoundDone(M.Run(steps), b.c.bindings, now)
  {
    var steps :| M.Run(steps) == At(base, r, false);
    assert r.h.ended[0..] == r.h.ended;
    forall e | e in r.h.ended
      ensures forall i: nat :: i < e.reports ==> i in e.covered
    {
      assert BI.PhaseComplete(e) && EndOf(e, 0, e.reports);
    }
    assert FirstRoundDone(M.Run(steps), b.c.bindings, now);
  }
}
