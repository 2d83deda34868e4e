/** The main results about runs of the device supervisor, stated one by one. */
module DeviceTheorems {
  import opened Basics
  import opened DeviceData
  import opened DeviceMachine
  import opened DeviceRuns
  import B = BindingMachine
  import BI = BindingInvariant
  import P = PollMachine
  import BT = BindingTrackers
  import T = DeviceTrackers

  /** The sub-machines run only inside Idle; a lock means its StateEnter is still queued; the level 0
      timer rests in GetDeviceDescription and Idle, so no level 0 timeout reaches the poll machine
      and the level assertion of PollNext holds. */
  lemma Hierarchy(steps: seq<Step>)
    ensures var s := Run(steps);
      && (!s.b.state.NoBind? || !s.p.state.NoPoll? ==> s.top.Idle? && !s.lock0)
      && (s.lock0 ==> Level0 in s.urgent)
      && (s.b.lock ==> Level1 in s.urgent)
      && (s.p.lock ==> Level2 in s.urgent)
      && (s.top.Idle? || s.top.GetDeviceDescription? ==> !s.timer0)
      && !s.p.h.fault
  {
    Reachable(steps);
  }

  /** With urgent events delivered first, no queued event ever meets a locked level. */
  lemma NoQueuedEventIsLost(steps: seq<Step>)
    ensures var s := Run(steps);
      && s.lostQueued == 0
      && (s.urgent == [] ==> !s.lock0 && !s.b.lock && !s.p.lock)
  {
    Reachable(steps);
  }

  /** Exactly one kind of step throws an event away: the device widget's direct call of handleEvent while
      the StateEnter of level 0 is still queued. */
  lemma EventIsLostIff(steps: seq<Step>, step: Step)
    ensures var s := Run(steps);
      Next(s, step).lost == s.lost + if step.ReloadNow? && s.lock0 then 1 else 0
  {
    Reachable(steps);
    LossOfStep(Run(steps), step);
  }

  lemma LossOfStep(s: Dev, step: Step)
    requires Inv(s)
    ensures Next(s, step).lost == s.lost + if step.ReloadNow? && s.lock0 then 1 else 0
  {
    match step
    case Deliver(env) =>
      if s.urgent != [] {
        EnterLosesNothing(s, env);
      } else if s.queue != [] {
        HandleEventLosesNothing(s.(queue := s.queue[1..]), s.queue[0], env);
      }
    case Fire(l, env) =>
      if l.Level0? && s.timer0 {
        OnTopLosesNothing(s.(timer0 := false), Timeout(l), env);
      }
    case ReloadNow(env) =>
    case _ =>
  }

  lemma EnterLosesNothing(s: Dev, env: Env)
    requires s.urgent != []
    ensures Process(s, env).lost == s.lost
  {
    if s.urgent[0].Level0? {
      OnTopLosesNothing(s.(urgent := s.urgent[1..], lock0 := false), Enter(Level0), env);
    }
  }

  /** A reload that is lost: the widget's timer fires right after the device was constructed. */
  lemma FirstReloadIsLost(env: Env)
    ensures Run([Construct]).lost == 0 && Run([Construct, ReloadNow(env)]) == Run([Construct]).(lost := 1)
  {
    var a, b := [Construct], [Construct, ReloadNow(env)];
    assert a[..0] == [] && b[..1] == a;
    assert Run(a) == SetTop(START, Init);
  }

  /** Or right after a query of level 0 has timed out. */
  lemma LaterReloadIsLost(env: Env)
    requires env.node && !env.coordinator && !env.nodeDescriptor && env.reachable && env.zdp.isEnqueued
    ensures var s := Run([Construct, Deliver(env), Deliver(env), Fire(Level0, env)]);
      Run([Construct, Deliver(env), Deliver(env), Fire(Level0, env), ReloadNow(env)]) == s.(lost := 1)
  {
    var a, b := [Construct], [Construct, Deliver(env)];
    var c, d := [Construct, Deliver(env), Deliver(env)], [Construct, Deliver(env), Deliver(env), Fire(Level0, env)];
    assert [] + a == a && a + [Deliver(env)] == b && b + [Deliver(env)] == c && c + [Fire(Level0, env)] == d;
    assert d + [ReloadNow(env)] == [Construct, Deliver(env), Deliver(env), Fire(Level0, env), ReloadNow(env)];
    assert Run([]) == START;
    hide Next, Run;
    RunMore([], Construct);
    RunMore(a, Deliver(env));
    RunMore(b, Deliver(env));
    RunMore(c, Fire(Level0, env));
    RunMore(d, ReloadNow(env));
    QueryTimesOut(env);
    LockedReload(Run(d), env);
  }

  lemma RunMore(steps: seq<Step>, step: Step)
    ensures Run(steps + [step]) == Next(Run(steps), step)
  {
    assert (steps + [step])[..|steps|] == steps;
  }

  lemma QueryTimesOut(env: Env)
    requires env.node && !env.coordinator && !env.nodeDescriptor && env.reachable && env.zdp.isEnqueued
    ensures var s := Next(Next(Next(Next(START, Construct), Deliver(env)), Deliver(env)), Fire(Level0, env));
      s.lock0 && s.lost == 0
  {
    var s1 := Next(START, Construct);
    var s2 := Next(s1, Deliver(env));
    assert s2.top.NodeDescriptor? && s2.urgent == [Level0];
    var s3 := Next(s2, Deliver(env));
    assert s3.top.NodeDescriptor? && s3.timer0 && !s3.lock0 && s3.lost == 0;
  }

  lemma LockedReload(s: Dev, env: Env)
    ensures s.lock0 ==> Next(s, ReloadNow(env)) == s.(lost := s.lost + 1)
  {
  }

  /** Every sub-state other than BindingHandler and PollIdle has an undelivered StateEnter, an
      undelivered BindingTick, or the timer of its own level ahead of it. */
  lemma NoWedge(steps: seq<Step>)
    ensures var s := Run(steps);
      && (!s.b.state.NoBind? && !s.b.state.BindingHandler? ==>
            Level1 in s.urgent || s.b.timer || (EvBindingTick in s.queue && s.b.state in {TableRead, TableVerify}))
      && (P.Timed(s.p.state) ==> Level2 in s.urgent || s.p.timer)
  {
    Reachable(steps);
  }

  /** Under any interleaving of events, timeouts, addBinding and clearBindings every index is in range. */
  lemma IndexSafety(steps: seq<Step>)
    ensures var s := Run(steps); var c := s.b.c;
      && !s.b.h.fault
      && |c.tBound| == |c.bindings|
      && (BI.NeedsIndex(s.b.state) ==> c.bindingIter < |c.bindings|)
      && (BI.InReportPhase(s.b.state) ==> c.configIter <= c.reportIter <= |c.bindings[c.bindingIter].reporting|)
  {
    Reachable(steps);
  }

  /** Whenever a report phase ends in the next binding, every report of the binding was verified by a
      read batch or configured by an accepted request; in later check rounds it may instead have been
      passed over, which SkippedReports is about.  A binding with n reports costs at most n requests of
      each kind. */
  lemma Coverage(steps: seq<Step>, e: B.PhaseEnd)
    requires e in Run(steps).b.h.ended
    ensures e.round == 0 ==> forall i: nat :: i < e.reports ==> i in e.covered
    ensures forall i: nat :: i < e.reports ==> i in e.covered || i in e.skipped
    ensures e.readsSent <= e.reports && e.configsSent <= e.reports
  {
    Reachable(steps);
  }

  /** The tracker's value was written by the answer that was this report's own last check. */
  predicate ReallyChecked(k: B.Skip)
  {
    k.origin.Stamped? && k.checked.Some? && k.checked.value.request == k.origin.answered
  }

  /** A report is passed over because its tracker's value is less than an hour old.  The value is the time of
      its own last check if and only if it is neither the initial 0 nor the busy mark, the mark it replaced
      was set by the very request whose answer wrote the value, not left behind by an earlier one, and that
      request asked for this report, not just for another one with the same tracker. */
  lemma SkippedReports(steps: seq<Step>, e: B.PhaseEnd, i: nat)
    requires e in Run(steps).b.h.ended && i in e.skipped
    ensures var k := e.skipped[i];
      && e.round != 0 && k.now - k.value < RECHECK_MS
      && (ReallyChecked(k) <==> k.origin.Stamped? && k.origin.mark == k.origin.answered && k.ask in k.origin.batch)
      && (ReallyChecked(k) ==> k.checked.value.at == k.value)
      && (k.origin.Unset? ==> k.value == 0)
      && (k.origin.Marked? ==> k.value == BUSY_MARK)
  {
    Reachable(steps);
    T.TrackersReachable(steps);
    assert BT.SkipOk(e.skipped[i]);
    OwnAskHasKey(e.skipped[i]);
  }

  lemma OwnAskHasKey(k: B.Skip)
    ensures k.origin.Stamped? && k.ask in k.origin.batch ==> k.ask.key in B.KeysOf(k.origin.batch)
  {
  }

  /** What decides it in terms of the DDF: no other report that was ever added has this report's cluster,
      attribute and endpoint, be it another one of the device or a former one in its place. */
  ghost predicate OwnTracker(steps: seq<Step>, a: B.Ask)
  {
    forall n :: 0 <= n < |steps| && steps[n].Add? ==> NoRival(steps[n].binding, a)
  }

  ghost predicate NoRival(bnd: B.Binding, a: B.Ask)
  {
    forall i :: 0 <= i < |bnd.reporting| && B.KeyOf(bnd, i) == a.key ==> bnd.reporting[i] == a.report
  }

  lemma {:induction false} OwnTrackerIsItsOwn(steps: seq<Step>, a: B.Ask, x: B.Ask)
    requires OwnTracker(steps, a) && x in T.Added(steps) && x.key == a.key
    ensures x == a
  {
    var front, last := steps[..|steps| - 1], steps[|steps| - 1];
    if x in T.Added(front) {
      OwnTrackerIsItsOwn(front, a, x);
    } else {
      assert NoRival(last.binding, a);
    }
  }

  /** Such a report was really checked when it is passed over, if and only if the answer replaced the mark of
      its own request. */
  lemma OwnTrackerDecides(steps: seq<Step>, e: B.PhaseEnd, i: nat)
    requires e in Run(steps).b.h.ended && i in e.skipped && OwnTracker(steps, e.skipped[i].ask)
    ensures var k := e.skipped[i];
      ReallyChecked(k) <==> k.origin.Stamped? && k.origin.mark == k.origin.answered
  {
    SkippedReports(steps, e, i);
    T.TrackersReachable(steps);
    var k := e.skipped[i];
    assert BT.SkipOk(k) && BT.OriginIn(k.origin, T.Added(steps));
    if k.origin.Stamped? && k.origin.mark == k.origin.answered {
      var x :| x in k.origin.batch && x.key == k.ask.key;
      OwnTrackerIsItsOwn(steps, k.ask, x);
    }
  }

  /** So in every round after the first a phase that is not cut short covers each report whose own last check
      is an hour old or missing, provided that the report has its tracker to itself, that the tracker does
      not hold a stamp on a stale mark, and that the clock is past the first hour. */
  lemma OverdueReportsAreCovered(steps: seq<Step>, e: B.PhaseEnd, i: nat)
    requires e in Run(steps).b.h.ended && i < e.reports
    requires i in e.skipped ==>
      var k := e.skipped[i];
      && OwnTracker(steps, k.ask) && k.now - BUSY_MARK >= RECHECK_MS
      && (k.origin.Stamped? ==> k.origin.mark == k.origin.answered)
    ensures i in e.covered ||
      (i in e.skipped && e.skipped[i].checked.Some? && e.skipped[i].now - e.skipped[i].checked.value.at < RECHECK_MS)
  {
    Coverage(steps, e);
    if i in e.skipped {
      SkippedReports(steps, e, i);
      OwnTrackerDecides(steps, e, i);
    }
  }

  /** No item is read more than three times in a session, queued items have retries left, and every
      session that was started is finished, was cut short by leaving Idle, or is still running. */
  lemma PollBound(steps: seq<Step>)
    ensures var p := Run(steps).p;
      && (forall k :: 0 <= k < |p.h.tries| ==> p.h.tries[k] <= 3)
      && (P.Timed(p.state) ==> forall k :: 0 <= k < |p.items| ==> p.items[k].retry < 3)
      && p.h.started == p.h.finished + p.h.aborted + (if P.Timed(p.state) then 1 else 0)
  {
    Reachable(steps);
  }

  ghost predicate FinishIsPollDone(p: P.Machine, o: P.Out)
  {
    && (o.emits == Some(EvPollDone) <==> o.p.h.finished == p.h.finished + 1)
    && (o.emits == Some(EvPollDone) <==> !P.Timed(o.p.state))
    && (o.emits.None? ==> o.p.h.finished == p.h.finished)
    && o.p.h.started == p.h.started && o.p.h.aborted == p.h.aborted
  }

  lemma BusyDoesNotFinish(p: P.Machine, m: Message, flags: Flags)
    requires p.state.PollBusy?
    ensures FinishIsPollDone(p, P.OnPollBusy(p, m, flags))
  {
  }

  lemma NextFinishes(p: P.Machine, m: Message, flags: Flags, env: Env)
    requires p.state.PollNext?
    ensures FinishIsPollDone(p, P.OnPollNext(p, m, flags, env))
  {
  }

  /** A session finishes exactly when the poll machine emits its one REventPollDone. */
  lemma FinishEmitsPollDone(p: P.Machine, m: Message, flags: Flags, env: Env)
    requires P.Timed(p.state)
    ensures FinishIsPollDone(p, P.On(p, m, flags, env))
  {
    if p.state.PollBusy? {
      BusyDoesNotFinish(p, m, flags);
    } else {
      NextFinishes(p, m, flags, env);
    }
  }
}
