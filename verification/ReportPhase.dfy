/** The report phase of one binding: it ends, and when a configure request can be empty. */
module ReportPhase {
  import opened Basics
  import opened ReportCheck
  import opened DeviceData
  import opened BindingMachine
  import opened BindingInvariant

  // ----- Termination -----

  /** Bindings left, reports left to read, reports left to configure, and the place in the request cycle:
      waiting for the answer, helper state, about to send. */
  datatype Measure = Measure(bindings: int, unread: int, unconfigured: int, place: nat)

  function Place(s: Bind, lock: bool): nat
  {
    match s
    case ReadNext | ConfigNext => 2
    case ReadReport | ConfigureReporting => if lock then 1 else 3
    case _ => 0
  }

  function MeasureOf(b: Machine): Measure
  {
    var n := if b.c.bindingIter < |b.c.bindings| then |b.c.bindings[b.c.bindingIter].reporting| else 0;
    Measure(|b.c.bindings| - b.c.bindingIter, n - b.c.reportIter, b.c.reportIter - b.c.configIter, Place(b.state,
        b.lock))
  }

  predicate Below(m: Measure, n: Measure)
  {
    || m.bindings < n.bindings
    || (m.bindings == n.bindings && m.unread < n.unread)
    || (m.bindings == n.bindings && m.unread == n.unread && m.unconfigured < n.unconfigured)
    || (m.bindings == n.bindings && m.unread == n.unread && m.unconfigured == n.unconfigured && m.place < n.place)
  }

  predicate Bounded(m: Measure) { m.bindings >= 0 && m.unread >= 0 && m.unconfigured >= 0 }

  /** What a message did to a machine in its report phase: it gave up until the next poll, it waits on
      unchanged, or it came closer to the end of the phase, possibly finishing it. */
  ghost predicate Progress(b: Machine, r: Machine)
  {
    || r.state.BindingHandler?
    || (r.state == b.state && r.c == b.c && r.lock == b.lock)
    || ((InReportPhase(r.state) || r.state.TableVerify?) && Below(MeasureOf(r), MeasureOf(b)))
  }

  /** Delivering the StateEnter of a report state sends the next request or moves on. */
  lemma EnterProgresses(b: Machine, env: Env)
    requires BindInv(b, 1) && InReportPhase(b.state) && b.lock
    ensures Bounded(MeasureOf(b))
    ensures var r := On(b.(lock := false), Enter(Level1), env).b;
            Progress(b, r) && !(r.state == b.state && r.c == b.c && r.lock == b.lock)
  {
    var bnd := b.c.bindings[b.c.bindingIter];
    if b.state.ReadReport? && bnd.reporting != [] {
      ReadBatchDone(bnd, b.c, env.now);
      var t := ReadBatch(bnd, b.c, env.now);
      assert t.picked != [] ==> t.picked[0] in t.picked;
    } else if b.state.ConfigureReporting? {
      FillConfigDone(bnd.reporting, b.c.configIter, b.c.reportIter, b.c.readMf, []);
    }
  }

  /** Every answer, confirm and timeout of a report state either gives up, changes nothing, or progresses. */
  lemma EventProgresses(b: Machine, m: Message, env: Env)
    requires BindInv(b, 0) && InReportPhase(b.state) && !m.Enter?
    ensures Bounded(MeasureOf(b)) && Progress(b, On(b, m, env).b)
  {
  }

  // ----- What a verified batch means -----

  /** With distinct reports, distinct answers and the requested manufacturer code in the response, the
      batch that was read last verifies exactly when the device reports every configuration asked for.
      When the response is compared the binding may have got more reports. */
  lemma VerifiedMeansConfigured(bnd: Binding, c: Context, now: int, rsp: Response, more: seq<Report>)
    requires c.reportIter <= |bnd.reporting| && bnd.reporting <= more
    requires DistinctReports(more) && DistinctAnswers(rsp.answers)
    requires rsp.manufacturerCode == ReadBatch(bnd, c, now).mf
    ensures var t := ReadBatch(bnd, c, now);
      && (forall i :: i in t.picked ==> i < |bnd.reporting|)
      && (ConfigurationValid(rsp, more, Requests(bnd.reporting, t.picked)) <==>
          forall i :: i in t.picked ==> AnsweredBy(rsp.answers, |rsp.answers|, bnd.reporting[i]))
  {
    var t := ReadBatch(bnd, c, now);
    ReadBatchDone(bnd, c, now);
    assert forall k :: 0 <= k < |t.picked| ==> t.picked[k] in t.picked;
    assert forall i :: 0 <= i < |bnd.reporting| ==> more[i] == bnd.reporting[i];
    CountingIsSound(rsp, more, Requests(bnd.reporting, t.picked), t.picked);
  }

  /** addBinding never gives a binding two reports that the test cannot tell apart. */
  lemma {:induction false} MergeKeepsDistinct(a: seq<Report>, b: seq<Report>)
    requires DistinctReports(a)
    ensures DistinctReports(MergeReports(a, b))
  {
    if b != [] {
      MergeKeepsDistinct(a, b[..|b| - 1]);
    }
  }

  // ----- Empty configure requests -----

  /** In check round 0 no configure request is ever empty. */
  lemma NoEmptyConfigureInRound0(b: Machine, pending: nat)
    requires BindInv(b, pending) && b.state.ConfigureReporting? && b.lock && b.c.checkRound == 0
    ensures ConfigBatch(b.c.bindings[b.c.bindingIter].reporting, b.c).1 != []
  {
    EmptyConfigureRequest(b.c.bindings[b.c.bindingIter].reporting, b.c);
  }

  /** In any round the first configure request after a failed read batch is not empty. */
  lemma FailedBatchIsConfigured(b: Machine, response: Option<Response>, env: Env, pending: nat)
    requires BindInv(b, pending) && b.state.ReadReport? && !b.lock
    ensures var r := ReportConfigResponse(b, response, env).b;
            r.state.ConfigureReporting? ==> ConfigBatch(r.c.bindings[r.c.bindingIter].reporting, r.c).1 != []
  {
    EmptyConfigureRequest(b.c.bindings[b.c.bindingIter].reporting, b.c);
  }

  /** Indices from i up to j whose report has the manufacturer code. */
  function CountCode(reports: seq<Report>, i: nat, j: nat, mf: nat): nat
    requires j <= |reports|
    decreases j - i
  {
    if i >= j then 0 else (if reports[i].manufacturerCode == mf then 1 else 0) + CountCode(reports, i + 1, j, mf)
  }

  lemma {:induction false} CountSplits(reports: seq<Report>, i: nat, k: nat, j: nat, mf: nat)
    requires i <= k <= j <= |reports|
    ensures CountCode(reports, i, j, mf) == CountCode(reports, i, k, mf) + CountCode(reports, k, j, mf)
    decreases k - i
  {
    if i < k {
      CountSplits(reports, i + 1, k, j, mf);
    }
  }

  /** A configure request takes what is there, or stops behind the record that made it full. */
  lemma {:induction false} FillConfigCounts(reports: seq<Report>, i: nat, limit: nat, mf: nat, picked: seq<nat>)
    requires i <= limit <= |reports| && |picked| < MAX_RECORDS
    ensures var (next, all) := FillConfig(reports, i, limit, mf, picked);
      && i <= next <= limit && |all| == |picked| + CountCode(reports, i, next, mf) && |all| <= MAX_RECORDS
      && (|all| < MAX_RECORDS ==> next == limit)
      && (|all| == MAX_RECORDS ==> i < next && reports[next - 1].manufacturerCode == mf)
    decreases limit - i
  {
    if i < limit {
      if reports[i].manufacturerCode != mf {
        FillConfigCounts(reports, i + 1, limit, mf, picked);
      } else if |picked| + 1 != MAX_RECORDS {
        FillConfigCounts(reports, i + 1, limit, mf, picked + [i]);
      }
    }
  }

  /** About to send a configure request. */
  predicate Configuring(b: Machine)
  {
    && b.state.ConfigureReporting? && b.lock && !b.timer
    && b.c.bindingIter < |b.c.bindings|
    && b.c.configIter < b.c.reportIter <= |b.c.bindings[b.c.bindingIter].reporting|
  }

  /** The request is sent and answered with success, and the next state is entered. */
  function AfterSuccess(b: Machine, env: Env): Machine
  {
    var b1 := On(b.(lock := false), Enter(Level1), env).b;
    var b2 := On(b1, Ev(EvZclResponse(0, b1.c.zcl.sequenceNumber, ZCL_SUCCESS)), env).b;
    On(b2.(lock := false), Enter(Level1), env).b
  }

  /** The n-th configure request after this one has no record, all before it were answered with success. */
  predicate EmptyAfter(b: Machine, env: Env, n: nat)
    decreases n
  {
    && Configuring(b)
    && if n == 0 then ConfigBatch(b.c.bindings[b.c.bindingIter].reporting, b.c).1 == []
       else EmptyAfter(AfterSuccess(b, env), env, n - 1)
  }

  lemma AfterSuccessGoesOn(b: Machine, env: Env)
    requires Configuring(b) && env.zcl.isEnqueued
    ensures var (next, picked) := ConfigBatch(b.c.bindings[b.c.bindingIter].reporting, b.c);
      var r := AfterSuccess(b, env);
      picked != [] ==>
        && (Configuring(r) <==> next < b.c.reportIter)
        && (next < b.c.reportIter ==> r.c == b.c.(configIter := next, zcl := env.zcl))
  {
    var reports := b.c.bindings[b.c.bindingIter].reporting;
    FillConfigCounts(reports, b.c.configIter, b.c.reportIter, b.c.readMf, []);
    hide FillConfig;
  }

  /** The phase meets an empty configure request, provided the device answers with success until then. */
  ghost predicate MeetsEmptyRequest(b: Machine, env: Env) { exists n: nat :: EmptyAfter(b, env, n) }

  /** The reports to configure are a multiple of what one request takes, and the last report read is not
      one of them. */
  predicate LeavesAnEmptyRequest(reports: seq<Report>, c: Context)
    requires 0 < c.reportIter <= |reports|
  {
    && CountCode(reports, c.configIter, c.reportIter, c.readMf) % MAX_RECORDS == 0
    && reports[c.reportIter - 1].manufacturerCode != c.readMf
  }

  /** Main result on follow-up requests: the exact condition, in the state after a failed read batch, under
      which the phase meets an empty configure request. */
  lemma {:induction false} EmptyFollowUpIff(b: Machine, env: Env)
    requires Configuring(b) && env.zcl.isEnqueued
    ensures MeetsEmptyRequest(b, env) <==> LeavesAnEmptyRequest(b.c.bindings[b.c.bindingIter].reporting, b.c)
    decreases b.c.reportIter - b.c.configIter
  {
    var reports, c := b.c.bindings[b.c.bindingIter].reporting, b.c;
    var (next, picked) := ConfigBatch(reports, c);
    var r := AfterSuccess(b, env);
    BatchDecides(reports, c);
    AfterSuccessGoesOn(b, env);
    if picked == [] {
      assert EmptyAfter(b, env, 0);
    } else {
      LaterRequests(b, env);
      hide AfterSuccess, LeavesAnEmptyRequest, FillConfig, EmptyAfter;
      if next < c.reportIter {
        EmptyFollowUpIff(r, env);
      }
    }
  }

  /** A request with records passes the question on to the next one. */
  lemma LaterRequests(b: Machine, env: Env)
    requires Configuring(b) && ConfigBatch(b.c.bindings[b.c.bindingIter].reporting, b.c).1 != []
    ensures MeetsEmptyRequest(b, env) <==> MeetsEmptyRequest(AfterSuccess(b, env), env)
    ensures !Configuring(AfterSuccess(b, env)) ==> !MeetsEmptyRequest(b, env)
  {
    var r := AfterSuccess(b, env);
    hide AfterSuccess, ConfigBatch;
    if n: nat :| EmptyAfter(b, env, n) {
      assert EmptyAfter(r, env, n - 1);
    }
    if n: nat :| EmptyAfter(r, env, n) {
      assert EmptyAfter(b, env, n + 1);
    }
  }

  /** What one request decides about the condition. */
  lemma BatchDecides(reports: seq<Report>, c: Context)
    requires c.configIter < c.reportIter <= |reports|
    ensures var (next, picked) := ConfigBatch(reports, c);
      && next <= c.reportIter
      && (picked == [] ==> LeavesAnEmptyRequest(reports, c))
      && (picked != [] && next == c.reportIter ==> !LeavesAnEmptyRequest(reports, c))
      && (picked != [] && next < c.reportIter ==>
            c.configIter < next && (LeavesAnEmptyRequest(reports, c) <==>
                                    LeavesAnEmptyRequest(reports, c.(configIter := next))))
  {
    var (next, picked) := ConfigBatch(reports, c);
    FillConfigCounts(reports, c.configIter, c.reportIter, c.readMf, []);
    CountSplits(reports, c.configIter, next, c.reportIter, c.readMf);
    hide FillConfig;
    if picked == [] {
      NoneCounted(reports, c.configIter, c.reportIter, c.readMf);
    }
  }

  lemma {:induction false} NoneCounted(reports: seq<Report>, i: nat, j: nat, mf: nat)
    requires i < j <= |reports| && CountCode(reports, i, j, mf) == 0
    ensures reports[j - 1].manufacturerCode != mf
    decreases j - i
  {
    if i + 1 < j {
      NoneCounted(reports, i + 1, j, mf);
    }
  }

  /** Every configure request of a run starts from such a state. */
  lemma ConfigureStartsConfiguring(b: Machine, pending: nat)
    requires BindInv(b, pending) && b.state.ConfigureReporting? && b.lock
    ensures Configuring(b)
  {
  }
}
