/** What the bindings sub-machine keeps on every message. */
module BindingInvariant {
  import opened Basics
  import opened ReportCheck
  import opened DeviceData
  import opened BindingMachine

  /** The states in which one binding's reports are checked. */
  predicate InReportPhase(s: Bind) { s in {ReadReport, ReadNext, ConfigNext, ConfigureReporting} }

  predicate NeedsIndex(s: Bind) { s.BindingCreate? || InReportPhase(s) }

  /** A later configure request of the failed batch still has to pick up index i. */
  ghost predicate ToConfigure(c: Context, reports: seq<Report>, i: nat)
  {
    c.configIter <= i < |reports| && reports[i].manufacturerCode == c.readMf
  }

  /** In check round 0 the last index read so far belongs to the batch that was read last. */
  ghost predicate LastIsRead(c: Context, reports: seq<Report>)
  {
    c.checkRound == 0 ==> 0 < c.reportIter <= |reports| && reports[c.reportIter - 1].manufacturerCode == c.readMf
  }

  /** A configure request made now would not be empty. */
  ghost predicate Refills(c: Context, reports: seq<Report>)
  {
    exists i :: c.configIter <= i < c.reportIter <= |reports| && reports[i].manufacturerCode == c.readMf
  }

  /** Every index below `reportIter` is verified, configured, recently checked, or still on its way to
      one of these, depending on the state. */
  ghost predicate PhaseInv(s: Bind, entered: bool, c: Context, h: History, reports: seq<Report>)
  {
    && c.configIter <= c.reportIter <= |reports|
    && h.readsSent <= c.reportIter && h.configsSent <= c.configIter
    && (c.checkRound == 0 ==> h.skipped == map[])
    && match s
       case ReadReport =>
         if !entered then
           && (c.reportIter < |reports| || c.reportIter == 0)
           && (forall i: nat :: i < c.reportIter ==> i in h.covered || i in h.skipped)
         else
           && (forall i: nat :: i < c.reportIter ==>
               i in h.covered || i in h.skipped || (i in h.asked && ToConfigure(c, reports, i)))
           && 0 < c.reportIter && Refills(c, reports) && LastIsRead(c, reports)
       case ReadNext => c.reportIter < |reports| && forall i: nat :: i < c.reportIter ==>
           i in h.covered || i in h.skipped
       case _ =>
         && 0 < c.reportIter && LastIsRead(c, reports)
         && (forall i: nat :: i < c.reportIter ==>
             i in h.covered || i in h.skipped || i in h.asked || ToConfigure(c, reports, i))
         && (!entered ==> h.asked == {} && c.configIter < c.reportIter)
  }

  ghost predicate PhaseComplete(e: PhaseEnd)
  {
    && (forall i: nat :: i < e.reports ==> i in e.covered || i in e.skipped)
    && (e.round == 0 ==> e.skipped == map[])
    && e.readsSent <= e.reports && e.configsSent <= e.reports
  }

  ghost predicate EndedInv(ended: seq<PhaseEnd>) { forall e :: e in ended ==> PhaseComplete(e) }

  /** `pending` counts the StateEnter events of level 1 in the urgent queue.  `entered` says whether
      the current state's handler has seen its StateEnter. */
  ghost predicate Core(b: Machine, entered: bool)
  {
    && !b.h.fault
    && |b.c.tBound| == |b.c.bindings|
    && (NeedsIndex(b.state) ==> b.c.bindingIter < |b.c.bindings|)
    && (InReportPhase(b.state) ==> PhaseInv(b.state, entered, b.c, b.h, b.c.bindings[b.c.bindingIter].reporting))
    && EndedInv(b.h.ended)
  }

  ghost predicate BindInv(b: Machine, pending: nat)
  {
    && Core(b, !b.lock)
    && (b.lock ==> pending > 0 && !b.state.NoBind?)
    && (!b.state.NoBind? && !b.state.BindingHandler? ==> pending == if b.lock then 1 else 0)
    && (b.timer ==> !b.lock && Timed(b.state))
  }

  /** A state that is not idle has a StateEnter, a BindingTick or its own timer ahead of it. */
  ghost predicate Alive(b: Machine, tick: bool)
  {
    match b.state
    case NoBind | BindingHandler => true
    case TableRead => b.lock || b.timer || tick
    case TableVerify => b.lock || tick
    case ReadNext | ConfigNext => b.lock
    case _ => b.lock || b.timer
  }

  /** The outcome of a handler that ran while `pending` StateEnter events of level 1 were queued. */
  ghost predicate Kept(o: Out, pending: nat, tick: bool)
  {
    !o.b.state.NoBind? && BindInv(o.b, pending + if o.enter then 1 else 0) && Alive(o.b, tick || o.tick)
  }

  // ----- Filling a read request -----

  /** The tracker of report i holds a time less than an hour ago. */
  ghost predicate Recent(bnd: Binding, now: int, lastCheck: map<TrackerKey, int>, i: nat)
    requires i < |bnd.reporting|
  {
    KeyOf(bnd, i) in lastCheck && now - lastCheck[KeyOf(bnd, i)] < RECHECK_MS
  }

  /** Every index passed over has such a tracker, and there is none in round 0. */
  ghost predicate SkipsAreRecent(bnd: Binding, round: nat, now: int, start: nat, t: Batch)
    requires t.next <= |bnd.reporting|
  {
    forall i: nat :: start <= i < t.next && i !in t.picked ==> round != 0 && Recent(bnd, now, t.lastCheck, i)
  }

  ghost predicate BatchInv(bnd: Binding, round: nat, now: int, start: nat, t: Batch)
  {
    && start <= t.next <= |bnd.reporting|
    && |t.picked| < MAX_RECORDS
    && (forall i :: i in t.picked ==> start <= i < t.next && bnd.reporting[i].manufacturerCode == t.mf)
    && (forall k, m :: 0 <= k < m < |t.picked| ==> t.picked[k] < t.picked[m])
    && SkipsAreRecent(bnd, round, now, start, t)
  }

  /** What a finished batch is: an increasing list of report indices of one manufacturer code; the indices
      passed over have a tracker value less than an hour old; a full batch stands on its last record, any
      other stands behind it. */
  ghost predicate BatchDone(bnd: Binding, round: nat, now: int, start: nat, t: Batch)
  {
    && start <= t.next <= |bnd.reporting|
    && |t.picked| <= MAX_RECORDS
    && (forall i :: i in t.picked ==>
          start <= i <= t.next && i < |bnd.reporting| && bnd.reporting[i].manufacturerCode == t.mf)
    && (forall k, m :: 0 <= k < m < |t.picked| ==> t.picked[k] < t.picked[m])
    && (|t.picked| == MAX_RECORDS ==> t.picked[MAX_RECORDS - 1] == t.next)
    && (|t.picked| < MAX_RECORDS ==> forall i :: i in t.picked ==> i < t.next)
    && SkipsAreRecent(bnd, round, now, start, t)
    && (t.picked != [] ==> t.picked[0] < t.next)
    && (t.picked == [] ==> t.next == |bnd.reporting|)
  }

  /** Marking a tracker that is due disturbs none of the indices passed over. */
  lemma MarkKeepsSkips(bnd: Binding, round: nat, now: int, start: nat, t: Batch, lastCheck: map<TrackerKey, int>)
    requires t.next < |bnd.reporting| && SkipsAreRecent(bnd, round, now, start, t)
    requires lastCheck == GetOrCreate(t.lastCheck, KeyOf(bnd, t.next))
    ensures SkipsAreRecent(bnd, round, now, start, t.(lastCheck := lastCheck))
    ensures round == 0 || now - lastCheck[KeyOf(bnd, t.next)] >= RECHECK_MS ==>
      SkipsAreRecent(bnd, round, now, start,
                     t.(picked := t.picked + [t.next], lastCheck := lastCheck[KeyOf(bnd, t.next) := BUSY_MARK]))
  {
  }

  /** Taking one more due report of the batch's manufacturer code. */
  lemma TakeKeepsBatch(bnd: Binding, round: nat, now: int, start: nat, t: Batch, lastCheck: map<TrackerKey, int>)
    requires BatchInv(bnd, round, now, start, t) && t.next < |bnd.reporting|
    requires t.picked == [] || t.mf == bnd.reporting[t.next].manufacturerCode
    requires SkipsAreRecent(bnd, round, now, start, t.(picked := t.picked + [t.next], lastCheck := lastCheck))
    ensures var taken := t.(mf := bnd.reporting[t.next].manufacturerCode, picked := t.picked + [t.next],
        lastCheck := lastCheck);
      && (|taken.picked| == MAX_RECORDS ==> BatchDone(bnd, round, now, start, taken))
      && (|taken.picked| < MAX_RECORDS ==> BatchInv(bnd, round, now, start, taken.(next := taken.next + 1)))
  {
    hide Recent;
    assert forall k :: 0 <= k < |t.picked| ==> t.picked[k] in t.picked;
    assert forall i :: i in t.picked ==> i in t.picked + [t.next];
    assert t.next in t.picked + [t.next];
  }

  lemma {:induction false} FillBatchDone(bnd: Binding, round: nat, now: int, start: nat, t: Batch)
    requires BatchInv(bnd, round, now, start, t)
    ensures BatchDone(bnd, round, now, start, FillBatch(bnd, round, now, t))
    decreases |bnd.reporting| - t.next
  {
    assert t.picked != [] ==> t.picked[0] in t.picked;
    if t.next < |bnd.reporting| {
      var report := bnd.reporting[t.next];
      var k := TrackerKey(bnd.clusterId, report.attributeId, bnd.srcEndpoint);
      var lastCheck := GetOrCreate(t.lastCheck, k);
      MarkKeepsSkips(bnd, round, now, start, t, lastCheck);
      if round != 0 && now - lastCheck[k] < RECHECK_MS {
        assert Recent(bnd, now, lastCheck, t.next);
        FillBatchDone(bnd, round, now, start, t.(next := t.next + 1, lastCheck := lastCheck));
      } else if t.picked == [] || t.mf == report.manufacturerCode {
        TakeKeepsBatch(bnd, round, now, start, t, lastCheck[k := BUSY_MARK]);
        var taken := t.(mf := report.manufacturerCode, picked := t.picked + [t.next],
            lastCheck := lastCheck[k := BUSY_MARK]);
        if |taken.picked| < MAX_RECORDS {
          FillBatchDone(bnd, round, now, start, taken.(next := taken.next + 1));
        }
      }
    }
  }

  lemma ReadBatchDone(bnd: Binding, c: Context, now: int)
    requires c.reportIter <= |bnd.reporting|
    ensures BatchDone(bnd, c.checkRound, now, c.reportIter, ReadBatch(bnd, c, now))
  {
    FillBatchDone(bnd, c.checkRound, now, c.reportIter, Batch(c.reportIter, 0, [], c.lastCheck));
  }

  // ----- Filling a configure request -----

  lemma {:induction false} FillConfigDone(reports: seq<Report>, i: nat, limit: nat, mf: nat, picked: seq<nat>)
    requires i <= limit <= |reports|
    ensures var (next, all) := FillConfig(reports, i, limit, mf, picked);
      && i <= next <= limit
      && (forall k: nat :: k in all <==> k in picked || (i <= k < next && reports[k].manufacturerCode == mf))
      && |all| >= |picked|
      && (|all| == |picked| ==> next == limit)
      && (i < limit ==> i < next)
    decreases limit - i
  {
    if i < limit {
      if reports[i].manufacturerCode != mf {
        FillConfigDone(reports, i + 1, limit, mf, picked);
      } else if |picked| + 1 != MAX_RECORDS {
        FillConfigDone(reports, i + 1, limit, mf, picked + [i]);
      }
    }
  }

  /** The exact condition under which a configure request carries no record: no index still to be
      configured has the manufacturer code of the last read request. */
  lemma EmptyConfigureRequest(reports: seq<Report>, c: Context)
    requires c.configIter <= c.reportIter <= |reports|
    ensures ConfigBatch(reports, c).1 == [] <==>
            forall i :: c.configIter <= i < c.reportIter ==> reports[i].manufacturerCode != c.readMf
  {
    var (next, picked) := ConfigBatch(reports, c);
    FillConfigDone(reports, c.configIter, c.reportIter, c.readMf, []);
    if picked == [] {
      forall i | c.configIter <= i < c.reportIter
        ensures reports[i].manufacturerCode != c.readMf
      {
        assert i !in picked;
      }
    } else {
      assert picked[0] in picked;
    }
  }

  // ----- Each handler keeps the invariant -----

  lemma ProcessNextBindingKeeps(b: Machine, tick: bool)
    requires !b.lock && !b.state.TableVerify? && (b.timer ==> Timed(b.state))
    requires !b.h.fault && |b.c.tBound| == |b.c.bindings| && b.c.bindingIter < |b.c.bindings| && EndedInv(b.h.ended)
    requires var n := |b.c.bindings[b.c.bindingIter].reporting|;
      && (forall i: nat :: i < n ==> i in b.h.covered || i in b.h.skipped)
      && (b.c.checkRound == 0 ==> b.h.skipped == map[])
      && b.h.readsSent <= n && b.h.configsSent <= n
    ensures Kept(ProcessNextBinding(b), 0, tick)
  {
  }

  lemma ReadReportEnterKeeps(b: Machine, env: Env, tick: bool)
    requires !b.lock && !b.timer && b.state.ReadReport? && Core(b, false)
    ensures Kept(ReadReportEnter(b, env), 0, tick)
  {
    var bnd := b.c.bindings[b.c.bindingIter];
    if bnd.reporting == [] {
      ProcessNextBindingKeeps(b, tick);
    } else {
      var t := ReadBatch(bnd, b.c, env.now);
      ReadBatchDone(bnd, b.c, env.now);
      var c := b.c.(reportIter := t.next, lastCheck := t.lastCheck, readMf := t.mf,
                    readRecords := Requests(bnd.reporting, t.picked));
      var ledger := Asking(b.h.ledger, AsksOf(bnd, t.picked));
      var skipped := SkippedBy(bnd, b.c.reportIter, env.now, t, ledger);
      assert b.c.checkRound == 0 ==> skipped == map[];
      var h := b.h.(skipped := b.h.skipped + skipped, ledger := ledger);
      if t.picked == [] {
        ProcessNextBindingKeeps(b.(c := c, h := h), tick);
      } else {
        assert t.picked[0] in t.picked;
        assert Refills(c.(zcl := env.zcl), bnd.reporting);
      }
    }
  }

  lemma ConfigureEnterKeeps(b: Machine, env: Env, tick: bool)
    requires !b.lock && !b.timer && b.state.ConfigureReporting? && Core(b, false)
    ensures Kept(ConfigureEnter(b, env), 0, tick)
  {
    var reports := b.c.bindings[b.c.bindingIter].reporting;
    FillConfigDone(reports, b.c.configIter, b.c.reportIter, b.c.readMf, []);
  }

  lemma OtherEnterKeeps(b: Machine, env: Env, tick: bool)
    requires !b.lock && !b.timer && Core(b, false)
    requires b.state in {TableRead, TableVerify, BindingCreate, BindingRemove, ReadNext, ConfigNext, BindingIdle}
    ensures Kept(On(b, Enter(Level1), env), 0, tick)
  {
  }

  lemma EnterKeeps(b: Machine, env: Env, pending: nat, tick: bool)
    requires BindInv(b, pending) && pending > 0 && !b.state.NoBind?
    ensures Kept(On(b.(lock := false), Enter(Level1), env), pending - 1, tick)
  {
    var b1 := b.(lock := false);
    if b.state.BindingHandler? {
    } else if b.state.ReadReport? {
      ReadReportEnterKeeps(b1, env, tick);
    } else if b.state.ConfigureReporting? {
      ConfigureEnterKeeps(b1, env, tick);
    } else {
      OtherEnterKeeps(b1, env, tick);
    }
  }

  lemma TimeoutKeeps(b: Machine, env: Env, pending: nat, tick: bool)
    requires BindInv(b, pending) && b.timer
    ensures Kept(On(b.(timer := false), Timeout(Level1), env), pending, tick)
  {
    assert On(b.(timer := false), Timeout(Level1), env) == SetBind(b.(timer := false), BindingHandler);
  }

  lemma VerifyEntryKeeps(b: Machine, env: Env, tick: bool)
    requires BindInv(b, 0) && b.state.TableVerify? && b.c.bindingIter < |b.c.bindings|
    ensures Kept(VerifyEntry(b, b.c.bindingIter, env), 0, tick)
  {
  }

  lemma VerifyTickKeeps(b: Machine, env: Env, tick: bool)
    requires BindInv(b, 0) && b.state.TableVerify?
    ensures Kept(VerifyTick(b, env), 0, tick)
  {
    var i := b.c.bindingIter;
    if i < |b.c.bindings| {
      var bnd := b.c.bindings[i];
      var dst := if bnd.dst.Unicast? then Unicast(env.macAddress) else ResolveGroup(bnd.dst, env.configGroups).0;
      VerifyEntryKeeps(b, env, tick);
      VerifyEntryKeeps(b.(c := b.c.(bindings := b.c.bindings[i := bnd.(dst := dst)])), env, tick);
    }
  }

  lemma MgmtBindResponseKeeps(b: Machine, data: seq<u8>, tick: bool)
    requires BindInv(b, 0) && b.state.TableRead? && Alive(b, tick)
    ensures Kept(MgmtBindResponse(b, data), 0, tick)
  {
  }

  lemma ReportConfigResponseKeeps(b: Machine, response: Option<Response>, env: Env, tick: bool)
    requires BindInv(b, 0) && b.state.ReadReport? && Alive(b, tick)
    ensures Kept(ReportConfigResponse(b, response, env), 0, tick)
  {
  }

  lemma ConfigureResponseKeeps(b: Machine, status: u8, tick: bool)
    requires BindInv(b, 0) && b.state.ConfigureReporting? && Alive(b, tick)
    ensures Kept(ConfigureResponse(b, status), 0, tick)
  {
  }

  lemma AwaitReplyKeeps(b: Machine, m: Message, requestId: u8, tick: bool)
    requires BindInv(b, 0) && Timed(b.state) && !m.Enter? && Alive(b, tick)
    ensures Kept(AwaitReply(b, m, requestId), 0, tick)
  {
  }

  lemma StartKeeps(b: Machine, m: Message, env: Env, tick: bool)
    requires BindInv(b, 0) && b.state.BindingHandler?
    ensures Kept(Start(b, m, env), 0, tick)
  {
  }

  lemma ZdpResponseKeeps(b: Machine, e: Event, env: Env, tick: bool)
    requires BindInv(b, 0) && Alive(b, tick) && e.EvZdpResponse?
    ensures b.state.BindingCreate? ==> Kept(OnBindingCreate(b, Ev(e), env), 0, tick)
    ensures b.state.BindingRemove? ==> Kept(OnBindingRemove(b, Ev(e), env), 0, tick)
  {
  }

  lemma ReportEventKeeps(b: Machine, e: Event, env: Env, tick: bool)
    requires BindInv(b, 0) && Alive(b, tick) && (b.state.ReadReport? || b.state.ConfigureReporting?)
    ensures Kept(On(b, Ev(e), env), 0, tick)
  {
    AwaitReplyKeeps(b, Ev(e), b.c.zcl.apsReqId, tick);
    if b.state.ReadReport? && e.EvReportConfig? {
      ReportConfigResponseKeeps(b, e.response, env, tick);
    } else if b.state.ConfigureReporting? && e.EvZclResponse? {
      ConfigureResponseKeeps(b, e.status, tick);
    }
  }

  lemma TableReadEventKeeps(b: Machine, e: Event, env: Env, tick: bool)
    requires BindInv(b, 0) && b.state.TableRead? && (Alive(b, tick) || e.EvBindingTick?)
    ensures Kept(OnTableRead(b, Ev(e), env), 0, tick)
  {
    if e.EvMgmtBindResponse? && e.data.Some? {
      MgmtBindResponseKeeps(b, e.data.value, tick);
    } else if !e.EvBindingTick? {
      AwaitReplyKeeps(b, Ev(e), b.zdp.apsReqId, tick);
    }
  }

  lemma EventKeeps(b: Machine, e: Event, env: Env, tick: bool)
    requires BindInv(b, 0) && !b.state.NoBind?
    requires Alive(b, tick) || (e.EvBindingTick? && (b.state.TableRead? || b.state.TableVerify?))
    ensures Kept(On(b, Ev(e), env), 0, tick)
  {
    match b.state
    case BindingHandler => StartKeeps(b, Ev(e), env, tick);
    case TableRead => TableReadEventKeeps(b, e, env, tick);
    case TableVerify => if e.EvBindingTick? { VerifyTickKeeps(b, env, tick); }
    case BindingCreate | BindingRemove =>
      if e.EvZdpResponse? { ZdpResponseKeeps(b, e, env, tick); } else { AwaitReplyKeeps(b, Ev(e), b.zdp.apsReqId,
          tick); }
    case ReadReport | ConfigureReporting => ReportEventKeeps(b, e, env, tick);
    case _ =>
  }

  // ----- Removing bindings -----

  /** An unbind request goes out for an entry that is to be removed and for no other, and the machine goes on
      to BindingIdle exactly when there is no such entry. */
  lemma UnbindsOrphansOnly(b: Machine, env: Env)
    requires b.state.BindingRemove?
    ensures var r := RemoveEnter(b, env).b;
      && (r.h.removed != b.h.removed ==>
            exists e :: e in env.bindingTable && IsOrphan(e, b.c.bindings, env.nodes)
              && r.h.removed == b.h.removed + [e])
      && (r.state.BindingIdle? <==> forall e :: e in env.bindingTable ==> !IsOrphan(e, b.c.bindings, env.nodes))
  {
    var i := FindOrphan(env.bindingTable, b.c.bindings, env.nodes);
    if i < |env.bindingTable| {
      assert env.bindingTable[i] in env.bindingTable;
    }
  }

  // ----- Bindings added while the machine runs -----

  lemma {:induction false} MergeExtends(a: seq<Report>, b: seq<Report>)
    ensures a <= MergeReports(a, b)
  {
    if b != [] {
      MergeExtends(a, b[..|b| - 1]);
    }
  }

  /** More reports at the end of the list do not disturb a running report phase. */
  lemma PhaseInvGrows(s: Bind, entered: bool, c: Context, h: History, reports: seq<Report>, more: seq<Report>)
    requires InReportPhase(s) && PhaseInv(s, entered, c, h, reports) && reports <= more
    ensures PhaseInv(s, entered, c, h, more)
  {
    forall i: nat | i < |reports|
      ensures more[i] == reports[i]
    {
    }
    assert forall i: nat :: ToConfigure(c, reports, i) ==> ToConfigure(c, more, i);
  }

  /** PhaseInv looks at the iterators only, not at the list of bindings. */
  lemma AddBindingKeeps(b: Machine, bnd: Binding, pending: nat)
    requires BindInv(b, pending)
    ensures BindInv(b.(c := AddBinding(b.c, bnd)), pending)
  {
    var c := AddBinding(b.c, bnd);
    var i := FindBinding(b.c.bindings, bnd);
    if i < |b.c.bindings| {
      MergeExtends(b.c.bindings[i].reporting, bnd.reporting);
    }
    if InReportPhase(b.state) {
      var at := b.c.bindingIter;
      PhaseInvGrows(b.state, !b.lock, b.c, b.h, b.c.bindings[at].reporting, c.bindings[at].reporting);
      assert PhaseInv(b.state, !b.lock, c, b.h, c.bindings[at].reporting);
    }
  }
}
