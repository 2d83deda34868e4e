/** Level 1 of the device supervisor: bindings and reporting configuration (device.cpp:970-1782).

    A handler sees one message and answers with the new machine state plus the events it queued:
    a StateEnter for its own level, a BindingTick, or both. */
module BindingMachine {
  import opened Basics
  import opened ReportCheck
  import opened DeviceData

  /** Destination of a DDF binding; `ext` is 0 until the coordinator address is filled in. */
  datatype Destination = Unicast(ext: nat) | Groupcast(configGroup: nat, group: nat)

  datatype Binding = Binding(clusterId: nat, srcEndpoint: u8, dstEndpoint: u8, dst: Destination, reporting: seq<Report>)

  datatype MgmtBind = Unknown | Supported | NotSupported

  datatype TrackerKey = TrackerKey(clusterId: nat, attributeId: nat, endpoint: u8)

  /** BindingContext */
  datatype Context = Context(
    checkRound: nat, bindingIter: nat, reportIter: nat, configIter: nat,
    mgmtBind: MgmtBind, startIndex: u8,
    tBound: seq<int>,                 // BindingTracker::tBound, 0 when not set
    bindings: seq<Binding>,
    lastCheck: map<TrackerKey, int>,  // ReportTracker::lastConfigureCheck
    readMf: nat, readRecords: seq<Request>,
    zcl: ZclResult)

  /** A report of a binding and the tracker it uses; other reports may use the same one. */
  datatype Ask = Ask(key: TrackerKey, report: Report)

  /** Who wrote a tracker's value: nobody yet, the read request that marked it busy, or the answer to a read
      request that found it marked.  `batch` are the reports that answered request asked for. */
  datatype Origin =
    | Unset
    | Marked(mark: nat)
    | Stamped(mark: nat, answered: nat, at: int, batch: set<Ask>)

  /** A verified answer: to which request, and when. */
  datatype Check = Check(request: nat, at: int)

  /** History of the trackers and of the reports.  Read requests are numbered from 1, `batch` belongs to the
      last one; `checked` has the last verified answer to a request for a report, whatever its tracker says. */
  datatype Ledger = Ledger(requests: nat, batch: set<Ask>, origin: map<TrackerKey, Origin>, checked: map<Ask, Check>)

  /** A report that was passed over, its tracker's value, the time, and the report's own last check. */
  datatype Skip = Skip(ask: Ask, value: int, now: int, origin: Origin, checked: Option<Check>)

  /** A finished report phase of one binding. */
  datatype PhaseEnd = PhaseEnd(covered: set<nat>, skipped: map<nat, Skip>, reports: nat, round: nat,
                               readsSent: nat, configsSent: nat)

  /** History: what the current and the finished report phases did.  No handler reads it. */
  datatype History = History(
    asked: set<nat>,      // report indices of the request in flight
    covered: set<nat>,    // indices whose read batch verified or whose configure request succeeded
    skipped: map<nat, Skip>,  // indices passed over because their tracker's value is less than an hour old
    readsSent: nat, configsSent: nat,
    ended: seq<PhaseEnd>,
    ledger: Ledger,
    removed: seq<CoreBinding>,  // binding table entries an unbind request was sent for
    fault: bool)          // a failed assertion or an index out of range

  datatype Machine = Machine(state: Bind, lock: bool, timer: bool, zdp: ZdpResult, c: Context, h: History)

  /** The machine after a handler, and the events the handler queued. */
  datatype Out = Out(b: Machine, enter: bool, tick: bool)

  function Stay(b: Machine): Out { Out(b, false, false) }
  function Ticking(b: Machine): Out { Out(b, false, true) }
  function Fault(b: Machine): Out { Stay(b.(h := b.h.(fault := true))) }

  /** Handlers whose StateLeave stops the level 1 timer. */
  predicate Timed(s: Bind)
  {
    s in {TableRead, BindingCreate, BindingRemove, ReadReport, ConfigureReporting, BindingIdle}
  }

  /** setState for level 1: leave, lock, queue the StateEnter. */
  function SetBind(b: Machine, s: Bind): Out
  {
    if b.state == s then Stay(b)
    else Out(b.(state := s, timer := b.timer && !Timed(b.state), lock := !s.NoBind?), !s.NoBind?, false)
  }

  // ----- Binding table and bindings -----

  function Start(b: Machine, m: Message, env: Env): Out
  {
    if m.Ev? && m.event in {EvPoll, EvAwake, EvBindingTick} then
      if b.c.bindings == [] || env.unconfirmed > MAX_UNCONFIRMED then Stay(b)
      else SetBind(b.(c := b.c.(bindingIter := 0)), if b.c.mgmtBind.NotSupported? then TableVerify else TableRead)
    else if m.Ev? && m.event.EvBindingTable? then
      if m.event.status == ZDP_SUCCESS then Stay(b.(c := b.c.(mgmtBind := Supported)))
      else if m.event.status == ZDP_NOT_SUPPORTED then Stay(b.(c := b.c.(mgmtBind := NotSupported)))
      else Stay(b)
    else Stay(b)
  }

  /** Request accepted: arm the timer; otherwise give up until the next poll. */
  function Await(b: Machine, sent: bool): Out
  {
    if sent then Stay(b.(timer := true)) else SetBind(b, BindingHandler)
  }

  /** The APS confirm and timeout branches shared by all waiting states. */
  function AwaitReply(b: Machine, m: Message, requestId: u8): Out
  {
    if m.Timeout? then SetBind(b, BindingHandler)
    else if m.Ev? && m.event.EvApsConfirm? && m.event.apsReqId == requestId then
      if m.event.confirmed then Stay(b.(timer := true)) else SetBind(b, BindingHandler)
    else Stay(b)
  }

  function MgmtBindResponse(b: Machine, data: seq<u8>): Out
  {
    if !(2 <= |data| < 128) || data[0] != b.zdp.zdpSeq then Stay(b)
    else if data[1] == ZDP_SUCCESS then
      var b1 := b.(timer := false, c := b.c.(mgmtBind := Supported));
      var size: int := if |data| >= 5 then data[2] else 0;
      var index: int := if |data| >= 5 then data[3] else 0;
      var count: int := if |data| >= 5 then data[4] else 0;
      if size > index + count then Ticking(b1.(c := b1.c.(startIndex := index + count)))
      else SetBind(b1.(c := b1.c.(bindingIter := 0)), TableVerify)
    else if data[1] == ZDP_NOT_SUPPORTED || data[1] == ZDP_NOT_PERMITTED then
      SetBind(b.(c := b.c.(mgmtBind := NotSupported)), BindingHandler)
    else SetBind(b, BindingHandler)
  }

  function OnTableRead(b: Machine, m: Message, env: Env): Out
  {
    if m.Enter? then Ticking(b.(c := b.c.(startIndex := 0)))
    else if m == Ev(EvBindingTick) then Await(b.(zdp := env.zdp), env.zdp.isEnqueued)
    else if m.Ev? && m.event.EvMgmtBindResponse? then
      if m.event.data.Some? then MgmtBindResponse(b, m.event.data.value) else Stay(b)
    else AwaitReply(b, m, b.zdp.apsReqId)
  }

  function NextBinding(b: Machine): Out
  {
    Ticking(b.(c := b.c.(bindingIter := b.c.bindingIter + 1)))
  }

  /** A group binding takes its group from the sub-device's `config/group` list. */
  function ResolveGroup(dst: Destination, groups: Option<seq<GroupEntry>>): (r: (Destination, bool))
    requires dst.Groupcast?
    ensures r.0.Groupcast?
  {
    if groups.None? then (dst, false)
    else if dst.configGroup >= |groups.value| then (dst.(group := 0), false)
    else
      var entry := groups.value[dst.configGroup];
      (if entry.ok && entry.group != 0 then dst.(group := entry.group) else dst, entry.ok)
  }

  /** C++ integer division truncates towards zero. */
  function TruncDiv(a: int, n: int): int
    requires n > 0
  {
    if a >= 0 then a / n else -((-a) / n)
  }

  /** The binding needs a Bind_req: unknown to the core, never confirmed, or confirmed too long ago. */
  predicate NeedBind(tBound: int, inTable: Option<int>, now: int)
  {
    inTable.None? ||
    var t := if tBound < inTable.value then inTable.value else tBound;
    var dt := if t != 0 then TruncDiv(now - t, 1000) else -1;
    dt < 0 || dt > REBIND_SECONDS
  }

  function StartPhase(b: Machine): Out
  {
    SetBind(b.(c := b.c.(configIter := 0, reportIter := 0),
               h := b.h.(asked := {}, covered := {}, skipped := map[], readsSent := 0, configsSent := 0)), ReadReport)
  }

  function VerifyEntry(b: Machine, i: nat, env: Env): Out
    requires i < |b.c.bindings| && i < |b.c.tBound|
  {
    var t := if env.inTable.Some? && b.c.tBound[i] < env.inTable.value then env.inTable.value else b.c.tBound[i];
    var b1 := b.(c := b.c.(tBound := b.c.tBound[i := t]));
    if NeedBind(b.c.tBound[i], env.inTable, env.now) then SetBind(b1, BindingCreate)
    else if b.c.bindings[i].dst.Unicast? then StartPhase(b1)
    else NextBinding(b1)
  }

  function VerifyTick(b: Machine, env: Env): Out
  {
    var i := b.c.bindingIter;
    if i >= |b.c.bindings| then SetBind(b.(c := b.c.(checkRound := b.c.checkRound + 1)), BindingRemove)
    else if i >= |b.c.tBound| then Fault(b)
    else
      var bnd := b.c.bindings[i];
      if bnd.dst.Unicast? then
        if bnd.dst.ext != 0 then VerifyEntry(b, i, env)
        else if env.macAddress == 0 then SetBind(b, BindingHandler)
        else VerifyEntry(b.(c := b.c.(bindings := b.c.bindings[i := bnd.(dst := Unicast(env.macAddress))])), i, env)
      else
        var (dst, ok) := ResolveGroup(bnd.dst, env.configGroups);
        var b1 := b.(c := b.c.(bindings := b.c.bindings[i := bnd.(dst := dst)]));
        if ok then VerifyEntry(b1, i, env) else NextBinding(b1)
  }

  function OnTableVerify(b: Machine, m: Message, env: Env): Out
  {
    if m.Enter? then Ticking(b) else if m == Ev(EvBindingTick) then VerifyTick(b, env) else Stay(b)
  }

  function OnBindingCreate(b: Machine, m: Message, env: Env): Out
  {
    var i := b.c.bindingIter;
    if m.Enter? then
      if i >= |b.c.bindings| || i >= |b.c.tBound| then Fault(b)
      else Await(b.(c := b.c.(tBound := b.c.tBound[i := 0]), zdp := env.zdp), env.zdp.isEnqueued)
    else if m.Ev? && m.event.EvZdpResponse? then
      if m.event.zdpSeq != b.zdp.zdpSeq then Stay(b)
      else if !m.event.accepted then SetBind(b, BindingHandler)
      else if i >= |b.c.tBound| then Fault(b)
      else SetBind(b.(c := b.c.(tBound := b.c.tBound[i := env.now])), TableVerify)
    else AwaitReply(b, m, b.zdp.apsReqId)
  }

  /** Some group binding of the DDF has the entry's cluster and endpoint. */
  predicate HasDdfBinding(bindings: seq<Binding>, e: CoreBinding)
  {
    exists k :: 0 <= k < |bindings| && bindings[k].dst.Groupcast?
      && bindings[k].clusterId == e.clusterId && bindings[k].srcEndpoint == e.srcEndpoint
  }

  /** And the entry's group as well. */
  predicate HasDdfGroup(bindings: seq<Binding>, e: CoreBinding)
    requires e.dst.ToGroup?
  {
    exists k :: 0 <= k < |bindings| && bindings[k].dst.Groupcast?
      && bindings[k].clusterId == e.clusterId && bindings[k].srcEndpoint == e.srcEndpoint
      && bindings[k].dst.group == e.dst.group
  }

  /** The entry is to be removed: the DDF wants other groups there, or its node is gone. */
  predicate IsOrphan(e: CoreBinding, bindings: seq<Binding>, nodes: set<nat>)
  {
    match e.dst
    case ToGroup(_) => HasDdfBinding(bindings, e) && !HasDdfGroup(bindings, e)
    case ToNode(ext) => ext !in nodes
    case ToOther => false
  }

  /** Index of the first entry to remove, or the length of the table. */
  function FindOrphan(table: seq<CoreBinding>, bindings: seq<Binding>, nodes: set<nat>): (i: nat)
    ensures i <= |table|
    ensures i < |table| ==> IsOrphan(table[i], bindings, nodes)
    ensures forall k :: 0 <= k < i ==> !IsOrphan(table[k], bindings, nodes)
  {
    if table == [] || IsOrphan(table[0], bindings, nodes) then 0 else 1 + FindOrphan(table[1..], bindings, nodes)
  }

  /** Send the unbind request for the entry found. */
  function RemoveEnter(b: Machine, env: Env): Out
  {
    var i := FindOrphan(env.bindingTable, b.c.bindings, env.nodes);
    if i == |env.bindingTable| then SetBind(b, BindingIdle)
    else
      var removed := if env.zdp.isEnqueued then b.h.removed + [env.bindingTable[i]] else b.h.removed;
      Await(b.(zdp := env.zdp, h := b.h.(removed := removed)), env.zdp.isEnqueued)
  }

  function OnBindingRemove(b: Machine, m: Message, env: Env): Out
  {
    if m.Enter? then RemoveEnter(b, env)
    else if m.Ev? && m.event.EvZdpResponse? then
      if m.event.zdpSeq == b.zdp.zdpSeq then SetBind(b, BindingHandler).(tick := true) else Stay(b)
    else AwaitReply(b, m, b.zdp.apsReqId)
  }

  function OnBindingIdle(b: Machine, m: Message): Out
  {
    if m.Enter? then Stay(b.(timer := true))
    else if m.Timeout? then SetBind(b, BindingHandler)
    else Stay(b)
  }

  // ----- Report phase -----

  /** DEV_ProcessNextBinding; the finished phase is written to the history. */
  function ProcessNextBinding(b: Machine): Out
    requires b.c.bindingIter < |b.c.bindings|
  {
    var end := PhaseEnd(b.h.covered, b.h.skipped, |b.c.bindings[b.c.bindingIter].reporting|, b.c.checkRound,
                        b.h.readsSent, b.h.configsSent);
    SetBind(b.(c := b.c.(bindingIter := b.c.bindingIter + 1), h := b.h.(ended := b.h.ended + [end])), TableVerify)
  }

  /** State of the loop that fills a read request. */
  datatype Batch = Batch(next: nat, mf: nat, picked: seq<nat>, lastCheck: map<TrackerKey, int>)

  function GetOrCreate(lastCheck: map<TrackerKey, int>, k: TrackerKey): (r: map<TrackerKey, int>)
    ensures k in r && forall x :: x != k ==> (x in r <==> x in lastCheck) && (x in r ==> r[x] == lastCheck[x])
    ensures r[k] == if k in lastCheck then lastCheck[k] else 0
  {
    if k in lastCheck then lastCheck else lastCheck[k := 0]
  }

  /** Fill the request from index `t.next` on; stops behind the last report, before the first report of
      another manufacturer code, or *on* the record that made the request full. */
  function FillBatch(bnd: Binding, round: nat, now: int, t: Batch): Batch
    decreases |bnd.reporting| - t.next
  {
    if t.next >= |bnd.reporting| then t else
    var report := bnd.reporting[t.next];
    var k := TrackerKey(bnd.clusterId, report.attributeId, bnd.srcEndpoint);
    var lastCheck := GetOrCreate(t.lastCheck, k);
    if round != 0 && now - lastCheck[k] < RECHECK_MS then
      FillBatch(bnd, round, now, t.(next := t.next + 1, lastCheck := lastCheck))
    else if t.picked != [] && t.mf != report.manufacturerCode then t.(lastCheck := lastCheck)
    else
      var taken := t.(mf := report.manufacturerCode, picked := t.picked + [t.next],
          lastCheck := lastCheck[k := BUSY_MARK]);
      if |taken.picked| == MAX_RECORDS then taken
      else FillBatch(bnd, round, now, taken.(next := taken.next + 1))
  }

  function ReadBatch(bnd: Binding, c: Context, now: int): Batch
  {
    FillBatch(bnd, c.checkRound, now, Batch(c.reportIter, 0, [], c.lastCheck))
  }

  /** The records of a read request for the picked report indices. */
  function Requests(reports: seq<Report>, picked: seq<nat>): seq<Request>
  {
    seq(|picked|, k requires 0 <= k < |picked| =>
      if picked[k] < |reports| then Request(reports[picked[k]].attributeId,
          reports[picked[k]].direction) else Request(0, 0))
  }

  function KeyOf(bnd: Binding, i: nat): TrackerKey
    requires i < |bnd.reporting|
  {
    TrackerKey(bnd.clusterId, bnd.reporting[i].attributeId, bnd.srcEndpoint)
  }

  function AskOf(bnd: Binding, i: nat): Ask
    requires i < |bnd.reporting|
  {
    Ask(KeyOf(bnd, i), bnd.reporting[i])
  }

  function AsksOf(bnd: Binding, picked: seq<nat>): set<Ask>
  {
    set i | i in picked && i < |bnd.reporting| :: AskOf(bnd, i)
  }

  function KeysOf(asks: set<Ask>): set<TrackerKey> { set a | a in asks :: a.key }

  function OriginOf(l: Ledger, k: TrackerKey): Origin { if k in l.origin then l.origin[k] else Unset }

  function MarkOf(o: Origin): nat { if o.Unset? then 0 else o.mark }

  /** A read request marks the trackers of the reports it asks for. */
  function Asking(l: Ledger, asks: set<Ask>): Ledger
  {
    if asks == {} then l else
    var keys := KeysOf(asks);
    Ledger(l.requests + 1, asks,
           map k | k in l.origin.Keys + keys :: if k in keys then Marked(l.requests + 1) else l.origin[k], l.checked)
  }

  /** The answer to the last read request stamps every tracker it finds marked. */
  function Answering(l: Ledger, lastCheck: map<TrackerKey, int>, now: int): Ledger
  {
    l.(origin := map k | k in lastCheck ::
         if lastCheck[k] == BUSY_MARK then Stamped(MarkOf(OriginOf(l, k)), l.requests, now, l.batch)
         else OriginOf(l, k),
       checked := map a | a in l.checked.Keys + l.batch ::
         if a in l.batch then Check(l.requests, now) else l.checked[a])
  }

  /** The indices a batch passed over, with the reasons. */
  function SkippedBy(bnd: Binding, start: nat, now: int, t: Batch, l: Ledger): map<nat, Skip>
  {
    map i: nat | start <= i < t.next && i < |bnd.reporting| && i !in t.picked :: SkipOf(AskOf(bnd, i), now, t, l)
  }

  function SkipOf(a: Ask, now: int, t: Batch, l: Ledger): Skip
  {
    Skip(a, if a.key in t.lastCheck then t.lastCheck[a.key] else 0, now, OriginOf(l, a.key),
         if a in l.checked then Some(l.checked[a]) else None)
  }

  function ToSet(picked: seq<nat>): set<nat> { set i | i in picked }

  function ReadReportEnter(b: Machine, env: Env): Out
  {
    if b.c.bindingIter >= |b.c.bindings| then Fault(b) else
    var bnd := b.c.bindings[b.c.bindingIter];
    if bnd.reporting == [] then ProcessNextBinding(b) else
    var t := ReadBatch(bnd, b.c, env.now);
    var c := b.c.(reportIter := t.next, lastCheck := t.lastCheck, readMf := t.mf,
                  readRecords := Requests(bnd.reporting, t.picked));
    var ledger := Asking(b.h.ledger, AsksOf(bnd, t.picked));
    var h := b.h.(skipped := b.h.skipped + SkippedBy(bnd, b.c.reportIter, env.now, t, ledger), ledger := ledger);
    if t.picked == [] then ProcessNextBinding(b.(c := c, h := h))
    else Await(b.(c := c.(zcl := env.zcl), h := h.(asked := ToSet(t.picked), readsSent := h.readsSent + 1)),
               env.zcl.isEnqueued)
  }

  function ReportConfigResponse(b: Machine, response: Option<Response>, env: Env): Out
  {
    if b.c.bindingIter >= |b.c.bindings| then Fault(b) else
    var reports := b.c.bindings[b.c.bindingIter].reporting;
    if response.Some? && ConfigurationValid(response.value, reports, b.c.readRecords) then
      var lastCheck := map k | k in b.c.lastCheck ::
        if b.c.lastCheck[k] == BUSY_MARK then env.now else b.c.lastCheck[k];
      var ledger := Answering(b.h.ledger, b.c.lastCheck, env.now);
      var b1 := b.(c := b.c.(lastCheck := lastCheck),
                   h := b.h.(covered := b.h.covered + b.h.asked, asked := {}, ledger := ledger));
      if b.c.reportIter < |reports| then SetBind(b1, ReadNext) else ProcessNextBinding(b1)
    else SetBind(b.(h := b.h.(asked := {})), ConfigureReporting)
  }

  function OnReadReport(b: Machine, m: Message, env: Env): Out
  {
    if m.Enter? then ReadReportEnter(b, env)
    else if m.Ev? && m.event.EvReportConfig? then ReportConfigResponse(b, m.event.response, env)
    else AwaitReply(b, m, b.c.zcl.apsReqId)
  }

  /** Walk the indices below `limit` and pick those of one manufacturer code, at most MAX_RECORDS. */
  function FillConfig(reports: seq<Report>, i: nat, limit: nat, mf: nat, picked: seq<nat>): (nat, seq<nat>)
    decreases limit - i
  {
    if i >= limit || i >= |reports| then (i, picked)
    else if reports[i].manufacturerCode != mf then FillConfig(reports, i + 1, limit, mf, picked)
    else if |picked| + 1 == MAX_RECORDS then (i + 1, picked + [i])
    else FillConfig(reports, i + 1, limit, mf, picked + [i])
  }

  function ConfigBatch(reports: seq<Report>, c: Context): (nat, seq<nat>)
  {
    FillConfig(reports, c.configIter, c.reportIter, c.readMf, [])
  }

  function ConfigureEnter(b: Machine, env: Env): Out
  {
    if b.c.bindingIter >= |b.c.bindings| || b.c.bindings[b.c.bindingIter].reporting == [] then Fault(b) else
    var (next, picked) := ConfigBatch(b.c.bindings[b.c.bindingIter].reporting, b.c);
    var zcl := if picked == [] then b.c.zcl.(isEnqueued := false) else env.zcl;
    Await(b.(c := b.c.(configIter := next, zcl := zcl),
             h := b.h.(asked := ToSet(picked), configsSent := b.h.configsSent + if picked == [] then 0 else 1)),
          zcl.isEnqueued)
  }

  function ConfigureResponse(b: Machine, status: u8): Out
  {
    if status != ZCL_SUCCESS then SetBind(b, BindingHandler)
    else if b.c.bindingIter >= |b.c.bindings| then Fault(b)
    else
      var b1 := b.(h := b.h.(covered := b.h.covered + b.h.asked, asked := {}));
      if b.c.configIter < b.c.reportIter then SetBind(b1, ConfigNext)
      else if b.c.reportIter < |b.c.bindings[b.c.bindingIter].reporting| then SetBind(b1, ReadNext)
      else ProcessNextBinding(b1)
  }

  function OnConfigureReporting(b: Machine, m: Message, env: Env): Out
  {
    if m.Enter? then ConfigureEnter(b, env)
    else if m.Ev? && m.event.EvZclResponse? then
      if m.event.sequenceNumber == b.c.zcl.sequenceNumber then ConfigureResponse(b, m.event.status) else Stay(b)
    else AwaitReply(b, m, b.c.zcl.apsReqId)
  }

  function On(b: Machine, m: Message, env: Env): Out
  {
    match b.state
    case NoBind => Stay(b)
    case BindingHandler => Start(b, m, env)
    case TableRead => OnTableRead(b, m, env)
    case TableVerify => OnTableVerify(b, m, env)
    case BindingCreate => OnBindingCreate(b, m, env)
    case BindingRemove => OnBindingRemove(b, m, env)
    case ReadReport => OnReadReport(b, m, env)
    case ReadNext => if m.Enter? then SetBind(b, ReadReport) else Stay(b)
    case ConfigNext => if m.Enter? then SetBind(b, ConfigureReporting) else Stay(b)
    case ConfigureReporting => OnConfigureReporting(b, m, env)
    case BindingIdle => OnBindingIdle(b, m)
  }

  // ----- Bindings from a DDF (device.cpp:2508-2568) -----

  predicate SameBinding(a: Binding, b: Binding)
  {
    && a.clusterId == b.clusterId && a.srcEndpoint == b.srcEndpoint
    && ((a.dst.Groupcast? && b.dst.Groupcast? && a.dst.configGroup == b.dst.configGroup)
        || (a.dst.Unicast? && b.dst.Unicast? && a.dst.ext == b.dst.ext))
  }

  predicate HasAttribute(reports: seq<Report>, attributeId: nat)
  {
    exists k :: 0 <= k < |reports| && reports[k].attributeId == attributeId
  }

  /** mergeBindingReportConfigs: append the reports whose attribute is not configured yet. */
  function MergeReports(a: seq<Report>, b: seq<Report>): seq<Report>
  {
    if b == [] then a
    else var merged := MergeReports(a, b[..|b| - 1]);
      var last := b[|b| - 1];
      if HasAttribute(merged, last.attributeId) then merged else merged + [last]
  }

  /** Index of the first binding that is the same as `b`, or the length of the list. */
  function FindBinding(bindings: seq<Binding>, b: Binding): (i: nat)
    ensures i <= |bindings|
    ensures i < |bindings| ==> SameBinding(bindings[i], b)
    ensures forall k :: 0 <= k < i ==> !SameBinding(bindings[k], b)
  {
    if bindings == [] || SameBinding(bindings[0], b) then 0 else 1 + FindBinding(bindings[1..], b)
  }

  function AddBinding(c: Context, bnd: Binding): Context
  {
    var i := FindBinding(c.bindings, bnd);
    if i < |c.bindings| then
      c.(bindings := c.bindings[i := c.bindings[i].(reporting := MergeReports(c.bindings[i].reporting, bnd.reporting))])
    else
      var added := if bnd.dstEndpoint == 0 && bnd.dst.Unicast? then bnd.(dstEndpoint := 1) else bnd;
      c.(bindings := c.bindings + [added], tBound := c.tBound + [0])
  }

  function ClearBindings(b: Machine): Out
  {
    var b1 := b.(c := b.c.(bindings := [], tBound := []));
    if b.state.NoBind? then Stay(b1) else SetBind(b1, BindingHandler)
  }

  const START := Machine(NoBind, false, false, NO_ZDP,
                         Context(0, 0, 0, 0, Unknown, 0, [], [], map[], 0, [], NO_ZCL),
                         History({}, {}, map[], 0, 0, [], Ledger(0, {}, map[], map[]), [], false))
}
