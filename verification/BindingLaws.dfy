/** What each message does to the bindings sub-machine, told apart from the handlers: the request and answer
    cycle, the decision for one binding, and the removal of stale entries (device.cpp:970-1782). */
module BindingLaws {
  import opened Basics
  import opened ReportCheck
  import opened DeviceData
  import opened BindingMachine

  // ----- Requests, confirms, timeouts -----

  /** The states that send a request and wait for its answer. */
  predicate Asks(s: Bind) { s in {TableRead, BindingCreate, BindingRemove, ReadReport, ConfigureReporting} }

  /** The APS request id of the request in flight. */
  function InFlight(b: Machine): u8
  {
    if b.state.ReadReport? || b.state.ConfigureReporting? then b.c.zcl.apsReqId else b.zdp.apsReqId
  }

  /** The machine returns to BindingHandler, its timer stopped, and changes nothing else. */
  predicate GivesUp(b: Machine, o: Out)
  {
    o == Out(b.(state := BindingHandler, timer := false, lock := true), true, false)
  }

  /** A successful confirm of the request in flight arms the timer for the answer and changes nothing else; a
      failed one ends the attempt; a confirm of any other request is ignored. */
  lemma ConfirmLaw(b: Machine, id: u8, success: bool, env: Env)
    requires Asks(b.state)
    ensures var o := On(b, Ev(EvApsConfirm(id, success)), env);
      && (id == InFlight(b) && success ==> o == Out(b.(timer := true), false, false))
      && (id == InFlight(b) && !success ==> GivesUp(b, o))
      && (id != InFlight(b) ==> o == Out(b, false, false))
  {
  }

  /** A state whose answer does not come in time, and BindingIdle when its rest is over. */
  lemma TimeoutLaw(b: Machine, env: Env)
    requires Asks(b.state) || b.state.BindingIdle?
    ensures GivesUp(b, On(b, Timeout(Level1), env))
  {
  }

  /** The events that a state that waits for an answer takes notice of. */
  predicate Heeds(s: Bind, e: Event)
  {
    match s
    case TableRead => e.EvBindingTick? || e.EvMgmtBindResponse?
    case BindingCreate | BindingRemove => e.EvZdpResponse?
    case ReadReport => e.EvReportConfig?
    case ConfigureReporting => e.EvZclResponse?
    case _ => false
  }

  lemma OtherEventsLaw(b: Machine, e: Event, env: Env)
    requires Asks(b.state) && !Heeds(b.state, e) && !e.EvApsConfirm?
    ensures On(b, Ev(e), env) == Out(b, false, false)
  {
  }

  /** A request that the APS layer takes arms the timer, one that it refuses ends the attempt.  The bind
      request forgets when the binding was last confirmed. */
  lemma BindRequestLaw(b: Machine, env: Env)
    requires b.state.BindingCreate? && !b.lock && b.c.bindingIter < |b.c.bindings| == |b.c.tBound|
    ensures var o := On(b, Enter(Level1), env);
      var asked := b.(zdp := env.zdp, c := b.c.(tBound := b.c.tBound[b.c.bindingIter := 0]));
      if env.zdp.isEnqueued then o == Out(asked.(timer := true), false, false) else GivesUp(asked, o)
  {
  }

  /** The answer that accepts the binding dates it and leads back to the verify state; one that refuses it
      ends the attempt; answers to other requests are ignored. */
  lemma BindResponseLaw(b: Machine, sequence: u8, accepted: bool, env: Env)
    requires b.state.BindingCreate? && b.c.bindingIter < |b.c.bindings| == |b.c.tBound|
    ensures var o := On(b, Ev(EvZdpResponse(sequence, accepted)), env);
      && (sequence == b.zdp.zdpSeq && accepted ==>
            o == Out(b.(state := TableVerify, timer := false, lock := true,
                        c := b.c.(tBound := b.c.tBound[b.c.bindingIter := env.now])), true, false))
      && (sequence == b.zdp.zdpSeq && !accepted ==> GivesUp(b, o))
      && (sequence != b.zdp.zdpSeq ==> o == Out(b, false, false))
  {
  }

  // ----- Where a round starts -----

  /** A poll, an awake or a tick starts a round when there are bindings and at most four unconfirmed requests;
      the binding table is read first unless the device is known not to support that. */
  lemma StartLaw(b: Machine, e: Event, env: Env)
    requires b.state.BindingHandler?
    ensures var o := On(b, Ev(e), env);
      if e in {EvPoll, EvAwake, EvBindingTick} && b.c.bindings != [] && env.unconfirmed <= 4 then
        o == Out(b.(state := if b.c.mgmtBind == NotSupported then TableVerify else TableRead, lock := true,
                    c := b.c.(bindingIter := 0)), true, false)
      else if e.EvBindingTable? && e.status == 0x00 then o == Out(b.(c := b.c.(mgmtBind := Supported)), false, false)
      else if e.EvBindingTable? && e.status == 0x84 then o == Out(b.(c := b.c.(mgmtBind := NotSupported)), false, false)
      else o == Out(b, false, false)
  {
  }

  // ----- Reading the binding table -----

  /** The first page is asked for at index 0, on the tick that the StateEnter queues. */
  lemma TableRequestLaw(b: Machine, env: Env)
    requires b.state.TableRead?
    ensures On(b, Enter(Level1), env) == Out(b.(c := b.c.(startIndex := 0)), false, true)
    ensures var o := On(b, Ev(EvBindingTick), env); var asked := b.(zdp := env.zdp);
      if env.zdp.isEnqueued then o == Out(asked.(timer := true), false, false) else GivesUp(asked, o)
  {
  }

  /** A page of the table as the device sends it. */
  function PageOf(sequence: u8, status: u8, size: u8, index: u8, count: u8, entries: seq<u8>): seq<u8>
  {
    [sequence, status, size, index, count] + entries
  }

  /** A page that does not reach the end of the table makes the machine ask for what comes behind it; one that
      does leads on to the first binding. */
  lemma PageLaw(b: Machine, size: u8, index: u8, count: u8, entries: seq<u8>, env: Env)
    requires b.state.TableRead? && |entries| < 123
    ensures var page := PageOf(b.zdp.zdpSeq, ZDP_SUCCESS, size, index, count, entries);
      var o := On(b, Ev(EvMgmtBindResponse(Some(page))), env);
      if index + count < size then
        o == Out(b.(timer := false, c := b.c.(mgmtBind := Supported, startIndex := index + count)), false, true)
      else
        o == Out(b.(state := TableVerify, timer := false, lock := true,
                    c := b.c.(mgmtBind := Supported, bindingIter := 0)), true, false)
  {
  }

  /** A page with an error status ends the attempt; two of them say that there is no table to read. */
  lemma RefusedPageLaw(b: Machine, data: seq<u8>, env: Env)
    requires b.state.TableRead?
    ensures var o := On(b, Ev(EvMgmtBindResponse(Some(data))), env);
      && (|data| < 2 || |data| > 127 || data[0] != b.zdp.zdpSeq ==> o == Out(b, false, false))
      && (2 <= |data| <= 127 && data[0] == b.zdp.zdpSeq && data[1] != 0 ==>
            GivesUp(if data[1] == 0x84 || data[1] == 0x8D then b.(c := b.c.(mgmtBind := NotSupported)) else b, o))
    ensures On(b, Ev(EvMgmtBindResponse(None)), env) == Out(b, false, false)
  {
  }

  function Total(counts: seq<u8>): nat
  {
    if counts == [] then 0 else Total(counts[..|counts| - 1]) + counts[|counts| - 1]
  }

  /** The machine after one more page with `count` entries, sent for the index that was asked for. */
  function AfterPage(b: Machine, size: u8, count: u8, env: Env): Machine
  {
    var page := PageOf(b.zdp.zdpSeq, ZDP_SUCCESS, size, b.c.startIndex, count, []);
    var b1 := On(b, Ev(EvMgmtBindResponse(Some(page))), env).b;
    if b1.state.TableRead? then On(b1, Ev(EvBindingTick), env).b else b1
  }

  function AfterPages(b: Machine, size: u8, counts: seq<u8>, env: Env): Machine
  {
    if counts == [] then b
    else AfterPage(AfterPages(b, size, counts[..|counts| - 1], env), size, counts[|counts| - 1], env)
  }

  lemma AfterPageLaw(b: Machine, size: u8, count: u8, env: Env)
    requires b.state.TableRead? && env.zdp.isEnqueued
    ensures var r := AfterPage(b, size, count, env);
      if b.c.startIndex + count < size then r.state.TableRead? && r.c.startIndex == b.c.startIndex + count
      else r.state.TableVerify? && r.lock && r.c.bindingIter == 0
  {
    PageLaw(b, size, b.c.startIndex, count, [], env);
    if b.c.startIndex + count < size {
      TableRequestLaw(b.(timer := false, c := b.c.(mgmtBind := Supported, startIndex := b.c.startIndex + count)), env);
    }
    hide On;
  }

  /** Main result on paging: the pages asked for join up without gap or overlap, and the machine goes on to
      the bindings with the page that reaches the end of the table, not before. */
  lemma {:induction false} PagesJoinUp(b: Machine, size: u8, counts: seq<u8>, env: Env)
    requires b.state.TableRead? && b.c.startIndex == 0 && env.zdp.isEnqueued && size > 0
    requires counts != [] ==> Total(counts[..|counts| - 1]) < size
    ensures var r := AfterPages(b, size, counts, env);
      if Total(counts) < size then r.state.TableRead? && r.c.startIndex == Total(counts)
      else r.state.TableVerify? && r.lock && r.c.bindingIter == 0
  {
    if counts != [] {
      var front := counts[..|counts| - 1];
      if front != [] {
        assert Total(front) == Total(front[..|front| - 1]) + front[|front| - 1];
      }
      PagesJoinUp(b, size, front, env);
      AfterPageLaw(AfterPages(b, size, front, env), size, counts[|counts| - 1], env);
      hide AfterPage;
    }
  }

  // ----- What a binding needs -----

  /** The time from which a binding counts as confirmed: the later one of the two known times. */
  function ConfirmedAt(tBound: int, inTable: Option<int>): int
  {
    match inTable case None => tBound case Some(t) => if t > tBound then t else tBound
  }

  /** A Bind_req is due: the core does not list the binding, it was never confirmed, or 30 minutes and a full
      second or more ago; a clock that is a full second behind counts as well. */
  predicate BindIsDue(tBound: int, inTable: Option<int>, now: int)
  {
    var t := ConfirmedAt(tBound, inTable);
    inTable.None? || t == 0 || now - t <= -1000 || now - t >= 1801000
  }

  /** The destination of the binding at hand when the tick is over; None when it is not known yet. */
  function Resolved(dst: Destination, env: Env): Option<Destination>
  {
    match dst
    case Unicast(ext) =>
      if ext != 0 then Some(dst) else if env.macAddress != 0 then Some(Unicast(env.macAddress)) else None
    case Groupcast(i, group) =>
      if env.configGroups.None? then None
      else if i >= |env.configGroups.value| || !env.configGroups.value[i].ok then None
      else Some(Groupcast(i, if env.configGroups.value[i].group != 0 then env.configGroups.value[i].group else group))
  }

  lemma DivisionLaw(a: int)
    ensures TruncDiv(a, 1000) < 0 <==> a <= -1000
    ensures TruncDiv(a, 1000) > REBIND_SECONDS <==> a >= 1801000
  {
  }

  /** What the tick of the verify state decides for a binding whose destination is known: a bind request if one
      is due, else the reports of a unicast binding or, for a group binding, the next binding. */
  predicate Decided(b: Machine, bnd: Binding, i: nat, env: Env, o: Out)
    requires i < |b.c.bindings| && i < |b.c.tBound|
  {
    var c := b.c.(bindings := b.c.bindings[i := bnd],
                  tBound := b.c.tBound[i := ConfirmedAt(b.c.tBound[i], env.inTable)]);
    if BindIsDue(b.c.tBound[i], env.inTable, env.now) then
      o == Out(b.(state := BindingCreate, lock := true, c := c), true, false)
    else if bnd.dst.Unicast? then
      o == Out(b.(state := ReadReport, lock := true, c := c.(configIter := 0, reportIter := 0),
                  h := b.h.(asked := {}, covered := {}, skipped := map[], readsSent := 0, configsSent := 0)),
               true, false)
    else o == Out(b.(c := c.(bindingIter := i + 1)), false, true)
  }

  lemma VerifyLaw(b: Machine, env: Env)
    requires b.state.TableVerify? && b.c.bindingIter < |b.c.bindings| == |b.c.tBound|
    requires Resolved(b.c.bindings[b.c.bindingIter].dst, env).Some?
    ensures var i := b.c.bindingIter; var bnd := b.c.bindings[i];
      Decided(b, bnd.(dst := Resolved(bnd.dst, env).value), i, env, On(b, Ev(EvBindingTick), env))
  {
    var i := b.c.bindingIter;
    var bnd := b.c.bindings[i];
    var dst := Resolved(bnd.dst, env).value;
    var b1 := b.(c := b.c.(bindings := b.c.bindings[i := bnd.(dst := dst)]));
    EntryLaw(b1, i, env);
    assert b.c.bindings[i := bnd] == b.c.bindings;
    assert VerifyTick(b, env) == VerifyEntry(b1, i, env) by { ResolvingLaw(b, env); }
    hide NeedBind, BindIsDue, VerifyEntry, Resolved, VerifyTick;
  }

  lemma ResolvingLaw(b: Machine, env: Env)
    requires b.state.TableVerify? && b.c.bindingIter < |b.c.bindings| == |b.c.tBound|
    requires Resolved(b.c.bindings[b.c.bindingIter].dst, env).Some?
    ensures var i := b.c.bindingIter; var bnd := b.c.bindings[i];
      var bindings := b.c.bindings[i := bnd.(dst := Resolved(bnd.dst, env).value)];
      VerifyTick(b, env) == VerifyEntry(b.(c := b.c.(bindings := bindings)), i, env)
  {
    hide VerifyEntry;
    assert b.c.bindings[b.c.bindingIter := b.c.bindings[b.c.bindingIter]] == b.c.bindings;
  }

  /** The same once the destination is filled in. */
  lemma EntryLaw(b: Machine, i: nat, env: Env)
    requires b.state.TableVerify? && i < |b.c.bindings| == |b.c.tBound| && i == b.c.bindingIter
    ensures Decided(b, b.c.bindings[i], i, env, VerifyEntry(b, i, env))
  {
    DivisionLaw(env.now - ConfirmedAt(b.c.tBound[i], env.inTable));
    hide TruncDiv;
    assert NeedBind(b.c.tBound[i], env.inTable, env.now) == BindIsDue(b.c.tBound[i], env.inTable, env.now);
    hide NeedBind, BindIsDue;
    assert b.c.bindings[i := b.c.bindings[i]] == b.c.bindings;
  }

  /** For a binding whose destination is not known: a unicast binding ends the round, a group binding is left
      for the next one. */
  lemma UnresolvedLaw(b: Machine, env: Env)
    requires b.state.TableVerify? && b.c.bindingIter < |b.c.bindings| == |b.c.tBound|
    requires Resolved(b.c.bindings[b.c.bindingIter].dst, env).None?
    ensures var i := b.c.bindingIter; var o := On(b, Ev(EvBindingTick), env);
      if b.c.bindings[i].dst.Unicast? then
        o == Out(b.(state := BindingHandler, lock := true), true, false)
      else
        && |o.b.c.bindings| == |b.c.bindings| && o.b.c.bindings[i].dst.Groupcast?
        && (env.configGroups.Some? && b.c.bindings[i].dst.configGroup >= |env.configGroups.value| ==>
              o.b.c.bindings[i].dst.group == 0)
        && var bnd := b.c.bindings[i].(dst := o.b.c.bindings[i].dst);
           o == Out(b.(c := b.c.(bindingIter := i + 1, bindings := b.c.bindings[i := bnd])), false, true)
  {
  }

  /** Behind the last binding the round is over. */
  lemma RoundIsOverLaw(b: Machine, env: Env)
    requires b.state.TableVerify? && b.c.bindingIter >= |b.c.bindings|
    ensures On(b, Ev(EvBindingTick), env) ==
      Out(b.(state := BindingRemove, lock := true, c := b.c.(checkRound := b.c.checkRound + 1)), true, false)
  {
  }

  /** The verify state looks at its binding on a tick, which its StateEnter queues. */
  lemma VerifyEnterLaw(b: Machine, env: Env)
    requires b.state.TableVerify?
    ensures On(b, Enter(Level1), env) == Out(b, false, true)
  {
  }

  // ----- Removing stale entries -----

  /** The entry leads to a node the core does not know, or to a group where the DDF wants other groups only. */
  predicate IsStale(e: CoreBinding, bindings: seq<Binding>, nodes: set<nat>)
  {
    match e.dst
    case ToNode(ext) => ext !in nodes
    case ToGroup(group) =>
      var wanted := set bnd | bnd in bindings && bnd.dst.Groupcast? && bnd.clusterId == e.clusterId
                              && bnd.srcEndpoint == e.srcEndpoint :: bnd.dst.group;
      wanted != {} && group !in wanted
    case ToOther => false
  }

  lemma StaleLaw(e: CoreBinding, bindings: seq<Binding>, nodes: set<nat>)
    ensures IsOrphan(e, bindings, nodes) <==> IsStale(e, bindings, nodes)
  {
    if e.dst.ToGroup? {
      var wanted := set bnd | bnd in bindings && bnd.dst.Groupcast? && bnd.clusterId == e.clusterId
                              && bnd.srcEndpoint == e.srcEndpoint :: bnd.dst.group;
      if k :| 0 <= k < |bindings| && bindings[k].dst.Groupcast?
              && bindings[k].clusterId == e.clusterId && bindings[k].srcEndpoint == e.srcEndpoint {
        assert bindings[k] in bindings && bindings[k].dst.group in wanted;
      }
      if e.dst.group in wanted {
        var bnd :| bnd in bindings && bnd.dst.Groupcast? && bnd.clusterId == e.clusterId
                   && bnd.srcEndpoint == e.srcEndpoint && bnd.dst.group == e.dst.group;
        var k :| 0 <= k < |bindings| && bindings[k] == bnd;
      }
      if wanted != {} {
        var group :| group in wanted;
        var bnd :| bnd in bindings && bnd.dst.Groupcast? && bnd.clusterId == e.clusterId
                   && bnd.srcEndpoint == e.srcEndpoint && bnd.dst.group == group;
        var k :| 0 <= k < |bindings| && bindings[k] == bnd;
      }
    }
  }

  /** Entering BindingRemove: the first stale entry is unbound; without one the machine rests. */
  lemma RemoveLaw(b: Machine, env: Env)
    requires b.state.BindingRemove? && !b.lock && !b.timer
    ensures var o := On(b, Enter(Level1), env);
      if forall k :: 0 <= k < |env.bindingTable| ==> !IsStale(env.bindingTable[k], b.c.bindings, env.nodes) then
        o == Out(b.(state := BindingIdle, lock := true), true, false)
      else if !env.zdp.isEnqueued then GivesUp(b.(zdp := env.zdp), o)
      else
        && o.b.state.BindingRemove? && o.b.timer && !o.enter && !o.tick && o.b.c == b.c && o.b.zdp == env.zdp
        && exists k :: 0 <= k < |env.bindingTable| && IsStale(env.bindingTable[k], b.c.bindings, env.nodes)
             && (forall j :: 0 <= j < k ==> !IsStale(env.bindingTable[j], b.c.bindings, env.nodes))
             && o.b.h.removed == b.h.removed + [env.bindingTable[k]]
  {
    forall k | 0 <= k < |env.bindingTable|
      ensures IsOrphan(env.bindingTable[k], b.c.bindings, env.nodes)
        <==> IsStale(env.bindingTable[k], b.c.bindings, env.nodes)
    {
      StaleLaw(env.bindingTable[k], b.c.bindings, env.nodes);
    }
    hide IsOrphan, IsStale;
    var i := FindOrphan(env.bindingTable, b.c.bindings, env.nodes);
    if i < |env.bindingTable| {
      assert IsStale(env.bindingTable[i], b.c.bindings, env.nodes);
    }
  }

  /** The answer to the unbind request makes the machine start over at once; other answers are ignored. */
  lemma UnbindResponseLaw(b: Machine, sequence: u8, accepted: bool, env: Env)
    requires b.state.BindingRemove?
    ensures On(b, Ev(EvZdpResponse(sequence, accepted)), env) ==
      if sequence != b.zdp.zdpSeq then Out(b, false, false)
      else Out(b.(state := BindingHandler, timer := false, lock := true), true, true)
  {
  }

  /** The rest after a round. */
  lemma RestLaw(b: Machine, e: Event, env: Env)
    requires b.state.BindingIdle?
    ensures On(b, Enter(Level1), env) == Out(b.(timer := true), false, false)
    ensures On(b, Ev(e), env) == Out(b, false, false)
  {
  }

  // ----- The reports asked for at once -----

  /** A read request ends before the list does only when it is full, or in front of a report that is due and has
      another manufacturer code than the reports in it. */
  lemma {:induction false} BatchStopsLaw(bnd: Binding, round: nat, now: int, t: Batch)
    requires |t.picked| < MAX_RECORDS
    ensures var r := FillBatch(bnd, round, now, t);
      r.next < |bnd.reporting| && |r.picked| != 6 ==>
        && r.picked != [] && bnd.reporting[r.next].manufacturerCode != r.mf
        && KeyOf(bnd, r.next) in r.lastCheck
        && (round == 0 || now - r.lastCheck[KeyOf(bnd, r.next)] >= 3600000)
    decreases |bnd.reporting| - t.next
  {
    if t.next < |bnd.reporting| {
      var report := bnd.reporting[t.next];
      var k := KeyOf(bnd, t.next);
      var seen := t.(lastCheck := GetOrCreate(t.lastCheck, k));
      if round != 0 && now - seen.lastCheck[k] < RECHECK_MS {
        BatchStopsLaw(bnd, round, now, seen.(next := t.next + 1));
      } else if t.picked == [] || t.mf == report.manufacturerCode {
        var taken := Batch(t.next + 1, report.manufacturerCode, t.picked + [t.next], seen.lastCheck[k := BUSY_MARK]);
        if |taken.picked| < MAX_RECORDS {
          BatchStopsLaw(bnd, round, now, taken);
        }
      }
    }
  }

  // ----- The answers of a report phase -----

  /** An answer that does not show every configuration asked for leads to the configure state. */
  lemma ReportResponseLaw(b: Machine, response: Option<Response>, env: Env)
    requires b.state.ReadReport? && b.c.bindingIter < |b.c.bindings|
    ensures var o := On(b, Ev(EvReportConfig(response)), env); var reports := b.c.bindings[b.c.bindingIter].reporting;
      if response.None? || !ConfigurationValid(response.value, reports, b.c.readRecords) then
        o.b.state.ConfigureReporting? && o.enter && o.b.c == b.c
      else if b.c.reportIter < |reports| then o.b.state.ReadNext? && o.enter && o.b.c.bindingIter == b.c.bindingIter
      else o.b.state.TableVerify? && o.enter && o.b.c.bindingIter == b.c.bindingIter + 1
  {
  }

  /** The answer to a configure request: a refusal ends the attempt; after a success come the reports that did
      not fit into the request, then those not read yet, then the next binding. */
  lemma ConfigureResponseLaw(b: Machine, cluster: nat, sequence: u8, status: u8, env: Env)
    requires b.state.ConfigureReporting? && b.c.bindingIter < |b.c.bindings|
    ensures var o := On(b, Ev(EvZclResponse(cluster, sequence, status)), env);
      if sequence != b.c.zcl.sequenceNumber then o == Out(b, false, false)
      else if status != 0 then GivesUp(b, o)
      else if b.c.configIter < b.c.reportIter then o.b.state.ConfigNext? && o.enter && o.b.c == b.c
      else if b.c.reportIter < |b.c.bindings[b.c.bindingIter].reporting| then
        o.b.state.ReadNext? && o.enter && o.b.c == b.c
      else
        o.b.state.TableVerify? && o.enter && o.b.c == b.c.(bindingIter := b.c.bindingIter + 1)
  {
  }

  /** The two helper states lead on at once. */
  lemma HelperLaw(b: Machine, env: Env)
    requires (b.state.ReadNext? || b.state.ConfigNext?) && !b.timer
    ensures On(b, Enter(Level1), env) ==
      Out(b.(state := if b.state.ReadNext? then ReadReport else ConfigureReporting, lock := true), true, false)
  {
  }

  // ----- Bindings from outside -----

  predicate Mentions(reports: seq<Report>, attributeId: nat)
  {
    exists m :: 0 <= m < |reports| && reports[m].attributeId == attributeId
  }

  /** One more report at the end. */
  lemma MentionsMore(reports: seq<Report>, last: Report, attributeId: nat)
    ensures Mentions(reports + [last], attributeId) <==>
      Mentions(reports, attributeId) || last.attributeId == attributeId
  {
    var r := reports + [last];
    if m :| 0 <= m < |reports| && reports[m].attributeId == attributeId {
      assert r[m] == reports[m];
    }
    assert r[|reports|] == last;
  }

  /** What merging makes of two lists of reports: the first list stays in front, and the attributes of both are
      there afterwards, and no others. */
  lemma {:induction false} MergeLaw(a: seq<Report>, b: seq<Report>)
    ensures a <= MergeReports(a, b)
    ensures forall x :: Mentions(MergeReports(a, b), x) <==> Mentions(a, x) || Mentions(b, x)
  {
    if b == [] {
      assert forall x :: !Mentions(b, x);
    } else {
      var front, last := b[..|b| - 1], b[|b| - 1];
      MergeLaw(a, front);
      var merged := MergeReports(a, front);
      assert b == front + [last];
      assert HasAttribute(merged, last.attributeId) <==> Mentions(merged, last.attributeId);
      hide HasAttribute, Mentions;
      forall x
        ensures Mentions(MergeReports(a, b), x) <==> Mentions(a, x) || Mentions(b, x)
      {
        MentionsMore(front, last, x);
        MentionsMore(merged, last, x);
      }
    }
  }

  /** What is appended are reports of the second list, each with an attribute that no report before it has. */
  lemma {:induction false} MergeAddsLaw(a: seq<Report>, b: seq<Report>)
    ensures a <= MergeReports(a, b)
    ensures var r := MergeReports(a, b); forall m :: |a| <= m < |r| ==> r[m] in b && !Mentions(r[..m], r[m].attributeId)
  {
    if b != [] {
      var front, last := b[..|b| - 1], b[|b| - 1];
      MergeAddsLaw(a, front);
      var merged, r := MergeReports(a, front), MergeReports(a, b);
      assert HasAttribute(merged, last.attributeId) <==> Mentions(merged, last.attributeId);
      hide HasAttribute, Mentions;
      assert b == front + [last];
      forall m | |a| <= m < |r|
        ensures r[m] in b && !Mentions(r[..m], r[m].attributeId)
      {
        if m < |merged| {
          assert r[m] == merged[m] && r[..m] == merged[..m];
        } else {
          assert r == merged + [last] && r[..m] == merged;
        }
      }
    }
  }

  /** What tells bindings apart: cluster, endpoint, and the DDF group or the coordinator address. */
  datatype Place = Place(clusterId: nat, srcEndpoint: u8, toGroup: bool, id: nat)

  function PlaceOf(bnd: Binding): Place
  {
    Place(bnd.clusterId, bnd.srcEndpoint, bnd.dst.Groupcast?,
          match bnd.dst case Unicast(ext) => ext case Groupcast(configGroup, _) => configGroup)
  }

  /** addBinding: the first binding with the same place gets the new reports, otherwise the binding is appended
      with a tracker of its own that was never confirmed. */
  lemma AddLaw(c: Context, bnd: Binding)
    requires |c.tBound| == |c.bindings|
    ensures var r := AddBinding(c, bnd);
      && |r.bindings| == |r.tBound| && r == c.(bindings := r.bindings, tBound := r.tBound)
      && if exists k :: 0 <= k < |c.bindings| && PlaceOf(c.bindings[k]) == PlaceOf(bnd) then
           && r.tBound == c.tBound
           && exists k :: 0 <= k < |c.bindings| && PlaceOf(c.bindings[k]) == PlaceOf(bnd)
                && (forall j :: 0 <= j < k ==> PlaceOf(c.bindings[j]) != PlaceOf(bnd))
                && var merged := MergeReports(c.bindings[k].reporting, bnd.reporting);
                   r.bindings == c.bindings[k := c.bindings[k].(reporting := merged)]
         else
           && r.tBound == c.tBound + [0] && |r.bindings| == |c.bindings| + 1 && c.bindings <= r.bindings
           && var endpoint := if bnd.dst.Unicast? && bnd.dstEndpoint == 0 then 1 else bnd.dstEndpoint;
              r.bindings[|c.bindings|] == bnd.(dstEndpoint := endpoint)
  {
    var i := FindBinding(c.bindings, bnd);
    assert forall x: Binding :: SameBinding(x, bnd) <==> PlaceOf(x) == PlaceOf(bnd);
    hide SameBinding, MergeReports, PlaceOf;
    if i < |c.bindings| {
      assert SameBinding(c.bindings[i], bnd);
    }
  }
}
