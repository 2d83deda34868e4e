/** `class Device` with its private data (device.cpp): the handlers as methods that update fields,
    each proved against the transition functions of DeviceMachine, BindingMachine and PollMachine. */
module Devices {
  import opened Basics
  import opened ReportCheck
  import opened DeviceData
  import M = DeviceMachine
  import B = BindingMachine
  import P = PollMachine

  class Device {
    var top: Top
    var bind: Bind
    var poll: Poll
    var lock0: bool
    var lock1: bool
    var lock2: bool
    var timer0: bool
    var timer1: bool
    var timer2: bool
    var urgent: seq<Level>      // this device's events in the event emitter
    var queue: seq<Event>
    var flags: Flags
    var zdpResult: ZdpResult
    var readResult: ReadResult
    var pollItems: seq<P.PollItem>
    var binding: B.Context
    ghost var h: B.History
    ghost var ph: P.History
    ghost var lost: nat
    ghost var lostQueued: nat

    ghost function BindView(): B.Machine
      reads this`bind, this`lock1, this`timer1, this`zdpResult, this`binding, this`h
    {
      B.Machine(bind, lock1, timer1, zdpResult, binding, h)
    }

    ghost function PollView(): P.Machine
      reads this`poll, this`lock2, this`timer2, this`readResult, this`pollItems, this`ph
    {
      P.Machine(poll, lock2, timer2, readResult, pollItems, ph)
    }

    /** The abstract device. */
    ghost function View(): M.Dev
      reads this
    {
      M.Dev(top, lock0, timer0, flags, BindView(), PollView(), urgent, queue, lost, lostQueued)
    }

    /** A level 1 handler had this outcome. */
    ghost predicate DidBind(o: B.Out, urgent0: seq<Level>, queue0: seq<Event>)
      reads this
    {
      && BindView() == o.b
      && urgent == (if o.enter then urgent0 + [Level1] else urgent0)
      && queue == (if o.tick then M.Enqueue(queue0, EvBindingTick) else queue0)
    }

    /** A level 2 handler had this outcome. */
    ghost predicate DidPoll(o: P.Out, urgent0: seq<Level>, queue0: seq<Event>, armed0: bool)
      reads this
    {
      && PollView() == o.p && flags == o.flags && timer0 == (armed0 && !o.stopTimer0)
      && urgent == (if o.enter then urgent0 + [Level2] else urgent0)
      && queue == (if o.emits.Some? then M.Enqueue(queue0, o.emits.value) else queue0)
    }

    constructor ()
      ensures View() == M.START
    {
      top, bind, poll := NoTop, NoBind, NoPoll;
      lock0, lock1, lock2, timer0, timer1, timer2 := false, false, false, false, false, false;
      urgent, queue := [], [];
      flags := Flags(true, false, false, true, false, false, 0xFF);
      zdpResult, readResult, pollItems := NO_ZDP, NO_READ, [];
      binding := B.START.c;
      h, ph, lost, lostQueued := B.START.h, P.START.h, 0, 0;
    }

    /** DEV_EnqueueEvent; the emitter drops an event that is already queued. */
    method EnqueueEvent(e: Event)
      modifies this`queue
      ensures queue == M.Enqueue(old(queue), e)
    {
      if e !in queue {
        queue := queue + [e];
      }
    }

    // ----- Level 1: setState and the shared branches -----

    method SetBind(s: Bind)
      modifies this`bind, this`lock1, this`timer1, this`urgent
      ensures DidBind(B.SetBind(old(BindView()), s), old(urgent), old(queue))
    {
      if bind != s {
        if B.Timed(bind) { timer1 := false; }
        lock1 := false;
        bind := s;
        if s != NoBind {
          lock1 := true;
          urgent := urgent + [Level1];
        }
      }
    }

    /** Start the confirm timer after a request, or give up. */
    method Await(sent: bool)
      modifies this`bind, this`lock1, this`timer1, this`urgent
      ensures DidBind(B.Await(old(BindView()), sent), old(urgent), old(queue))
    {
      if sent { timer1 := true; } else { SetBind(BindingHandler); }
    }

    method AwaitReply(m: Message, requestId: u8)
      modifies this`bind, this`lock1, this`timer1, this`urgent
      ensures DidBind(B.AwaitReply(old(BindView()), m, requestId), old(urgent), old(queue))
    {
      if m.Timeout? {
        SetBind(BindingHandler);
      } else if m.Ev? && m.event.EvApsConfirm? && m.event.apsReqId == requestId {
        if m.event.confirmed {
          timer1 := false;
          timer1 := true;
        } else {
          SetBind(BindingHandler);
        }
      }
    }

    method ProcessNextBinding()
      requires binding.bindingIter < |binding.bindings|
      modifies this`bind, this`lock1, this`timer1, this`urgent, this`queue, this`zdpResult, this`binding, this`h
      ensures DidBind(B.ProcessNextBinding(old(BindView())), old(urgent), old(queue))
    {
      h := h.(ended := h.ended + [B.PhaseEnd(h.covered, h.skipped, |binding.bindings[binding.bindingIter].reporting|,
                                             binding.checkRound, h.readsSent, h.configsSent)]);
      binding := binding.(bindingIter := binding.bindingIter + 1);
      SetBind(TableVerify);
    }

    method NextBinding()
      modifies this`binding, this`queue
      ensures DidBind(B.NextBinding(old(BindView())), old(urgent), old(queue))
    {
      binding := binding.(bindingIter := binding.bindingIter + 1);
      EnqueueEvent(EvBindingTick);
    }

    // ----- Level 1: binding table and bindings -----

    method BindingStartHandler(m: Message, env: Env)
      modifies this`bind, this`lock1, this`timer1, this`urgent, this`queue, this`zdpResult, this`binding, this`h
      ensures DidBind(B.Start(old(BindView()), m, env), old(urgent), old(queue))
    {
      if m.Ev? && m.event in {EvPoll, EvAwake, EvBindingTick} {
        if binding.bindings != [] && env.unconfirmed <= MAX_UNCONFIRMED {
          binding := binding.(bindingIter := 0);
          SetBind(if binding.mgmtBind.NotSupported? then TableVerify else TableRead);
        }
      } else if m.Ev? && m.event.EvBindingTable? {
        if m.event.status == ZDP_SUCCESS {
          binding := binding.(mgmtBind := B.Supported);
        } else if m.event.status == ZDP_NOT_SUPPORTED {
          binding := binding.(mgmtBind := B.NotSupported);
        }
      }
    }

    method MgmtBindResponse(data: seq<u8>)
      modifies this`bind, this`lock1, this`timer1, this`urgent, this`queue, this`zdpResult, this`binding, this`h
      ensures DidBind(B.MgmtBindResponse(old(BindView()), data), old(urgent), old(queue))
    {
      if 2 <= |data| < 128 && data[0] == zdpResult.zdpSeq {
        if data[1] == ZDP_SUCCESS {
          timer1 := false;
          binding := binding.(mgmtBind := B.Supported);
          var size: int, index: int, count: int := 0, 0, 0;
          if |data| >= 5 {
            size, index, count := data[2], data[3], data[4];
          }
          if size > index + count {
            binding := binding.(startIndex := index + count);
            EnqueueEvent(EvBindingTick);
          } else {
            binding := binding.(bindingIter := 0);
            SetBind(TableVerify);
          }
        } else {
          if data[1] == ZDP_NOT_SUPPORTED || data[1] == ZDP_NOT_PERMITTED {
            binding := binding.(mgmtBind := B.NotSupported);
          }
          SetBind(BindingHandler);
        }
      }
    }

    method BindingTableReadHandler(m: Message, env: Env)
      modifies this`bind, this`lock1, this`timer1, this`urgent, this`queue, this`zdpResult, this`binding, this`h
      ensures DidBind(B.OnTableRead(old(BindView()), m, env), old(urgent), old(queue))
    {
      if m.Enter? {
        binding := binding.(startIndex := 0);
        EnqueueEvent(EvBindingTick);
      } else if m == Ev(EvBindingTick) {
        zdpResult := env.zdp;
        Await(zdpResult.isEnqueued);
      } else if m.Ev? && m.event.EvMgmtBindResponse? {
        if m.event.data.Some? { MgmtBindResponse(m.event.data.value); }
      } else {
        AwaitReply(m, zdpResult.apsReqId);
      }
    }

    /** Look the binding up in the core's table and decide what it needs. */
    method VerifyEntry(env: Env)
      requires binding.bindingIter < |binding.bindings| && binding.bindingIter < |binding.tBound|
      modifies this`bind, this`lock1, this`timer1, this`urgent, this`queue, this`zdpResult, this`binding, this`h
      ensures DidBind(B.VerifyEntry(old(BindView()), old(binding.bindingIter), env), old(urgent), old(queue))
    {
      var i := binding.bindingIter;
      var needBind := true;
      if env.inTable.Some? {
        if binding.tBound[i] < env.inTable.value {
          binding := binding.(tBound := binding.tBound[i := env.inTable.value]);
        }
        var dt := if binding.tBound[i] != 0 then B.TruncDiv(env.now - binding.tBound[i], 1000) else -1;
        needBind := dt < 0 || dt > REBIND_SECONDS;
      }
      assert needBind == B.NeedBind(old(binding).tBound[i], env.inTable, env.now);
      assert old(binding).tBound[i := old(binding).tBound[i]] == old(binding).tBound;
      if needBind {
        SetBind(BindingCreate);
      } else if binding.bindings[i].dst.Unicast? {
        binding := binding.(configIter := 0, reportIter := 0);
        h := h.(asked := {}, covered := {}, skipped := map[], readsSent := 0, configsSent := 0);
        SetBind(ReadReport);
      } else {
        NextBinding();
      }
    }

    method VerifyTick(env: Env)
      modifies this`bind, this`lock1, this`timer1, this`urgent, this`queue, this`zdpResult, this`binding, this`h
      ensures DidBind(B.VerifyTick(old(BindView()), env), old(urgent), old(queue))
    {
      var i := binding.bindingIter;
      if i >= |binding.bindings| {
        binding := binding.(checkRound := binding.checkRound + 1);
        SetBind(BindingRemove);
      } else if i >= |binding.tBound| {
        h := h.(fault := true);
      } else {
        var bnd := binding.bindings[i];
        if bnd.dst.Unicast? {
          if bnd.dst.ext == 0 {
            if env.macAddress == 0 {
              SetBind(BindingHandler);
              return;
            }
            binding := binding.(bindings := binding.bindings[i := bnd.(dst := B.Unicast(env.macAddress))]);
          }
        } else {
          var (dst, ok) := B.ResolveGroup(bnd.dst, env.configGroups);
          binding := binding.(bindings := binding.bindings[i := bnd.(dst := dst)]);
          if !ok {
            NextBinding();
            return;
          }
        }
        VerifyEntry(env);
      }
    }

    method BindingTableVerifyHandler(m: Message, env: Env)
      modifies this`bind, this`lock1, this`timer1, this`urgent, this`queue, this`zdpResult, this`binding, this`h
      ensures DidBind(B.OnTableVerify(old(BindView()), m, env), old(urgent), old(queue))
    {
      if m.Enter? {
        EnqueueEvent(EvBindingTick);
      } else if m == Ev(EvBindingTick) {
        VerifyTick(env);
      }
    }

    method BindingCreateHandler(m: Message, env: Env)
      modifies this`bind, this`lock1, this`timer1, this`urgent, this`queue, this`zdpResult, this`binding, this`h
      ensures DidBind(B.OnBindingCreate(old(BindView()), m, env), old(urgent), old(queue))
    {
      var i := binding.bindingIter;
      if m.Enter? {
        if i >= |binding.bindings| || i >= |binding.tBound| {
          h := h.(fault := true);
        } else {
          binding := binding.(tBound := binding.tBound[i := 0]);
          zdpResult := env.zdp;
          Await(zdpResult.isEnqueued);
        }
      } else if m.Ev? && m.event.EvZdpResponse? {
        if m.event.zdpSeq == zdpResult.zdpSeq {
          if !m.event.accepted {
            SetBind(BindingHandler);
          } else if i >= |binding.tBound| {
            h := h.(fault := true);
          } else {
            binding := binding.(tBound := binding.tBound[i := env.now]);
            SetBind(TableVerify);
          }
        }
      } else {
        AwaitReply(m, zdpResult.apsReqId);
      }
    }

    /** The loop over the DDF's bindings for one group entry of the core's table. */
    method IsUnwantedGroup(e: CoreBinding) returns (unwanted: bool)
      requires e.dst.ToGroup?
      ensures unwanted == B.IsOrphan(e, binding.bindings, {})
    {
      var hasDdfBinding, hasDdfGroup := false, false;
      for k := 0 to |binding.bindings|
        invariant hasDdfBinding == B.HasDdfBinding(binding.bindings[..k], e)
        invariant !hasDdfGroup && !B.HasDdfGroup(binding.bindings[..k], e)
      {
        var bnd := binding.bindings[k];
        assert binding.bindings[..k + 1] == binding.bindings[..k] + [bnd];
        if bnd.dst.Groupcast? && e.clusterId == bnd.clusterId && e.srcEndpoint == bnd.srcEndpoint {
          hasDdfBinding := true;
          if e.dst.group == bnd.dst.group {
            return false;
          }
        }
      }
      assert binding.bindings[..|binding.bindings|] == binding.bindings;
      unwanted := hasDdfBinding && !hasDdfGroup;
    }

    /** The search for a binding table entry to remove. */
    method FindOrphan(env: Env) returns (i: nat)
      ensures i == B.FindOrphan(env.bindingTable, binding.bindings, env.nodes)
    {
      i := 0;
      while i < |env.bindingTable|
        invariant i <= |env.bindingTable|
        invariant forall k :: 0 <= k < i ==> !B.IsOrphan(env.bindingTable[k], binding.bindings, env.nodes)
      {
        var e := env.bindingTable[i];
        if e.dst.ToGroup? {
          var unwanted := IsUnwantedGroup(e);
          if unwanted {
            break;
          }
        } else if e.dst.ToNode? {
          if e.dst.ext !in env.nodes {
            break;
          }
        }
        i := i + 1;
      }
    }

    method RemoveEnter(env: Env)
      modifies this`bind, this`lock1, this`timer1, this`urgent, this`queue, this`zdpResult, this`binding, this`h
      ensures DidBind(B.RemoveEnter(old(BindView()), env), old(urgent), old(queue))
    {
      var i := FindOrphan(env);
      if i == |env.bindingTable| {
        SetBind(BindingIdle);
        return;
      }
      zdpResult := env.zdp;
      if zdpResult.isEnqueued {
        h := h.(removed := h.removed + [env.bindingTable[i]]);
      }
      Await(zdpResult.isEnqueued);
    }

    method BindingRemoveHandler(m: Message, env: Env)
      modifies this`bind, this`lock1, this`timer1, this`urgent, this`queue, this`zdpResult, this`binding, this`h
      ensures DidBind(B.OnBindingRemove(old(BindView()), m, env), old(urgent), old(queue))
    {
      if m.Enter? {
        RemoveEnter(env);
      } else if m.Ev? && m.event.EvZdpResponse? {
        if m.event.zdpSeq == zdpResult.zdpSeq {
          SetBind(BindingHandler);
          EnqueueEvent(EvBindingTick);
        }
      } else {
        AwaitReply(m, zdpResult.apsReqId);
      }
    }

    // ----- Level 1: report phase -----

    /** DEV_GetOrCreateReportTracker */
    method GetOrCreateReportTracker(key: B.TrackerKey)
      modifies this`binding
      ensures binding == old(binding).(lastCheck := B.GetOrCreate(old(binding).lastCheck, key))
    {
      if key !in binding.lastCheck {
        binding := binding.(lastCheck := binding.lastCheck[key := 0]);
      }
    }

    /** The loop that fills a read request; `picked` are the report indices put into it. */
    method FillReadRequest(bnd: B.Binding, now: int) returns (mf: nat, picked: seq<nat>)
      modifies this`binding
      ensures var t := B.ReadBatch(bnd, old(binding), now);
        && mf == t.mf && picked == t.picked
        && binding == old(binding).(reportIter := t.next, lastCheck := t.lastCheck)
    {
      mf, picked := 0, [];
      ghost var whole := B.ReadBatch(bnd, binding, now);
      while binding.reportIter < |bnd.reporting|
        invariant binding == old(binding).(reportIter := binding.reportIter, lastCheck := binding.lastCheck)
        invariant B.FillBatch(bnd, binding.checkRound, now, B.Batch(binding.reportIter, mf, picked,
            binding.lastCheck)) == whole
      {
        var report := bnd.reporting[binding.reportIter];
        var key := B.TrackerKey(bnd.clusterId, report.attributeId, bnd.srcEndpoint);
        GetOrCreateReportTracker(key);
        if binding.checkRound == 0 {
          // always verify on the first round
        } else if now - binding.lastCheck[key] < RECHECK_MS {
          binding := binding.(reportIter := binding.reportIter + 1);
          continue;
        }
        if picked == [] {
          mf := report.manufacturerCode;
        } else if mf != report.manufacturerCode {
          break;
        }
        binding := binding.(lastCheck := binding.lastCheck[key := BUSY_MARK]);
        picked := picked + [binding.reportIter];
        if |picked| == MAX_RECORDS {
          break;
        }
        binding := binding.(reportIter := binding.reportIter + 1);
      }
    }

    method ReadReportEnter(env: Env)
      modifies this`bind, this`lock1, this`timer1, this`urgent, this`queue, this`zdpResult, this`binding, this`h
      ensures DidBind(B.ReadReportEnter(old(BindView()), env), old(urgent), old(queue))
    {
      if binding.bindingIter >= |binding.bindings| {
        h := h.(fault := true);
        return;
      }
      var bnd := binding.bindings[binding.bindingIter];
      if bnd.reporting == [] {
        ProcessNextBinding();
        return;
      }
      ghost var start := binding.reportIter;
      var mf, picked := FillReadRequest(bnd, env.now);
      binding := binding.(readMf := mf, readRecords := B.Requests(bnd.reporting, picked));
      ghost var batch := B.ReadBatch(bnd, old(binding), env.now);
      h := h.(ledger := B.Asking(h.ledger, B.AsksOf(bnd, picked)));
      h := h.(skipped := h.skipped + B.SkippedBy(bnd, start, env.now, batch, h.ledger));
      if picked == [] {
        ProcessNextBinding();
      } else {
        binding := binding.(zcl := env.zcl);
        h := h.(asked := B.ToSet(picked), readsSent := h.readsSent + 1);
        Await(binding.zcl.isEnqueued);
      }
    }

    method ReportConfigResponse(response: Option<Response>, env: Env)
      modifies this`bind, this`lock1, this`timer1, this`urgent, this`queue, this`zdpResult, this`binding, this`h
      ensures DidBind(B.ReportConfigResponse(old(BindView()), response, env), old(urgent), old(queue))
    {
      if binding.bindingIter >= |binding.bindings| {
        h := h.(fault := true);
        return;
      }
      var reports := binding.bindings[binding.bindingIter].reporting;
      var valid := false;
      if response.Some? {
        valid := CheckConfiguration(response.value, reports, binding.readRecords);
      }
      if valid {
        var lastCheck := binding.lastCheck;
        binding := binding.(lastCheck := map k | k in lastCheck ::
          if lastCheck[k] == BUSY_MARK then env.now else lastCheck[k]);
        h := h.(covered := h.covered + h.asked, asked := {}, ledger := B.Answering(h.ledger, lastCheck, env.now));
        if binding.reportIter < |reports| { SetBind(ReadNext); } else { ProcessNextBinding(); }
      } else {
        h := h.(asked := {});
        SetBind(ConfigureReporting);
      }
    }

    method ReadReportConfigurationHandler(m: Message, env: Env)
      modifies this`bind, this`lock1, this`timer1, this`urgent, this`queue, this`zdpResult, this`binding, this`h
      ensures DidBind(B.OnReadReport(old(BindView()), m, env), old(urgent), old(queue))
    {
      if m.Enter? {
        ReadReportEnter(env);
      } else if m.Ev? && m.event.EvReportConfig? {
        ReportConfigResponse(m.event.response, env);
      } else {
        AwaitReply(m, binding.zcl.apsReqId);
      }
    }

    /** The loop that fills a configure request. */
    method FillConfigureRequest(reports: seq<Report>) returns (picked: seq<nat>)
      modifies this`binding
      ensures var t := B.ConfigBatch(reports, old(binding));
        picked == t.1 && binding == old(binding).(configIter := t.0)
    {
      picked := [];
      ghost var whole := B.ConfigBatch(reports, binding);
      var i := binding.configIter;
      while i < binding.reportIter && i < |reports|
        invariant i == binding.configIter && binding == old(binding).(configIter := i)
        invariant B.FillConfig(reports, i, binding.reportIter, binding.readMf, picked) == whole
      {
        var report := reports[i];
        binding := binding.(configIter := binding.configIter + 1);
        if report.manufacturerCode == binding.readMf {
          picked := picked + [i];
          if |picked| == MAX_RECORDS {
            break;
          }
        }
        i := i + 1;
      }
    }

    method ConfigureEnter(env: Env)
      modifies this`bind, this`lock1, this`timer1, this`urgent, this`queue, this`zdpResult, this`binding, this`h
      ensures DidBind(B.ConfigureEnter(old(BindView()), env), old(urgent), old(queue))
    {
      hide B.FillConfig;
      if binding.bindingIter >= |binding.bindings| || binding.bindings[binding.bindingIter].reporting == [] {
        h := h.(fault := true);
        return;
      }
      var picked := FillConfigureRequest(binding.bindings[binding.bindingIter].reporting);
      binding := binding.(zcl := binding.zcl.(isEnqueued := false));
      if picked != [] {
        binding := binding.(zcl := env.zcl);
        h := h.(configsSent := h.configsSent + 1);
      }
      h := h.(asked := B.ToSet(picked));
      Await(binding.zcl.isEnqueued);
    }

    method ConfigureResponse(status: u8)
      modifies this`bind, this`lock1, this`timer1, this`urgent, this`queue, this`zdpResult, this`binding, this`h
      ensures DidBind(B.ConfigureResponse(old(BindView()), status), old(urgent), old(queue))
    {
      if status != ZCL_SUCCESS {
        SetBind(BindingHandler);
      } else if binding.bindingIter >= |binding.bindings| {
        h := h.(fault := true);
      } else {
        h := h.(covered := h.covered + h.asked, asked := {});
        if binding.configIter < binding.reportIter {
          SetBind(ConfigNext);
        } else if binding.reportIter < |binding.bindings[binding.bindingIter].reporting| {
          SetBind(ReadNext);
        } else {
          ProcessNextBinding();
        }
      }
    }

    method ConfigureReportingHandler(m: Message, env: Env)
      modifies this`bind, this`lock1, this`timer1, this`urgent, this`queue, this`zdpResult, this`binding, this`h
      ensures DidBind(B.OnConfigureReporting(old(BindView()), m, env), old(urgent), old(queue))
    {
      if m.Enter? {
        ConfigureEnter(env);
      } else if m.Ev? && m.event.EvZclResponse? {
        if m.event.sequenceNumber == binding.zcl.sequenceNumber { ConfigureResponse(m.event.status); }
      } else {
        AwaitReply(m, binding.zcl.apsReqId);
      }
    }

    method OnBind(m: Message, env: Env)
      modifies this`bind, this`lock1, this`timer1, this`urgent, this`queue, this`zdpResult, this`binding, this`h
      ensures DidBind(B.On(old(BindView()), m, env), old(urgent), old(queue))
    {
      match bind
      case NoBind =>
      case BindingHandler => BindingStartHandler(m, env);
      case TableRead => BindingTableReadHandler(m, env);
      case TableVerify => BindingTableVerifyHandler(m, env);
      case BindingCreate => BindingCreateHandler(m, env);
      case BindingRemove => BindingRemoveHandler(m, env);
      case ReadReport => ReadReportConfigurationHandler(m, env);
      case ReadNext => if m.Enter? { SetBind(ReadReport); }
      case ConfigNext => if m.Enter? { SetBind(ConfigureReporting); }
      case ConfigureReporting => ConfigureReportingHandler(m, env);
      case BindingIdle =>
        if m.Enter? { timer1 := true; } else if m.Timeout? { SetBind(BindingHandler); }
    }

    // ----- Level 2 -----

    method SetPoll(s: Poll)
      modifies this`poll, this`lock2, this`timer2, this`urgent, this`ph
      ensures DidPoll(P.SetPoll(old(PollView()), old(flags), s), old(urgent), old(queue), old(timer0))
    {
      if poll != s {
        if P.Timed(poll) {
          timer2 := false;
          if s == NoPoll { ph := ph.(aborted := ph.aborted + 1); }
        }
        lock2 := false;
        poll := s;
        if s != NoPoll {
          lock2 := true;
          urgent := urgent + [Level2];
        }
      }
    }

    method PollIdleHandler(m: Message, env: Env)
      modifies this`poll, this`lock2, this`timer2, this`timer0, this`urgent, this`queue, this`readResult,
          this`pollItems, this`flags, this`ph
      ensures DidPoll(P.OnPollIdle(old(PollView()), m, old(flags), env), old(urgent), old(queue), old(timer0))
    {
      if m.Ev? && m.event in {EvPoll, EvAwake} && env.unconfirmed <= MAX_UNCONFIRMED {
        if flags.needMaintenance && env.jitterDone {
          flags := flags.(needMaintenance := false);
          if !env.sleeper && env.reachable {
            flags := flags.(needReadActive := true, needReadSimple := true, fetchIndex := 0);
            EnqueueEvent(EvZdpReload);
            return;
          }
        }
        StartSession(env, m.event.EvPoll?);
      }
    }

    method StartSession(env: Env, asked: bool)
      modifies this`poll, this`lock2, this`timer2, this`timer0, this`urgent, this`queue, this`readResult,
          this`pollItems, this`flags, this`ph
      ensures DidPoll(P.StartSession(old(PollView()), old(flags), env, asked), old(urgent), old(queue), old(timer0))
    {
      pollItems := P.FreshItems(env.pollItems);
      if |pollItems| > 0 {
        ph := ph.(tries := P.Zeros(|env.pollItems|), started := ph.started + 1);
        SetPoll(PollNext);
      } else if asked {
        EnqueueEvent(EvPollDone);
      }
    }

    /** checkPollItemRetry */
    method CheckPollItemRetry()
      modifies this`pollItems
      ensures pollItems == P.RetryTop(old(pollItems))
    {
      if pollItems != [] {
        var top := |pollItems| - 1;
        pollItems := pollItems[top := pollItems[top].(retry := pollItems[top].retry + 1)];
        if pollItems[top].retry >= MAX_POLL_RETRIES {
          pollItems := pollItems[..top];
        }
      }
    }

    /** Nothing left to poll: back to PollIdle, and let DeviceTick proceed. */
    method FinishSession()
      modifies this`poll, this`lock2, this`timer2, this`timer0, this`urgent, this`queue, this`readResult,
          this`pollItems, this`flags, this`ph
      ensures DidPoll(P.FinishSession(old(PollView()), old(flags)), old(urgent), old(queue), old(timer0))
    {
      ph := ph.(finished := ph.finished + 1);
      SetPoll(PollIdle);
      EnqueueEvent(EvPollDone);
    }

    /** Call the read function of the top item. */
    method ReadTop(env: Env)
      modifies this`poll, this`lock2, this`timer2, this`timer0, this`urgent, this`queue, this`readResult,
          this`pollItems, this`flags, this`ph
      ensures DidPoll(P.ReadTop(old(PollView()), old(flags), env), old(urgent), old(queue), old(timer0))
    {
      readResult := env.read;
      ph := P.CountTry(PollView()).h;
      if readResult.isEnqueued {
        SetPoll(PollBusy);
      } else {
        CheckPollItemRetry();
        timer2 := true;
      }
    }

    method PollNextHandler(m: Message, env: Env)
      modifies this`poll, this`lock2, this`timer2, this`timer0, this`urgent, this`queue, this`readResult,
          this`pollItems, this`flags, this`ph
      ensures DidPoll(P.OnPollNext(old(PollView()), m, old(flags), env), old(urgent), old(queue), old(timer0))
    {
      if !m.Ev? {
        if !m.level.Level2? {
          ph := ph.(fault := true);
        }
        if !env.reachable {
          pollItems := [];
        }
        if pollItems == [] {
          FinishSession();
        } else if !env.readFunction {
          readResult := NO_READ;
          pollItems := P.DropTop(pollItems);
          timer2 := true;
        } else {
          ReadTop(env);
        }
      }
    }

    method PollBusyHandler(m: Message)
      modifies this`poll, this`lock2, this`timer2, this`timer0, this`urgent, this`queue, this`readResult,
          this`pollItems, this`flags, this`ph
      ensures DidPoll(P.OnPollBusy(old(PollView()), m, old(flags)), old(urgent), old(queue), old(timer0))
    {
      if m.Enter? {
        timer2 := true;
      } else if m.Timeout? {
        CheckPollItemRetry();
        SetPoll(PollNext);
      } else if m.event.EvApsConfirm? && m.event.apsReqId == readResult.apsReqId {
        if m.event.confirmed {
          timer0 := false;
          timer2 := true;
        } else {
          CheckPollItemRetry();
          SetPoll(PollNext);
        }
      } else if m.event.EvZclResponse? && m.event.clusterId == readResult.clusterId
                && (m.event.sequenceNumber == readResult.sequenceNumber || readResult.ignoreSequence) {
        if pollItems == [] {
          ph := ph.(fault := true);
        } else {
          pollItems := P.DropTop(pollItems);
        }
        SetPoll(PollNext);
      }
    }

    method OnPoll(m: Message, env: Env)
      modifies this`poll, this`lock2, this`timer2, this`timer0, this`urgent, this`queue, this`readResult,
          this`pollItems, this`flags, this`ph
      ensures DidPoll(P.On(old(PollView()), m, old(flags), env), old(urgent), old(queue), old(timer0))
    {
      match poll
      case NoPoll =>
      case PollIdle => PollIdleHandler(m, env);
      case PollNext => PollNextHandler(m, env);
      case PollBusy => PollBusyHandler(m);
    }

    // ----- Level 0 -----

    /** SetBind, seen from the whole device. */
    method SwitchBind(s: Bind)
      modifies this
      ensures View() == M.ApplyBind(old(View()), B.SetBind(old(BindView()), s))
    {
      SetBind(s);
    }

    method SwitchPoll(s: Poll)
      modifies this
      ensures View() == M.ApplyPoll(old(View()), P.SetPoll(old(PollView()), old(flags), s))
    {
      SetPoll(s);
    }

    /** A level 1 handler, seen from the whole device. */
    method StepBind(m: Message, env: Env)
      modifies this
      ensures View() == M.ApplyBind(old(View()), B.On(old(BindView()), m, env))
    {
      hide B.On;
      OnBind(m, env);
    }

    method StepPoll(m: Message, env: Env)
      modifies this
      ensures View() == M.ApplyPoll(old(View()), P.On(old(PollView()), m, old(flags), env))
    {
      hide P.On;
      OnPoll(m, env);
    }

    method LeaveIdle()
      modifies this
      ensures View() == M.LeaveIdle(old(View()))
    {
      SwitchBind(NoBind);
      SwitchPoll(NoPoll);
      timer1 := false;
      timer2 := false;
    }

    method LeaveTop()
      modifies this
      ensures View() == M.LeaveTop(old(View()))
    {
      if M.Timed(top) {
        timer0 := false;
      } else if top == Idle {
        LeaveIdle();
      }
    }

    method SetTop(t: Top)
      modifies this
      ensures View() == M.SetTop(old(View()), t)
    {
      hide M.LeaveTop;
      if top != t {
        LeaveTop();
        top := t;
        lock0 := true;
        urgent := urgent + [Level0];
      }
    }

    method InitStateHandler(m: Message, env: Env)
      modifies this
      ensures View() == M.OnInit(old(View()), m, env)
    {
      hide M.SetTop;
      if m.Enter? {
        zdpResult := NO_ZDP;
        if env.coordinator {
          SetTop(Dead);
          return;
        }
      }
      if m.Timeout? || (m.Ev? && m.event in {EvPoll, EvAwake, EvReachable}) || flags.initialRun {
        flags := flags.(initialRun := false);
        binding := binding.(checkRound := 0);
        if env.node {
          if env.nodeDescriptor || env.reachable { SetTop(NodeDescriptor); }
        } else if env.greenPower {
          SetTop(Zgp);
        }
      }
    }

    method QueryOrInit(env: Env)
      modifies this
      ensures View() == M.QueryOrInit(old(View()), env)
    {
      if !env.reachable {
        SetTop(Init);
      } else {
        zdpResult := env.zdp;
        if zdpResult.isEnqueued { timer0 := true; } else { SetTop(Init); }
      }
    }

    method QueryReply(m: Message, requestId: u8)
      modifies this
      ensures View() == M.QueryReply(old(View()), m, requestId)
    {
      if m.Timeout? {
        SetTop(Init);
      } else if m.Ev? && m.event.EvApsConfirm? && m.event.apsReqId == requestId {
        if m.event.confirmed {
          timer0 := false;
          timer0 := true;
        } else {
          SetTop(Init);
        }
      }
    }

    method Restart()
      modifies this
      ensures View() == M.Restart(old(View()))
    {
      SetTop(Init);
      EnqueueEvent(EvAwake);
    }

    method NodeDescriptorStateHandler(m: Message, env: Env)
      modifies this
      ensures View() == M.OnNodeDescriptor(old(View()), m, env)
    {
      if m.Enter? {
        if env.nodeDescriptor { SetTop(ActiveEndpoints); } else { QueryOrInit(env); }
      } else if m == Ev(EvNodeDescriptor) {
        Restart();
      } else {
        QueryReply(m, zdpResult.apsReqId);
      }
    }

    method ActiveEndpointsStateHandler(m: Message, env: Env)
      modifies this
      ensures View() == M.OnActiveEndpoints(old(View()), m, env)
    {
      if m.Enter? {
        if env.endpoints != [] && !flags.needReadActive { SetTop(SimpleDescriptor); } else { QueryOrInit(env); }
      } else if m == Ev(EvActiveEndpoints) {
        flags := flags.(needReadActive := false);
        Restart();
      } else {
        QueryReply(m, zdpResult.apsReqId);
      }
    }

    /** The search for an endpoint whose simple descriptor has to be fetched; 0 when there is none. */
    method FindEndpointToFetch(env: Env) returns (ep: u8)
      ensures ep == M.EndpointToFetch(flags, env)
    {
      ep := 0;
      if flags.needReadSimple {
        if flags.fetchIndex < |env.endpoints| {
          ep := env.endpoints[flags.fetchIndex];
        }
      } else {
        for i := 0 to |env.endpoints|
          invariant ep == 0
          invariant M.FirstUndescribed(env.endpoints, env.described) == M.FirstUndescribed(env.endpoints[i..],
              env.described)
        {
          if env.endpoints[i] !in env.described {
            ep := env.endpoints[i];
            return;
          }
        }
      }
    }

    method FetchEndpoint(needFetchEp: u8, env: Env)
      modifies this
      ensures View() == M.FetchEndpoint(old(View()), needFetchEp, env)
    {
      if needFetchEp == 0 {
        flags := flags.(needReadSimple := false, fetchIndex := 0xFF);
        SetTop(BasicCluster);
      } else {
        QueryOrInit(env);
      }
    }

    method EndpointFetched(env: Env)
      modifies this
      ensures View() == M.EndpointFetched(old(View()), env)
    {
      if flags.needReadSimple && flags.fetchIndex < |env.endpoints| {
        flags := flags.(fetchIndex := flags.fetchIndex + 1);
      }
      assert View() == old(View()).(flags := M.NextEndpoint(old(flags), env));
      Restart();
    }

    method SimpleDescriptorStateHandler(m: Message, env: Env)
      modifies this
      ensures View() == M.OnSimpleDescriptor(old(View()), m, env)
    {
      if m.Enter? {
        var needFetchEp := FindEndpointToFetch(env);
        FetchEndpoint(needFetchEp, env);
      } else if m == Ev(EvSimpleDescriptor) {
        EndpointFetched(env);
      } else {
        QueryReply(m, zdpResult.apsReqId);
      }
    }

    method BasicClusterStateHandler(m: Message, env: Env)
      modifies this
      ensures View() == M.OnBasicCluster(old(View()), m, env)
    {
      if m.Enter? {
        if env.manufacturerKnown && env.modelKnown {
          SetTop(GetDeviceDescription);
        } else if !env.reachable {
          SetTop(Init);
        } else {
          readResult := env.read;
          if readResult.isEnqueued { timer0 := true; } else { SetTop(Init); }
        }
      } else if m == Ev(EvBasicAttribute) {
        Restart();
      } else {
        QueryReply(m, readResult.apsReqId);
      }
    }

    method GetDeviceDescriptionHandler(m: Message)
      modifies this
      ensures View() == M.OnGetDeviceDescription(old(View()), m)
    {
      if m.Enter? {
        EnqueueEvent(EvDDFInitRequest);
      } else if m.Ev? && m.event.EvDDFInitResponse? {
        if m.event.num == 1 || m.event.num == 3 {
          flags := flags.(managed := true, hasDdf := true);
          SetTop(Idle);
        } else {
          flags := flags.(managed := false, hasDdf := false);
          SetTop(Dead);
        }
      }
    }

    method EnterIdle()
      modifies this
      ensures View() == M.EnterIdle(old(View()))
    {
      binding := binding.(bindingIter := 0);
      SwitchBind(BindingHandler);
      SwitchPoll(PollIdle);
    }

    /** Device::handleEvent for level 1. */
    method HandleLevel1(m: Message, env: Env)
      modifies this
      ensures View() == M.OnLevel1(old(View()), m, env)
    {
      if lock1 { lost := lost + 1; } else { StepBind(m, env); }
    }

    /** Device::handleEvent for level 2. */
    method HandleLevel2(m: Message, env: Env)
      modifies this
      ensures View() == M.OnLevel2(old(View()), m, env)
    {
      if lock2 { lost := lost + 1; } else { StepPoll(m, env); }
    }

    method IdleStateHandler(m: Message, env: Env)
      modifies this
      ensures View() == M.OnIdle(old(View()), m, env)
    {
      if m.Enter? {
        EnterIdle();
      } else {
        HandleLevel1(m, env);
        HandleLevel2(m, env);
      }
    }

    method OnTop(m: Message, env: Env)
      modifies this
      ensures View() == M.OnTop(old(View()), m, env)
    {
      match top
      case NoTop =>
      case Init => InitStateHandler(m, env);
      case NodeDescriptor => NodeDescriptorStateHandler(m, env);
      case ActiveEndpoints => ActiveEndpointsStateHandler(m, env);
      case SimpleDescriptor => SimpleDescriptorStateHandler(m, env);
      case BasicCluster => BasicClusterStateHandler(m, env);
      case GetDeviceDescription => GetDeviceDescriptionHandler(m);
      case Idle => IdleStateHandler(m, env);
      case Dead => if !m.Enter? && flags.managed && flags.hasDdf { SetTop(Init); }
      case Zgp =>
    }

    // ----- Public entries -----

    method HandleEnter(l: Level, env: Env)
      modifies this
      ensures View() == M.DeliverEnter(old(View()), l, env)
    {
      hide M.OnTop, B.On, P.On;
      match l
      case Level0 =>
        lock0 := false;
        OnTop(Enter(l), env);
      case Level1 =>
        lock1 := false;
        StepBind(Enter(l), env);
      case Level2 =>
        lock2 := false;
        StepPoll(Enter(l), env);
    }

    method Reload(t: Top)
      modifies this
      ensures View() == M.Reload(old(View()), t)
    {
      SetTop(t);
      if t == Init {
        binding := binding.(checkRound := 0);
      }
      timer0 := true;
    }

    method HandleEvent(e: Event, env: Env)
      modifies this
      ensures View() == M.HandleEvent(old(View()), e, env)
    {
      hide M.OnTop;
      if lock0 {
        lost := lost + 1;
      } else if e.EvDDFReload? {
        Reload(Init);
      } else if e.EvZdpReload? {
        Reload(ActiveEndpoints);
      } else {
        OnTop(Ev(e), env);
      }
    }

    /** Device::timerEvent */
    method TimerEvent(l: Level, env: Env)
      modifies this
      ensures View() == M.FireTimer(old(View()), l, env)
    {
      hide M.OnTop, B.On, P.On;
      match l
      case Level0 =>
        if timer0 {
          timer0 := false;
          OnTop(Timeout(l), env);
        }
      case Level1 =>
        if timer1 {
          timer1 := false;
          StepBind(Timeout(l), env);
        }
      case Level2 =>
        if timer2 {
          timer2 := false;
          StepPoll(Timeout(l), env);
        }
    }

    method ClearBindings()
      modifies this
      ensures View() == M.Next(old(View()), M.Clear)
    {
      binding := binding.(bindings := [], tBound := []);
      if bind != NoBind {
        SwitchBind(BindingHandler);
      }
    }

    /** mergeBindingReportConfigs */
    method MergeReports(a: seq<Report>, b: seq<Report>) returns (r: seq<Report>)
      ensures r == B.MergeReports(a, b)
    {
      r := a;
      for i := 0 to |b|
        invariant r == B.MergeReports(a, b[..i])
      {
        assert b[..i + 1][..i] == b[..i];
        var found := false;
        for k := 0 to |r|
          invariant !found && forall n :: 0 <= n < k ==> r[n].attributeId != b[i].attributeId
        {
          if r[k].attributeId == b[i].attributeId {
            found := true;
            break;
          }
        }
        if !found {
          r := r + [b[i]];
        }
      }
      assert b[..|b|] == b;
    }

    method AddBinding(bnd: B.Binding)
      modifies this`binding
      ensures View() == M.Next(old(View()), M.Add(bnd))
    {
      var i := B.FindBinding(binding.bindings, bnd);
      if i < |binding.bindings| {
        var reports := MergeReports(binding.bindings[i].reporting, bnd.reporting);
        binding := binding.(bindings := binding.bindings[i := binding.bindings[i].(reporting := reports)]);
      } else {
        binding := binding.(bindings := binding.bindings + [bnd], tBound := binding.tBound + [0]);
        if bnd.dstEndpoint == 0 && bnd.dst.Unicast? {
          var last := |binding.bindings| - 1;
          binding := binding.(bindings := binding.bindings[last := binding.bindings[last].(dstEndpoint := 1)]);
        }
        assert binding.bindings == B.AddBinding(old(binding), bnd).bindings;
      }
    }
  }
}
