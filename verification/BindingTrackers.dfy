/** What the report trackers are worth: which of the reports that a later check round passes over were
    really checked within the hour (device.cpp:1488-1625). */
module BindingTrackers {
  import opened Basics
  import opened ReportCheck
  import opened DeviceData
  import opened BindingMachine
  import BI = BindingInvariant

  /** A read request is on its way. */
  predicate Waiting(b: Machine) { b.state.ReadReport? && !b.lock }

  /** A tracker's value and who wrote it. */
  ghost predicate TrackerOk(l: Ledger, lastCheck: map<TrackerKey, int>, waiting: bool, k: TrackerKey)
    requires k in lastCheck
  {
    match OriginOf(l, k)
    case Unset => lastCheck[k] == 0 && (waiting ==> k !in KeysOf(l.batch))
    case Marked(mark) =>
      && lastCheck[k] == BUSY_MARK && 0 < mark <= l.requests
      && (waiting ==> (mark == l.requests <==> k in KeysOf(l.batch)))
    case Stamped(mark, answered, at, batch) =>
      && lastCheck[k] == at && mark <= answered <= l.requests && (mark == answered <==> k in KeysOf(batch))
      && (waiting ==> answered < l.requests && k !in KeysOf(l.batch))
      && forall a :: a in batch && a.key == k ==> a in l.checked && l.checked[a] == Check(answered, at)
  }

  /** A check is an answer that came, and if it wrote the tracker's value, its request asked for the report. */
  ghost predicate CheckOk(l: Ledger, waiting: bool, a: Ask)
    requires a in l.checked
  {
    && l.checked[a].request <= l.requests && (waiting ==> l.checked[a].request < l.requests)
    && var o := OriginOf(l, a.key); o.Stamped? && o.answered == l.checked[a].request ==> a in o.batch
  }

  ghost predicate LedgerInv(l: Ledger, lastCheck: map<TrackerKey, int>, waiting: bool)
  {
    && (forall k :: k in l.origin ==> k in lastCheck)
    && (forall k :: k in lastCheck ==> TrackerOk(l, lastCheck, waiting, k))
    && (waiting ==> forall a :: a in l.batch ==> a.key in lastCheck)
    && forall a :: a in l.checked ==> CheckOk(l, waiting, a)
  }

  /** The value is less than an hour old, and it is what its writer left there.  The writer was the answer to
      a request for this very report if and only if that answer was the report's own last check. */
  ghost predicate SkipOk(s: Skip)
  {
    && s.now - s.value < RECHECK_MS
    && match s.origin
       case Unset => s.value == 0
       case Marked(_) => s.value == BUSY_MARK
       case Stamped(mark, answered, at, batch) =>
         && s.value == at && (mark == answered <==> s.ask.key in KeysOf(batch))
         && (s.ask in batch ==> s.checked == Some(Check(answered, at)))
         && (s.checked.Some? && s.checked.value.request == answered ==> s.ask in batch)
  }

  ghost predicate SkipsOk(skipped: map<nat, Skip>) { forall i :: i in skipped ==> SkipOk(skipped[i]) }

  /** The reports of the bindings are among these. */
  ghost predicate WantedIn(bindings: seq<Binding>, asks: set<Ask>)
  {
    forall n :: 0 <= n < |bindings| ==> AllIn(bindings[n], asks)
  }

  ghost predicate AllIn(bnd: Binding, asks: set<Ask>)
  {
    forall i :: 0 <= i < |bnd.reporting| ==> AskOf(bnd, i) in asks
  }

  ghost predicate OriginIn(o: Origin, asks: set<Ask>) { o.Stamped? ==> o.batch <= asks }

  /** Only these were ever asked for. */
  ghost predicate LedgerIn(l: Ledger, asks: set<Ask>)
  {
    l.batch <= asks && forall k :: k in l.origin ==> OriginIn(l.origin[k], asks)
  }

  ghost predicate SkipsIn(skipped: map<nat, Skip>, asks: set<Ask>)
  {
    forall i :: i in skipped ==> OriginIn(skipped[i].origin, asks)
  }

  ghost predicate AsksIn(b: Machine, asks: set<Ask>)
  {
    && WantedIn(b.c.bindings, asks) && LedgerIn(b.h.ledger, asks) && SkipsIn(b.h.skipped, asks)
    && forall e :: e in b.h.ended ==> SkipsIn(e.skipped, asks)
  }

  /** The trackers hold what their writers left there, and every report asked for is one of these. */
  ghost predicate TrackInv(b: Machine, asks: set<Ask>)
  {
    && LedgerInv(b.h.ledger, b.c.lastCheck, Waiting(b))
    && SkipsOk(b.h.skipped)
    && (forall e :: e in b.h.ended ==> SkipsOk(e.skipped))
    && AsksIn(b, asks)
  }

  // ----- Asking -----

  /** What filling a request does to the trackers: those asked for are marked, new ones are unset. */
  ghost predicate TrackersOf(bnd: Binding, was: map<TrackerKey, int>, t: Batch)
  {
    var keys := KeysOf(AsksOf(bnd, t.picked));
    && (forall k :: k in was ==> k in t.lastCheck)
    && (forall k :: k in keys ==> k in t.lastCheck)
    && forall k :: k in t.lastCheck ==>
         t.lastCheck[k] == if k in keys then BUSY_MARK else if k in was then was[k] else 0
  }

  lemma AsksOfMore(bnd: Binding, picked: seq<nat>, i: nat)
    requires i < |bnd.reporting|
    ensures AsksOf(bnd, picked + [i]) == AsksOf(bnd, picked) + {AskOf(bnd, i)}
    ensures KeysOf(AsksOf(bnd, picked + [i])) == KeysOf(AsksOf(bnd, picked)) + {KeyOf(bnd, i)}
  {
    assert forall x :: x in picked + [i] <==> x in picked || x == i;
    var before, after := AsksOf(bnd, picked), AsksOf(bnd, picked + [i]);
    assert after == before + {AskOf(bnd, i)};
    hide AsksOf;
    assert AskOf(bnd, i) in after;
    assert KeysOf(after) == KeysOf(before) + {KeyOf(bnd, i)};
  }

  lemma SeenTrackers(bnd: Binding, was: map<TrackerKey, int>, t: Batch)
    requires TrackersOf(bnd, was, t) && t.next < |bnd.reporting|
    ensures TrackersOf(bnd, was, t.(lastCheck := GetOrCreate(t.lastCheck, KeyOf(bnd, t.next))))
  {
    hide KeysOf, AsksOf;
  }

  lemma TakenTrackers(bnd: Binding, was: map<TrackerKey, int>, t: Batch, mf: nat)
    requires TrackersOf(bnd, was, t) && t.next < |bnd.reporting|
    ensures TrackersOf(bnd, was, Batch(t.next, mf, t.picked + [t.next], t.lastCheck[KeyOf(bnd, t.next) := BUSY_MARK]))
  {
    AsksOfMore(bnd, t.picked, t.next);
    hide KeysOf, AsksOf;
  }

  lemma {:induction false} FillBatchTrackers(bnd: Binding, round: nat, now: int, was: map<TrackerKey, int>, t: Batch)
    requires TrackersOf(bnd, was, t) && |t.picked| < MAX_RECORDS
    ensures TrackersOf(bnd, was, FillBatch(bnd, round, now, t))
    decreases |bnd.reporting| - t.next
  {
    if t.next < |bnd.reporting| {
      var report := bnd.reporting[t.next];
      var seen := t.(lastCheck := GetOrCreate(t.lastCheck, KeyOf(bnd, t.next)));
      SeenTrackers(bnd, was, t);
      if round != 0 && now - seen.lastCheck[KeyOf(bnd, t.next)] < RECHECK_MS {
        SameTrackers(bnd, was, seen, t.next + 1);
        FillBatchTrackers(bnd, round, now, was, seen.(next := t.next + 1));
      } else if t.picked == [] || t.mf == report.manufacturerCode {
        TakenTrackers(bnd, was, seen, report.manufacturerCode);
        var taken := Batch(t.next, report.manufacturerCode, t.picked + [t.next],
                           seen.lastCheck[KeyOf(bnd, t.next) := BUSY_MARK]);
        if |taken.picked| < MAX_RECORDS {
          SameTrackers(bnd, was, taken, t.next + 1);
          FillBatchTrackers(bnd, round, now, was, taken.(next := t.next + 1));
        }
      }
      hide TrackersOf;
    }
  }

  lemma SameTrackers(bnd: Binding, was: map<TrackerKey, int>, t: Batch, next: nat)
    requires TrackersOf(bnd, was, t)
    ensures TrackersOf(bnd, was, t.(next := next))
  {
  }

  /** A request, once its trackers are marked, is told apart from all earlier ones. */
  lemma AskingKeeps(l: Ledger, was: map<TrackerKey, int>, bnd: Binding, t: Batch, waiting: bool)
    requires LedgerInv(l, was, waiting) && TrackersOf(bnd, was, t)
    ensures var asks := AsksOf(bnd, t.picked);
      LedgerInv(Asking(l, asks), t.lastCheck, asks != {})
  {
    var asks := AsksOf(bnd, t.picked);
    hide AsksOf;
    assert forall a :: a in asks ==> a.key in KeysOf(asks);
    forall k | k in t.lastCheck
      ensures TrackerOk(Asking(l, asks), t.lastCheck, asks != {}, k)
    {
      AskingKeepsTracker(l, was, asks, t.lastCheck, waiting, k);
    }
    hide KeysOf, TrackerOk;
  }

  lemma AskingKeepsTracker(l: Ledger, was: map<TrackerKey, int>, asks: set<Ask>, lastCheck: map<TrackerKey, int>,
      waiting: bool, k: TrackerKey)
    requires k in lastCheck && (k in was ==> TrackerOk(l, was, waiting, k)) && (k in l.origin ==> k in was)
    requires lastCheck[k] == if k in KeysOf(asks) then BUSY_MARK else if k in was then was[k] else 0
    ensures TrackerOk(Asking(l, asks), lastCheck, asks != {}, k)
  {
    assert asks == {} ==> k !in KeysOf(asks);
    hide KeysOf;
  }

  lemma SkippedAreOk(bnd: Binding, round: nat, now: int, start: nat, t: Batch, l: Ledger, waiting: bool)
    requires BI.BatchDone(bnd, round, now, start, t) && LedgerInv(l, t.lastCheck, waiting)
    ensures SkipsOk(SkippedBy(bnd, start, now, t, l))
  {
    forall i: nat | start <= i < t.next && i !in t.picked
      ensures SkipOk(SkippedBy(bnd, start, now, t, l)[i])
    {
      assert BI.Recent(bnd, now, t.lastCheck, i);
      assert TrackerOk(l, t.lastCheck, waiting, KeyOf(bnd, i));
      hide KeysOf;
    }
  }

  lemma SkipsAdd(a: map<nat, Skip>, b: map<nat, Skip>, asks: set<Ask>)
    requires SkipsOk(a) && SkipsOk(b) && SkipsIn(a, asks) && SkipsIn(b, asks)
    ensures SkipsOk(a + b) && SkipsIn(a + b, asks)
  {
  }

  lemma PickedIsAsked(bnd: Binding, picked: seq<nat>)
    requires picked != [] && picked[0] < |bnd.reporting|
    ensures AsksOf(bnd, picked) != {}
  {
    assert picked[0] in picked;
    assert AskOf(bnd, picked[0]) in AsksOf(bnd, picked);
  }

  lemma ReadReportEnterTracks(b: Machine, env: Env, asks: set<Ask>)
    requires b.state.ReadReport? && !b.lock && !b.timer && BI.Core(b, false)
    requires TrackInv(b.(lock := true), asks)
    ensures TrackInv(ReadReportEnter(b, env).b, asks)
  {
    var bnd := b.c.bindings[b.c.bindingIter];
    hide BI.PhaseInv, BI.EndedInv;
    if bnd.reporting != [] {
      var t := ReadBatch(bnd, b.c, env.now);
      var ledger := Asking(b.h.ledger, AsksOf(bnd, t.picked));
      var skipped := b.h.skipped + SkippedBy(bnd, b.c.reportIter, env.now, t, ledger);
      BatchTracks(b, bnd, env.now);
      BatchAsksIn(b, bnd, env.now, t, asks);
      SkipsAdd(b.h.skipped, SkippedBy(bnd, b.c.reportIter, env.now, t, ledger), asks);
      BatchRecorded(b, t, ledger, skipped, asks);
      hide ReadBatch, AsksOf, Asking, SkippedBy, TrackInv;
      var b1 := b.(c := b.c.(reportIter := t.next, lastCheck := t.lastCheck, readMf := t.mf,
                             readRecords := Requests(bnd.reporting, t.picked)),
                   h := b.h.(skipped := skipped, ledger := ledger));
      BatchSent(b1, env, t.picked, asks);
    }
  }

  /** The trackers and the ledger after a request was filled, before it is sent. */
  lemma BatchRecorded(b: Machine, t: Batch, ledger: Ledger, skipped: map<nat, Skip>, asks: set<Ask>)
    requires TrackInv(b.(lock := true), asks) && b.state.ReadReport?
    requires LedgerInv(ledger, t.lastCheck, t.picked != []) && SkipsOk(skipped)
    requires LedgerIn(ledger, asks) && SkipsIn(skipped, asks)
    ensures forall c: Context :: c.lastCheck == t.lastCheck && c.bindings == b.c.bindings ==>
      TrackInv(b.(lock := t.picked == [], c := c, h := b.h.(skipped := skipped, ledger := ledger)), asks)
  {
    hide LedgerInv, SkipsOk, SkipsIn, LedgerIn, WantedIn;
  }

  /** Sending it, or having nothing to send, writes no tracker. */
  lemma BatchSent(b: Machine, env: Env, picked: seq<nat>, asks: set<Ask>)
    requires b.state.ReadReport? && !b.lock && b.c.bindingIter < |b.c.bindings|
    requires TrackInv(b.(lock := picked == []), asks)
    ensures TrackInv(if picked == [] then ProcessNextBinding(b).b
                     else Await(b.(c := b.c.(zcl := env.zcl),
                                   h := b.h.(asked := ToSet(picked), readsSent := b.h.readsSent + 1)),
                                env.zcl.isEnqueued).b, asks)
  {
    var r := if picked == [] then ProcessNextBinding(b).b
             else Await(b.(c := b.c.(zcl := env.zcl),
                           h := b.h.(asked := ToSet(picked), readsSent := b.h.readsSent + 1)), env.zcl.isEnqueued).b;
    assert PhaseOnly(b.(lock := picked == []), r);
    PhaseOnlyKeeps(b.(lock := picked == []), r, asks);
  }

  lemma BatchAsksIn(b: Machine, bnd: Binding, now: int, t: Batch, asks: set<Ask>)
    requires AllIn(bnd, asks) && LedgerIn(b.h.ledger, asks)
    ensures var ledger := Asking(b.h.ledger, AsksOf(bnd, t.picked));
      LedgerIn(ledger, asks) && SkipsIn(SkippedBy(bnd, b.c.reportIter, now, t, ledger), asks)
  {
    hide KeysOf;
    assert AsksOf(bnd, t.picked) <= asks;
    hide AsksOf;
  }

  lemma BatchTracks(b: Machine, bnd: Binding, now: int)
    requires b.c.reportIter <= |bnd.reporting| && LedgerInv(b.h.ledger, b.c.lastCheck, false)
    ensures var t := ReadBatch(bnd, b.c, now);
      var ledger := Asking(b.h.ledger, AsksOf(bnd, t.picked));
      && LedgerInv(ledger, t.lastCheck, t.picked != [])
      && SkipsOk(SkippedBy(bnd, b.c.reportIter, now, t, ledger))
  {
    var t := ReadBatch(bnd, b.c, now);
    BI.ReadBatchDone(bnd, b.c, now);
    assert AsksOf(bnd, []) == {};
    FillBatchTrackers(bnd, b.c.checkRound, now, b.c.lastCheck, Batch(b.c.reportIter, 0, [], b.c.lastCheck));
    AskingKeeps(b.h.ledger, b.c.lastCheck, bnd, t, false);
    var asks := AsksOf(bnd, t.picked);
    if t.picked != [] {
      assert t.picked[0] in t.picked;
      PickedIsAsked(bnd, t.picked);
    } else {
      assert asks == {};
    }
    SkippedAreOk(bnd, b.c.checkRound, now, b.c.reportIter, t, Asking(b.h.ledger, asks), asks != {});
  }

  // ----- Answering -----

  /** The answer stamps every marked tracker; a stamp is worth something exactly when the mark it replaces
      was set by the very request that was answered. */
  lemma AnsweringKeeps(l: Ledger, lastCheck: map<TrackerKey, int>, now: int)
    requires LedgerInv(l, lastCheck, true)
    ensures var stamped := map k | k in lastCheck :: if lastCheck[k] == BUSY_MARK then now else lastCheck[k];
      LedgerInv(Answering(l, lastCheck, now), stamped, false)
  {
  }

  /** What the code could look at: the answer stamps the trackers of its own request only, if and only if no
      other tracker is still marked when it arrives. */
  lemma AnswerStampsItsOwnIff(b: Machine, response: Response, env: Env)
    requires Waiting(b) && LedgerInv(b.h.ledger, b.c.lastCheck, true) && b.c.bindingIter < |b.c.bindings|
    requires ConfigurationValid(response, b.c.bindings[b.c.bindingIter].reporting, b.c.readRecords)
    ensures var r := ReportConfigResponse(b, Some(response), env).b; var l := b.h.ledger;
      (forall k :: k in b.c.lastCheck && b.c.lastCheck[k] == BUSY_MARK ==>
         OriginOf(r.h.ledger, k).Stamped? && OriginOf(r.h.ledger, k).mark == l.requests) <==>
      forall k :: k in b.c.lastCheck && b.c.lastCheck[k] == BUSY_MARK ==> k in KeysOf(l.batch)
  {
    var l := b.h.ledger;
    var answered := Answering(l, b.c.lastCheck, env.now);
    assert ReportConfigResponse(b, Some(response), env).b.h.ledger == answered;
    hide ReportConfigResponse, ConfigurationValid;
    forall k | k in b.c.lastCheck && b.c.lastCheck[k] == BUSY_MARK
      ensures OriginOf(answered, k).Stamped? && (OriginOf(answered, k).mark == l.requests <==> k in KeysOf(l.batch))
    {
      assert TrackerOk(l, b.c.lastCheck, true, k);
    }
  }

  lemma ReportConfigResponseTracks(b: Machine, response: Option<Response>, env: Env, asks: set<Ask>)
    requires Waiting(b) && TrackInv(b, asks)
    ensures TrackInv(ReportConfigResponse(b, response, env).b, asks)
  {
    var r := ReportConfigResponse(b, response, env).b;
    if b.c.bindingIter < |b.c.bindings| && response.Some?
        && ConfigurationValid(response.value, b.c.bindings[b.c.bindingIter].reporting, b.c.readRecords) {
      AnswerRecorded(b, env.now, asks);
      hide TrackInv, ConfigurationValid;
      assert PhaseOnly(Stamp(b, env.now), r);
      PhaseOnlyKeeps(Stamp(b, env.now), r, asks);
    } else {
      hide TrackInv, ConfigurationValid;
      PhaseOnlyKeeps(b, r, asks);
    }
  }

  /** The machine with the answer in its trackers, no longer waiting. */
  function Stamp(b: Machine, now: int): Machine
  {
    b.(lock := true,
       c := b.c.(lastCheck := map k | k in b.c.lastCheck ::
                   if b.c.lastCheck[k] == BUSY_MARK then now else b.c.lastCheck[k]),
       h := b.h.(ledger := Answering(b.h.ledger, b.c.lastCheck, now)))
  }

  lemma AnswerRecorded(b: Machine, now: int, asks: set<Ask>)
    requires Waiting(b) && TrackInv(b, asks)
    ensures TrackInv(Stamp(b, now), asks)
  {
    AnsweringKeeps(b.h.ledger, b.c.lastCheck, now);
    assert LedgerIn(Answering(b.h.ledger, b.c.lastCheck, now), asks);
    hide LedgerInv, SkipsOk, Answering, LedgerIn, SkipsIn, WantedIn;
  }

  // ----- Everything else leaves the trackers alone -----

  /** The bindings want the same reports; only destinations may differ. */
  ghost predicate SameReports(a: seq<Binding>, b: seq<Binding>)
  {
    |a| == |b| && forall n :: 0 <= n < |a| ==> b[n] == a[n].(dst := b[n].dst)
  }

  lemma SameReportsKeep(a: seq<Binding>, b: seq<Binding>, asks: set<Ask>)
    requires SameReports(a, b) && WantedIn(a, asks)
    ensures WantedIn(b, asks)
  {
    forall n | 0 <= n < |b|
      ensures AllIn(b[n], asks)
    {
      assert AllIn(a[n], asks);
      assert forall i :: 0 <= i < |b[n].reporting| ==> AskOf(b[n], i) == AskOf(a[n], i);
    }
  }

  /** Trackers and reasons are untouched, and no request is on its way that was not before. */
  ghost predicate LedgerAlone(b: Machine, r: Machine)
  {
    && r.c.lastCheck == b.c.lastCheck && r.h.ledger == b.h.ledger
    && r.h.skipped == b.h.skipped && r.h.ended == b.h.ended
    && (Waiting(r) ==> Waiting(b))
  }

  ghost predicate Untouched(b: Machine, r: Machine) { LedgerAlone(b, r) && SameReports(b.c.bindings, r.c.bindings) }

  lemma UntouchedKeeps(b: Machine, r: Machine, asks: set<Ask>)
    requires TrackInv(b, asks) && Untouched(b, r)
    ensures TrackInv(r, asks)
  {
    WeakerWait(b.h.ledger, b.c.lastCheck, Waiting(b), Waiting(r));
    SameReportsKeep(b.c.bindings, r.c.bindings, asks);
  }

  /** Bindings change from outside. */
  lemma NewBindingsKeep(b: Machine, r: Machine, asks: set<Ask>, more: set<Ask>)
    requires TrackInv(b, asks) && LedgerAlone(b, r) && asks <= more && WantedIn(r.c.bindings, more)
    ensures TrackInv(r, more)
  {
    WeakerWait(b.h.ledger, b.c.lastCheck, Waiting(b), Waiting(r));
  }

  lemma WeakerWait(l: Ledger, lastCheck: map<TrackerKey, int>, was: bool, waiting: bool)
    requires LedgerInv(l, lastCheck, was) && (waiting ==> was)
    ensures LedgerInv(l, lastCheck, waiting)
  {
  }

  /** Like Untouched, except that a phase may end or start. */
  ghost predicate PhaseOnly(b: Machine, r: Machine)
  {
    && r.c.lastCheck == b.c.lastCheck && r.h.ledger == b.h.ledger
    && r.h.skipped in {b.h.skipped, map[]}
    && (forall e :: e in r.h.ended ==> e in b.h.ended || e.skipped == b.h.skipped)
    && (Waiting(r) ==> Waiting(b))
    && SameReports(b.c.bindings, r.c.bindings)
  }

  lemma PhaseOnlyKeeps(b: Machine, r: Machine, asks: set<Ask>)
    requires TrackInv(b, asks) && PhaseOnly(b, r)
    ensures TrackInv(r, asks)
  {
    WeakerWait(b.h.ledger, b.c.lastCheck, Waiting(b), Waiting(r));
    SameReportsKeep(b.c.bindings, r.c.bindings, asks);
  }

  lemma OtherMessagesTouchNothing(b: Machine, m: Message, env: Env)
    requires !(b.state.ReadReport? && (m.Enter? || (m.Ev? && m.event.EvReportConfig?)))
    ensures PhaseOnly(b, On(b, m, env).b)
  {
    match b.state
    case TableRead | TableVerify => TableTouchesNothing(b, m, env);
    case ReadReport => AwaitTouchesNothing(b, m, b.c.zcl.apsReqId);
    case ConfigureReporting => ConfigureTouchesNothing(b, m, env);
    case _ => BindingsTouchNothing(b, m, env);
  }

  lemma AwaitTouchesNothing(b: Machine, m: Message, requestId: u8)
    ensures Untouched(b, AwaitReply(b, m, requestId).b)
  {
  }

  /** A destination is filled in, then the phase goes on. */
  lemma AfterResolving(b: Machine, i: nat, dst: Destination, r: Machine)
    requires i < |b.c.bindings|
    requires PhaseOnly(b.(c := b.c.(bindings := b.c.bindings[i := b.c.bindings[i].(dst := dst)])), r)
    ensures PhaseOnly(b, r)
  {
  }

  lemma VerifyTouchesNothing(b: Machine, env: Env)
    ensures PhaseOnly(b, VerifyTick(b, env).b)
  {
    hide NeedBind, ResolveGroup, TruncDiv;
    var i := b.c.bindingIter;
    if i < |b.c.bindings| && i < |b.c.tBound| {
      var bnd := b.c.bindings[i];
      var dst := if bnd.dst.Unicast? then Unicast(env.macAddress) else ResolveGroup(bnd.dst, env.configGroups).0;
      var b1 := b.(c := b.c.(bindings := b.c.bindings[i := bnd.(dst := dst)]));
      VerifyEntryTouchesNothing(b, i, env);
      VerifyEntryTouchesNothing(b1, i, env);
      AfterResolving(b, i, dst, VerifyEntry(b1, i, env).b);
      AfterResolving(b, i, dst, NextBinding(b1).b);
      hide VerifyEntry;
    }
  }

  lemma VerifyEntryTouchesNothing(b: Machine, i: nat, env: Env)
    requires i < |b.c.bindings| && i < |b.c.tBound|
    ensures PhaseOnly(b, VerifyEntry(b, i, env).b)
  {
    hide NeedBind;
  }

  lemma TableTouchesNothing(b: Machine, m: Message, env: Env)
    ensures PhaseOnly(b, OnTableRead(b, m, env).b)
    ensures PhaseOnly(b, OnTableVerify(b, m, env).b)
  {
    VerifyTouchesNothing(b, env);
    AwaitTouchesNothing(b, m, b.zdp.apsReqId);
    if m.Ev? && m.event.EvMgmtBindResponse? && m.event.data.Some? {
      MgmtBindTouchesNothing(b, m.event.data.value);
    }
    assert SameReports(b.c.bindings, b.c.bindings);
    hide VerifyTick, AwaitReply, SameReports, MgmtBindResponse;
  }

  lemma MgmtBindTouchesNothing(b: Machine, data: seq<u8>)
    ensures PhaseOnly(b, MgmtBindResponse(b, data).b)
  {
    assert SameReports(b.c.bindings, b.c.bindings);
    hide SameReports;
  }

  lemma ConfigureTouchesNothing(b: Machine, m: Message, env: Env)
    ensures PhaseOnly(b, OnConfigureReporting(b, m, env).b)
  {
    AwaitTouchesNothing(b, m, b.c.zcl.apsReqId);
    ConfigureResponseTouchesNothing(b, if m.Ev? && m.event.EvZclResponse? then m.event.status else 0);
    ConfigureEnterTouchesNothing(b, env);
    hide AwaitReply, ConfigureResponse, ConfigureEnter;
  }

  lemma ConfigureEnterTouchesNothing(b: Machine, env: Env)
    ensures Untouched(b, ConfigureEnter(b, env).b)
  {
    hide FillConfig;
  }

  lemma ConfigureResponseTouchesNothing(b: Machine, status: u8)
    ensures PhaseOnly(b, ConfigureResponse(b, status).b)
  {
    assert SameReports(b.c.bindings, b.c.bindings);
    hide SameReports;
  }

  lemma BindingsTouchNothing(b: Machine, m: Message, env: Env)
    requires b.state !in {TableRead, TableVerify, ReadReport, ConfigureReporting}
    ensures Untouched(b, On(b, m, env).b)
  {
    CreateTouchesNothing(b, m, env);
    RemoveTouchesNothing(b, m, env);
    hide OnBindingCreate, OnBindingRemove;
  }

  lemma CreateTouchesNothing(b: Machine, m: Message, env: Env)
    ensures Untouched(b, OnBindingCreate(b, m, env).b)
  {
    AwaitTouchesNothing(b, m, b.zdp.apsReqId);
    hide AwaitReply;
  }

  lemma RemoveTouchesNothing(b: Machine, m: Message, env: Env)
    ensures Untouched(b, OnBindingRemove(b, m, env).b)
  {
    AwaitTouchesNothing(b, m, b.zdp.apsReqId);
    hide AwaitReply, FindOrphan;
  }

  /** Every message keeps the ledger. */
  lemma OnTracks(b: Machine, m: Message, env: Env, asks: set<Ask>)
    requires !b.lock && TrackInv(b, asks)
    requires !m.Enter?
    ensures TrackInv(On(b, m, env).b, asks)
  {
    if b.state.ReadReport? && m.Ev? && m.event.EvReportConfig? {
      ReportConfigResponseTracks(b, m.event.response, env, asks);
    } else {
      OtherMessagesTouchNothing(b, m, env);
      PhaseOnlyKeeps(b, On(b, m, env).b, asks);
    }
  }

  lemma EnterTracks(b: Machine, env: Env, pending: nat, asks: set<Ask>)
    requires BI.BindInv(b, pending) && pending > 0 && TrackInv(b, asks)
    ensures TrackInv(On(b.(lock := false), Enter(Level1), env).b, asks)
  {
    var b1 := b.(lock := false);
    if b.state.ReadReport? {
      assert b.lock;
      ReadReportEnterTracks(b1, env, asks);
    } else {
      UntouchedKeeps(b, b1, asks);
      OtherMessagesTouchNothing(b1, Enter(Level1), env);
      PhaseOnlyKeeps(b1, On(b1, Enter(Level1), env).b, asks);
    }
  }
}
