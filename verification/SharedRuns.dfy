/** Runs from construction on in which two reports share a tracker. */
module SharedRuns {
  import opened Basics
  import opened ReportCheck
  import opened DeviceData
  import opened BindingMachine
  import opened ReportRuns
  import M = DeviceMachine

  // ----- Bindings with one report -----

  predicate Single(bnd: Binding)
  {
    bnd.dst.Unicast? && bnd.dst.ext != 0 && bnd.dstEndpoint != 0 && |bnd.reporting| == 1
  }

  /** The bindings want different reports that use one tracker. */
  predicate Rivals(a: Binding, b: Binding)
  {
    Single(a) && Single(b) && KeyOf(a, 0) == KeyOf(b, 0) && a.reporting[0] != b.reporting[0]
  }

  /** The first round asks for the report. */
  lemma SingleIsRead(bnd: Binding, c: Context, now: int)
    requires Single(bnd) && c.checkRound == 0 && c.reportIter == 0 && c.lastCheck == map[]
    ensures ReadBatch(bnd, c, now) == Batch(1, bnd.reporting[0].manufacturerCode, [0], map[KeyOf(bnd, 0) := BUSY_MARK])
  {
    var end := Batch(1, bnd.reporting[0].manufacturerCode, [0], map[KeyOf(bnd, 0) := BUSY_MARK]);
    assert map[][KeyOf(bnd, 0) := 0][KeyOf(bnd, 0) := BUSY_MARK] == end.lastCheck;
    assert [] + [0] == [0];
    assert FillBatch(bnd, 0, now, end) == end;
  }

  /** A later round passes it over when its tracker was stamped just now. */
  lemma SingleIsSkipped(bnd: Binding, c: Context, now: int)
    requires Single(bnd) && c.checkRound != 0 && c.reportIter == 0 && c.lastCheck == map[KeyOf(bnd, 0) := now]
    ensures ReadBatch(bnd, c, now) == Batch(1, 0, [], c.lastCheck)
  {
    var end := Batch(1, 0, [], c.lastCheck);
    assert FillBatch(bnd, c.checkRound, now, end) == end;
  }

  lemma OneAsk(bnd: Binding, i: nat)
    requires i < |bnd.reporting|
    ensures AsksOf(bnd, [i]) == {AskOf(bnd, i)} && KeysOf({AskOf(bnd, i)}) == {KeyOf(bnd, i)}
  {
    assert i in [i] && AskOf(bnd, i).key == KeyOf(bnd, i);
  }

  /** The ledger after a request for one report alone was answered. */
  lemma AskedAndAnswered(l: Ledger, a: Ask, now: int)
    requires KeysOf({a}) == {a.key}
    ensures var r := Answering(Asking(l, {a}), map[a.key := BUSY_MARK], now);
      && OriginOf(r, a.key) == Stamped(l.requests + 1, l.requests + 1, now, {a})
      && r.checked == l.checked[a := Check(l.requests + 1, now)]
  {
  }

  /** The report of the binding was checked once, just now, and nothing else ever was. */
  ghost predicate CheckedOnce(b: Machine, a: Binding, now: int)
    requires Single(a)
  {
    && Handling(b) && b.c.bindings == [a] && b.c.tBound == [now] && b.c.checkRound == 1
    && b.c.lastCheck == map[KeyOf(a, 0) := now]
    && OriginOf(b.h.ledger, KeyOf(a, 0)) == Stamped(1, 1, now, {AskOf(a, 0)})
    && b.h.ledger.checked == map[AskOf(a, 0) := Check(1, now)]
  }

  lemma CheckOnce(a: Binding, now: int) returns (base: M.Dev, r: Machine)
    requires now > 0 && Single(a)
    ensures Resting(base) && Reach(base, r, false) && CheckedOnce(r, a, now)
  {
    hide At, Reachable, AsksOf, KeysOf, Asking, Answering, SkippedBy, FillBatch;
    var b := Fresh();
    base := ReachIdle(now);
    DoAdd(base, b, a);
    b := b.(c := AddBinding(b.c, a));
    assert b.c.bindings == [a] && b.c.tBound == [0];
    b := StartRound(base, b, now);
    b := Visit(base, b, now);
    SingleIsRead(a, b.c, now);
    OneAsk(a, 0);
    AskedAndAnswered(b.h.ledger, AskOf(a, 0), now);
    b := Read(base, b, now);
    b := Confirm(base, b, now, [0]);
    r := EndRound(base, b, now);
  }

  /** The report was passed over although its tracker was stamped over the mark of the answered request, and
      although no request ever asked for it. */
  ghost predicate PassedUnasked(ended: seq<PhaseEnd>, e: PhaseEnd, a: Ask)
  {
    && e in ended && e.round == 1 && e.reports == 1 && e.covered == {} && 0 in e.skipped
    && var k := e.skipped[0];
       && k.ask == a && k.origin.Stamped? && k.origin.mark == k.origin.answered
       && a !in k.origin.batch && k.checked == None
  }

  /** The binding at hand is passed over. */
  lemma PassSingle(base: M.Dev, b: Machine, now: int) returns (r: Machine)
    requires Resting(base) && Reach(base, b, false) && Verifying(b) && now > 0 && Bound(b.c, now)
    requires b.c.bindingIter < |b.c.bindings| && Single(AtBinding(b)) && b.c.checkRound == 1
    requires b.c.lastCheck == map[KeyOf(AtBinding(b), 0) := now]
    ensures Reach(base, r, false) && Verifying(r) && Bound(r.c, now)
    ensures r.c.bindings == b.c.bindings && r.c.bindingIter == b.c.bindingIter + 1 && r.c.checkRound == 1
    ensures r.c.lastCheck == b.c.lastCheck && r.h.ledger == b.h.ledger
    ensures var a := AskOf(AtBinding(b), 0); var l := b.h.ledger;
      var checked := if a in l.checked then Some(l.checked[a]) else None;
      r.h.ended == b.h.ended + [PhaseEnd({}, map[0 := Skip(a, now, now, OriginOf(l, a.key), checked)], 1, 1, 0, 0)]
  {
    var bnd := AtBinding(b);
    r := Visit(base, b, now);
    SingleIsSkipped(bnd, r.c, now);
    assert AsksOf(bnd, []) == {};
    var skipped := SkippedBy(bnd, 0, now, Batch(1, 0, [], r.c.lastCheck), b.h.ledger);
    assert skipped == map[0 := SkipOf(AskOf(bnd, 0), now, Batch(1, 0, [], r.c.lastCheck), b.h.ledger)];
    assert map[] + skipped == skipped;
    hide SkippedBy;
    r := ReadNothing(base, r, now);
  }

  /** For any two different reports with one tracker there is a run in which the second, of another binding,
      is passed over because the first was checked. */
  lemma SharedTrackerIsSkipped(a: Binding, b: Binding, now: int)
    requires Rivals(a, b) && !SameBinding(a, b) && now > 0
    ensures exists steps, e :: PassedUnasked(M.Run(steps).b.h.ended, e, AskOf(b, 0))
  {
    hide At, Reachable;
    var base, r := CheckOnce(a, now);
    DoAdd(base, r, b);
    r := r.(c := AddBinding(r.c, b));
    assert r.c.bindings == [a, b] && r.c.tBound == [now, 0];
    r := StartRound(base, r, now);
    r := PassSingle(base, r, now);
    r := PassSingle(base, r, now);
    Conclude(base, r, AskOf(b, 0));
  }

  lemma Conclude(base: M.Dev, r: Machine, a: Ask)
    requires Reach(base, r, false) && r.h.ended != [] && PassedUnasked(r.h.ended, r.h.ended[|r.h.ended| - 1], a)
    ensures exists steps, e :: PassedUnasked(M.Run(steps).b.h.ended, e, a)
  {
    hide PassedUnasked;
    var steps :| M.Run(steps) == At(base, r, false);
    assert PassedUnasked(M.Run(steps).b.h.ended, r.h.ended[|r.h.ended| - 1], a);
  }

  /** And another one in which clearBindings and addBinding replace the first report by the second. */
  lemma ReplacedReportIsSkipped(a: Binding, b: Binding, now: int)
    requires Rivals(a, b) && now > 0
    ensures exists steps, e :: PassedUnasked(M.Run(steps).b.h.ended, e, AskOf(b, 0))
  {
    hide At, Reachable;
    var base, r := CheckOnce(a, now);
    DoClear(base, r);
    r := r.(c := r.c.(bindings := [], tBound := []));
    DoAdd(base, r, b);
    r := r.(c := AddBinding(r.c, b));
    assert r.c.bindings == [b] && r.c.tBound == [0];
    r := StartRound(base, r, now);
    r := PassSingle(base, r, now);
    Conclude(base, r, AskOf(b, 0));
  }

  // ----- Two reports of one binding -----

  /** The reports have the same attribute and different manufacturer codes. */
  predicate Paired(bnd: Binding)
  {
    && bnd.dst.Unicast? && bnd.dst.ext != 0 && bnd.dstEndpoint != 0 && |bnd.reporting| == 2
    && bnd.reporting[0].attributeId == bnd.reporting[1].attributeId
    && bnd.reporting[0].manufacturerCode != bnd.reporting[1].manufacturerCode
  }

  /** The first report is read alone when it is due. */
  lemma FirstIsRead(bnd: Binding, c: Context, now: int)
    requires Paired(bnd) && c.reportIter == 0
    requires if c.checkRound == 0 then c.lastCheck == map[]
             else exists at :: c.lastCheck == map[KeyOf(bnd, 0) := at] && now - at >= RECHECK_MS
    requires now - BUSY_MARK >= RECHECK_MS || c.checkRound == 0
    ensures ReadBatch(bnd, c, now) == Batch(1, bnd.reporting[0].manufacturerCode, [0], map[KeyOf(bnd, 0) := BUSY_MARK])
  {
    var end := Batch(1, bnd.reporting[0].manufacturerCode, [0], map[KeyOf(bnd, 0) := BUSY_MARK]);
    assert [] + [0] == [0];
    assert GetOrCreate(c.lastCheck, KeyOf(bnd, 0))[KeyOf(bnd, 0) := BUSY_MARK] == end.lastCheck;
    assert FillBatch(bnd, c.checkRound, now, end) == end;
  }

  /** Behind it the second one is read in round 0 only. */
  lemma SecondIsRead(bnd: Binding, c: Context, now: int)
    requires Paired(bnd) && c.reportIter == 1 && c.lastCheck == map[KeyOf(bnd, 0) := now]
    ensures c.checkRound == 0 ==>
      ReadBatch(bnd, c, now) == Batch(2, bnd.reporting[1].manufacturerCode, [1], map[KeyOf(bnd, 0) := BUSY_MARK])
    ensures c.checkRound != 0 ==> ReadBatch(bnd, c, now) == Batch(2, 0, [], c.lastCheck)
  {
    var read := Batch(2, bnd.reporting[1].manufacturerCode, [1], map[KeyOf(bnd, 0) := BUSY_MARK]);
    var skip := Batch(2, 0, [], c.lastCheck);
    assert KeyOf(bnd, 1) == KeyOf(bnd, 0);
    assert [] + [1] == [1];
    assert c.lastCheck[KeyOf(bnd, 1) := BUSY_MARK] == read.lastCheck;
    assert FillBatch(bnd, c.checkRound, now, read) == read;
    assert FillBatch(bnd, c.checkRound, now, skip) == skip;
  }

  /** In the j-th later round, j hours after the second report was checked, it is passed over because the
      first one was checked a moment ago. */
  ghost predicate Starved(e: PhaseEnd, bnd: Binding, now: int, j: nat)
    requires |bnd.reporting| == 2
  {
    && e.round == j && e.reports == 2 && e.covered == {0} && 1 in e.skipped
    && var k := e.skipped[1];
       && k.ask == AskOf(bnd, 1) && k.now == now + j * RECHECK_MS && k.checked.Some? && k.checked.value.at == now
       && k.origin.Stamped? && k.origin.batch == {AskOf(bnd, 0)}
  }

  ghost predicate StarvedIn(ended: seq<PhaseEnd>, bnd: Binding, now: int, j: nat)
    requires |bnd.reporting| == 2
  {
    exists e :: e in ended && Starved(e, bnd, now, j)
  }

  /** After round 0 at time `now` and `n` later rounds, one an hour. */
  ghost predicate RoundsDone(b: Machine, bnd: Binding, now: int, n: nat)
    requires Paired(bnd)
  {
    var last := now + n * RECHECK_MS;
    && Handling(b) && b.c.bindings == [bnd] && Bound(b.c, last) && b.c.checkRound == n + 1
    && b.c.lastCheck == map[KeyOf(bnd, 0) := last]
    && AskOf(bnd, 1) in b.h.ledger.checked && b.h.ledger.checked[AskOf(bnd, 1)].at == now
    && forall j :: 1 <= j <= n ==> StarvedIn(b.h.ended, bnd, now, j)
  }

  /** Round 0 reads both reports, one after the other. */
  lemma BothAreRead(bnd: Binding, now: int) returns (base: M.Dev, r: Machine)
    requires now > BUSY_MARK && Paired(bnd)
    ensures Resting(base) && Reach(base, r, false) && RoundsDone(r, bnd, now, 0)
  {
    hide At, Reachable, AsksOf, KeysOf, Asking, Answering, SkippedBy, FillBatch;
    var b := Fresh();
    base := ReachIdle(now);
    DoAdd(base, b, bnd);
    b := b.(c := AddBinding(b.c, bnd));
    assert b.c.bindings == [bnd] && b.c.tBound == [0];
    b := StartRound(base, b, now);
    b := Visit(base, b, now);
    FirstIsRead(bnd, b.c, now);
    b := Read(base, b, now);
    b := ConfirmMore(base, b, now, [0]);
    r := SecondIsConfirmed(base, b, bnd, now);
  }

  lemma SecondIsConfirmed(base: M.Dev, b: Machine, bnd: Binding, now: int) returns (r: Machine)
    requires Paired(bnd) && Resting(base) && Reach(base, b, false) && AtReport(b) && now >= 0
    requires b.c.bindings == [bnd] && b.c.tBound == [now] && b.c.reportIter == 1 && b.c.checkRound == 0
    requires b.c.lastCheck == map[KeyOf(bnd, 0) := now]
    ensures Reach(base, r, false) && RoundsDone(r, bnd, now, 0)
  {
    hide At, Reachable, AsksOf, KeysOf, Asking, Answering, SkippedBy, FillBatch;
    SecondIsRead(bnd, b.c, now);
    OneAsk(bnd, 1);
    AskedAndAnswered(b.h.ledger, AskOf(bnd, 1), now);
    r := Read(base, b, now);
    r := Confirm(base, r, now, [1]);
    r := EndRound(base, r, now);
  }

  /** A later round: the first report is read and confirmed. */
  lemma FirstIsConfirmed(base: M.Dev, b: Machine, bnd: Binding, now: int, n: nat) returns (r: Machine)
    requires now > BUSY_MARK && Paired(bnd)
    requires Resting(base) && Reach(base, b, false) && RoundsDone(b, bnd, now, n)
    ensures var next := now + (n + 1) * RECHECK_MS;
      && Reach(base, r, false) && AtReport(r) && r.c.bindings == [bnd] && Bound(r.c, next)
      && r.c.bindingIter == 0 && r.c.checkRound == n + 1 && r.c.reportIter == 1
      && r.c.lastCheck == map[KeyOf(bnd, 0) := next]
      && r.h.covered == {0} && r.h.skipped == map[] && r.h.ended == b.h.ended
      && (exists m :: OriginOf(r.h.ledger, KeyOf(bnd, 0)) == Stamped(m, m, next, {AskOf(bnd, 0)}))
      && r.h.ledger.checked == b.h.ledger.checked[AskOf(bnd, 0) := Check(b.h.ledger.requests + 1, next)]
  {
    hide At, Reachable, AsksOf, KeysOf, Asking, Answering, FillBatch, StarvedIn;
    var next := now + (n + 1) * RECHECK_MS;
    r := StartRound(base, b, next);
    r := Visit(base, r, next);
    FirstIsRead(bnd, r.c, next);
    OneAsk(bnd, 0);
    AskedAndAnswered(r.h.ledger, AskOf(bnd, 0), next);
    assert SkippedBy(bnd, 0, next, ReadBatch(bnd, r.c, next), Asking(r.h.ledger, {AskOf(bnd, 0)})) == map[];
    hide SkippedBy;
    r := Read(base, r, next);
    assert ToSet([0]) == {0};
    r := ConfirmMore(base, r, next, [0]);
  }

  /** And the second one is passed over, which ends the round. */
  lemma SecondIsPassed(base: M.Dev, b: Machine, bnd: Binding, now: int, n: nat, ended: seq<PhaseEnd>)
      returns (r: Machine)
    requires now > BUSY_MARK && Paired(bnd) && Resting(base) && Reach(base, b, false) && AtReport(b)
    requires var next := now + (n + 1) * RECHECK_MS;
      && b.c.bindings == [bnd] && Bound(b.c, next) && b.c.bindingIter == 0 && b.c.checkRound == n + 1
      && b.c.reportIter == 1 && b.c.lastCheck == map[KeyOf(bnd, 0) := next]
      && exists m :: OriginOf(b.h.ledger, KeyOf(bnd, 0)) == Stamped(m, m, next, {AskOf(bnd, 0)})
    requires b.h.covered == {0} && b.h.skipped == map[] && b.h.ended == ended
    requires AskOf(bnd, 1) in b.h.ledger.checked && b.h.ledger.checked[AskOf(bnd, 1)].at == now
    requires forall j :: 1 <= j <= n ==> StarvedIn(ended, bnd, now, j)
    ensures Reach(base, r, false) && RoundsDone(r, bnd, now, n + 1)
  {
    hide At, Reachable;
    var next := now + (n + 1) * RECHECK_MS;
    SecondIsRead(bnd, b.c, next);
    var t := ReadBatch(bnd, b.c, next);
    assert AsksOf(bnd, []) == {};
    var skipped := SkippedBy(bnd, 1, next, t, b.h.ledger);
    assert skipped == map[1 := SkipOf(AskOf(bnd, 1), next, t, b.h.ledger)];
    assert map[] + skipped == skipped;
    hide SkippedBy, AsksOf, ReadBatch;
    r := ReadNothing(base, b, next);
    var e := r.h.ended[|r.h.ended| - 1];
    assert Starved(e, bnd, now, n + 1);
    hide Starved;
    StarvedStays(ended, e, bnd, now, n);
    r := EndRound(base, r, next);
  }

  lemma StarvedStays(ended: seq<PhaseEnd>, e: PhaseEnd, bnd: Binding, now: int, n: nat)
    requires |bnd.reporting| == 2 && Starved(e, bnd, now, n + 1)
    requires forall j :: 1 <= j <= n ==> StarvedIn(ended, bnd, now, j)
    ensures forall j :: 1 <= j <= n + 1 ==> StarvedIn(ended + [e], bnd, now, j)
  {
    hide Starved;
    forall j | 1 <= j <= n + 1
      ensures StarvedIn(ended + [e], bnd, now, j)
    {
      if j == n + 1 {
        assert e in ended + [e];
      } else {
        assert StarvedIn(ended, bnd, now, j);
        var x :| x in ended && Starved(x, bnd, now, j);
        assert x in ended + [e];
      }
    }
  }

  lemma OneMoreRound(base: M.Dev, b: Machine, bnd: Binding, now: int, n: nat) returns (r: Machine)
    requires now > BUSY_MARK && Paired(bnd)
    requires Resting(base) && Reach(base, b, false) && RoundsDone(b, bnd, now, n)
    ensures Reach(base, r, false) && RoundsDone(r, bnd, now, n + 1)
  {
    hide Reach, StarvedIn, Bound, AtReport, Resting;
    assert AskOf(bnd, 0) != AskOf(bnd, 1);
    r := FirstIsConfirmed(base, b, bnd, now, n);
    r := SecondIsPassed(base, r, bnd, now, n, b.h.ended);
  }

  lemma {:induction false} AfterRounds(bnd: Binding, now: int, n: nat) returns (base: M.Dev, r: Machine)
    requires now > BUSY_MARK && Paired(bnd)
    ensures Resting(base) && Reach(base, r, false) && RoundsDone(r, bnd, now, n)
  {
    hide Resting, Reach, Paired, RoundsDone;
    if n == 0 {
      base, r := BothAreRead(bnd, now);
    } else {
      base, r := AfterRounds(bnd, now, n - 1);
      r := OneMoreRound(base, r, bnd, now, n - 1);
    }
  }

  /** Two reports of one binding with the same attribute: after round 0 the second one may never be checked
      again.  For any number of later rounds, one an hour, there is a run in which each of them reads the
      first report and passes over the second, whose own last check stays in round 0. */
  lemma SecondReportStarves(bnd: Binding, now: int, n: nat)
    requires now > BUSY_MARK && Paired(bnd)
    ensures exists steps :: forall j :: 1 <= j <= n ==> StarvedIn(M.Run(steps).b.h.ended, bnd, now, j)
  {
    hide StarvedIn;
    var base, r := AfterRounds(bnd, now, n);
    var steps :| M.Run(steps) == At(base, r, false);
    assert M.Run(steps).b.h.ended == r.h.ended;
  }
}
