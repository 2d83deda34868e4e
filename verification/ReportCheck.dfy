/** Comparing a ZCL read-reporting-configuration response with the reports a DDF asks for
    (`reportingConfigurationValid` in device.cpp; ZCL 07-5123-06, section 2.5.9).

    The program does not match requests to answers one by one: it counts (answer, report) pairs in
    two nested loops and compares the total with the number of requested records.  This module
    states when that count is a sound and complete test. */
module ReportCheck {
  /** One report of a DDF binding. */
  datatype Report = Report(attributeId: nat, manufacturerCode: nat, direction: nat, dataType: nat,
                           minInterval: nat, maxInterval: nat, reportableChange: nat)

  /** One record of the outgoing read request. */
  datatype Request = Request(attributeId: nat, direction: nat)

  /** One record of the answer; `success` is the status ZclSuccessStatus. */
  datatype Answer = Answer(success: bool, attributeId: nat, minInterval: nat, maxInterval: nat, reportableChange: nat)

  datatype Response = Response(manufacturerCode: nat, answers: seq<Answer>)

  predicate Requested(report: Report, request: seq<Request>)
  {
    exists k :: 0 <= k < |request| && request[k].attributeId == report.attributeId &&
        request[k].direction == report.direction
  }

  /** The answer is a success record that carries the report's own configuration. */
  predicate Agrees(answer: Answer, report: Report)
  {
    && answer.success
    && answer.attributeId == report.attributeId
    && answer.minInterval == report.minInterval
    && answer.maxInterval == report.maxInterval
    && answer.reportableChange == report.reportableChange
  }

  /** The pair is counted by the inner loop. */
  predicate Counted(answer: Answer, manufacturerCode: nat, report: Report, request: seq<Request>)
  {
    Requested(report, request) && report.manufacturerCode == manufacturerCode && Agrees(answer, report)
  }

  function RowCount(answer: Answer, manufacturerCode: nat, reports: seq<Report>, request: seq<Request>, j: nat): nat
    requires j <= |reports|
  {
    if j == 0 then 0
    else RowCount(answer, manufacturerCode, reports, request, j - 1)
         + if Counted(answer, manufacturerCode, reports[j - 1], request) then 1 else 0
  }

  function PairCount(rsp: Response, reports: seq<Report>, request: seq<Request>, i: nat): nat
    requires i <= |rsp.answers|
  {
    if i == 0 then 0
    else PairCount(rsp, reports, request, i - 1)
         + RowCount(rsp.answers[i - 1], rsp.manufacturerCode, reports, request, |reports|)
  }

  predicate ConfigurationValid(rsp: Response, reports: seq<Report>, request: seq<Request>)
  {
    PairCount(rsp, reports, request, |rsp.answers|) == |request|
  }

  /** The two nested loops with their break and continue statements. */
  method CheckConfiguration(rsp: Response, reports: seq<Report>, request: seq<Request>) returns (valid: bool)
    ensures valid == ConfigurationValid(rsp, reports, request)
  {
    var okCount := 0;
    for i := 0 to |rsp.answers|
      invariant okCount == PairCount(rsp, reports, request, i)
    {
      var answer := rsp.answers[i];
      for j := 0 to |reports|
        invariant okCount == PairCount(rsp, reports, request, i) + RowCount(answer, rsp.manufacturerCode, reports,
            request, j)
      {
        var report := reports[j];
        var found := false;
        for k := 0 to |request|
          invariant !found
          invariant forall m :: 0 <= m < k ==>
              !(request[m].attributeId == report.attributeId && request[m].direction == report.direction)
        {
          if request[k].attributeId == report.attributeId && request[k].direction == report.direction {
            found := true;
            break;
          }
        }
        if !found || !answer.success { continue; }
        if report.manufacturerCode != rsp.manufacturerCode { continue; }
        if report.attributeId != answer.attributeId { continue; }
        if report.minInterval != answer.minInterval { continue; }
        if report.maxInterval != answer.maxInterval { continue; }
        if report.reportableChange != answer.reportableChange { continue; }
        okCount := okCount + 1;
      }
    }
    valid := okCount == |request|;
  }

  // ----- When the count is right -----

  /** The request was built from the reports at the indices `picked`, all of one manufacturer code. */
  ghost predicate BuiltFrom(request: seq<Request>, reports: seq<Report>, picked: seq<nat>, manufacturerCode: nat)
  {
    && |picked| == |request|
    && (forall k :: 0 <= k < |picked| ==>
        picked[k] < |reports| && reports[picked[k]].manufacturerCode == manufacturerCode)
    && (forall k, m :: 0 <= k < m < |picked| ==> picked[k] != picked[m])
    && (forall k :: 0 <= k < |picked| ==>
        request[k] == Request(reports[picked[k]].attributeId, reports[picked[k]].direction))
  }

  ghost predicate DistinctReports(reports: seq<Report>)
  {
    forall a, b :: 0 <= a < b < |reports| ==>
      reports[a].attributeId != reports[b].attributeId || reports[a].manufacturerCode != reports[b].manufacturerCode
  }

  ghost predicate DistinctAnswers(answers: seq<Answer>)
  {
    forall a, b :: 0 <= a < b < |answers| ==> answers[a].attributeId != answers[b].attributeId
  }

  ghost predicate AnsweredBy(answers: seq<Answer>, i: nat, report: Report)
    requires i <= |answers|
  {
    exists a :: 0 <= a < i && Agrees(answers[a], report)
  }

  /** Positions of the request that one of the first `i` answers confirms. */
  ghost function Confirmed(answers: seq<Answer>, i: nat, reports: seq<Report>, picked: seq<nat>): (s: set<nat>)
    requires i <= |answers|
    requires forall k :: 0 <= k < |picked| ==> picked[k] < |reports|
  {
    set k: nat | k < |picked| && AnsweredBy(answers, i, reports[picked[k]])
  }

  /** One answer is counted at most once, and exactly when it confirms a requested report. */
  lemma {:induction false} RowCountIsIndicator(answer: Answer, mf: nat, reports: seq<Report>, request: seq<Request>,
      picked: seq<nat>, j: nat)
    requires j <= |reports| && DistinctReports(reports) && BuiltFrom(request, reports, picked, mf)
    ensures RowCount(answer, mf, reports, request, j) ==
            if exists k :: 0 <= k < |picked| && picked[k] < j && Agrees(answer, reports[picked[k]]) then 1 else 0
  {
    if j > 0 {
      RowCountIsIndicator(answer, mf, reports, request, picked, j - 1);
      var last := reports[j - 1];
      if Counted(answer, mf, last, request) {
        var k :| 0 <= k < |request| && request[k].attributeId == last.attributeId &&
            request[k].direction == last.direction;
        assert picked[k] == j - 1;
      }
    }
  }

  ghost predicate Hits(answer: Answer, reports: seq<Report>, picked: seq<nat>)
    requires forall k :: 0 <= k < |picked| ==> picked[k] < |reports|
  {
    exists k :: 0 <= k < |picked| && Agrees(answer, reports[picked[k]])
  }

  /** How many of the first `i` answers agree with a requested report. */
  ghost function HitCount(answers: seq<Answer>, i: nat, reports: seq<Report>, picked: seq<nat>): nat
    requires i <= |answers|
    requires forall k :: 0 <= k < |picked| ==> picked[k] < |reports|
  {
    if i == 0 then 0
    else HitCount(answers, i - 1, reports, picked) + if Hits(answers[i - 1], reports, picked) then 1 else 0
  }

  /** Answer `a` confirms a requested report that an earlier answer has confirmed already. */
  ghost predicate Repeats(answers: seq<Answer>, a: nat, reports: seq<Report>, picked: seq<nat>)
    requires a < |answers|
    requires forall k :: 0 <= k < |picked| ==> picked[k] < |reports|
  {
    exists k :: 0 <= k < |picked| && Agrees(answers[a], reports[picked[k]])
      && AnsweredBy(answers, a, reports[picked[k]])
  }

  /** The i-th answer confirms one more position, unless it agrees with none or repeats an earlier answer. */
  lemma ConfirmedStep(rsp: Response, reports: seq<Report>, request: seq<Request>, picked: seq<nat>, i: nat)
    requires 0 < i <= |rsp.answers|
    requires DistinctReports(reports) && BuiltFrom(request, reports, picked, rsp.manufacturerCode)
    ensures |Confirmed(rsp.answers, i, reports, picked)| == |Confirmed(rsp.answers, i - 1, reports, picked)|
      + if Hits(rsp.answers[i - 1], reports, picked) && !Repeats(rsp.answers, i - 1, reports, picked) then 1 else 0
  {
    var answers := rsp.answers;
    var before, after := Confirmed(answers, i - 1, reports, picked), Confirmed(answers, i, reports, picked);
    ConfirmedMembers(answers, i, reports, picked);
    if k: nat :| k < |picked| && Agrees(answers[i - 1], reports[picked[k]]) {
      OnlyHit(rsp, reports, request, picked, i - 1, k);
      hide Agrees;
      assert after == before + {k};
      OneMore(before, k);
    } else {
      assert after == before;
    }
  }

  lemma ConfirmedMembers(answers: seq<Answer>, i: nat, reports: seq<Report>, picked: seq<nat>)
    requires 0 < i <= |answers|
    requires forall k :: 0 <= k < |picked| ==> picked[k] < |reports|
    ensures forall k: nat :: k in Confirmed(answers, i, reports, picked) <==>
      k < |picked| && (k in Confirmed(answers, i - 1, reports, picked) || Agrees(answers[i - 1], reports[picked[k]]))
    ensures Repeats(answers, i - 1, reports, picked) <==>
      exists k :: k in Confirmed(answers, i - 1, reports, picked) && Agrees(answers[i - 1], reports[picked[k]])
  {
    hide Agrees;
    forall k: nat | k < |picked|
      ensures AnsweredBy(answers, i, reports[picked[k]]) <==>
        AnsweredBy(answers, i - 1, reports[picked[k]]) || Agrees(answers[i - 1], reports[picked[k]])
    {
      if a :| 0 <= a < i && Agrees(answers[a], reports[picked[k]]) {
        assert a < i - 1 || a == i - 1;
      }
    }
  }

  lemma OneMore(s: set<nat>, k: nat)
    ensures |s + {k}| == |s| + if k in s then 0 else 1
  {
    if k in s {
      assert s + {k} == s;
    }
  }

  /** An answer agrees with at most one position of the request. */
  lemma OnlyHit(rsp: Response, reports: seq<Report>, request: seq<Request>, picked: seq<nat>, a: nat, k: nat)
    requires a < |rsp.answers| && k < |picked|
    requires DistinctReports(reports) && BuiltFrom(request, reports, picked, rsp.manufacturerCode)
    requires Agrees(rsp.answers[a], reports[picked[k]])
    ensures forall m :: 0 <= m < |picked| && Agrees(rsp.answers[a], reports[picked[m]]) ==> m == k
  {
  }

  /** The loops count the answers that agree with a requested report. */
  lemma {:induction false} PairCountIsHits(rsp: Response, reports: seq<Report>, request: seq<Request>,
      picked: seq<nat>, i: nat)
    requires i <= |rsp.answers|
    requires DistinctReports(reports) && BuiltFrom(request, reports, picked, rsp.manufacturerCode)
    ensures PairCount(rsp, reports, request, i) == HitCount(rsp.answers, i, reports, picked)
  {
    if i > 0 {
      PairCountIsHits(rsp, reports, request, picked, i - 1);
      RowCountIsIndicator(rsp.answers[i - 1], rsp.manufacturerCode, reports, request, picked, |reports|);
    }
  }

  /** How many of the first `i` answers repeat an earlier one. */
  ghost function RepeatCount(answers: seq<Answer>, i: nat, reports: seq<Report>, picked: seq<nat>): nat
    requires i <= |answers|
    requires forall k :: 0 <= k < |picked| ==> picked[k] < |reports|
  {
    if i == 0 then 0
    else RepeatCount(answers, i - 1, reports, picked) + if Repeats(answers, i - 1, reports, picked) then 1 else 0
  }

  /** An answer that agrees with a requested report confirms it or repeats an earlier answer. */
  lemma {:induction false} HitsAndConfirmed(rsp: Response, reports: seq<Report>, request: seq<Request>,
      picked: seq<nat>, i: nat)
    requires i <= |rsp.answers|
    requires DistinctReports(reports) && BuiltFrom(request, reports, picked, rsp.manufacturerCode)
    ensures HitCount(rsp.answers, i, reports, picked)
      == |Confirmed(rsp.answers, i, reports, picked)| + RepeatCount(rsp.answers, i, reports, picked)
  {
    if i > 0 {
      HitsAndConfirmed(rsp, reports, request, picked, i - 1);
      ConfirmedStep(rsp, reports, request, picked, i);
      assert Repeats(rsp.answers, i - 1, reports, picked) ==> Hits(rsp.answers[i - 1], reports, picked);
    }
  }

  lemma {:induction false} DistinctAnswersDoNotRepeat(answers: seq<Answer>, i: nat, reports: seq<Report>,
      picked: seq<nat>)
    requires DistinctAnswers(answers) && i <= |answers|
    requires forall k :: 0 <= k < |picked| ==> picked[k] < |reports|
    ensures RepeatCount(answers, i, reports, picked) == 0
  {
    if i > 0 {
      DistinctAnswersDoNotRepeat(answers, i - 1, reports, picked);
      assert !Repeats(answers, i - 1, reports, picked);
    }
  }

  lemma PairCountIsConfirmed(rsp: Response, reports: seq<Report>, request: seq<Request>, picked: seq<nat>, i: nat)
    requires i <= |rsp.answers|
    requires DistinctReports(reports) && DistinctAnswers(rsp.answers)
    requires BuiltFrom(request, reports, picked, rsp.manufacturerCode)
    ensures PairCount(rsp, reports, request, i) == |Confirmed(rsp.answers, i, reports, picked)|
  {
    PairCountIsHits(rsp, reports, request, picked, i);
    HitsAndConfirmed(rsp, reports, request, picked, i);
    DistinctAnswersDoNotRepeat(rsp.answers, i, reports, picked);
  }

  /** The numbers below n. */
  ghost function Below(n: nat): (s: set<nat>)
    ensures forall k: nat :: k in s <==> k < n
    ensures |s| == n
  {
    if n == 0 then {} else Below(n - 1) + {n - 1}
  }

  lemma SubsetSize<T>(a: set<T>, b: set<T>)
    requires a <= b
    ensures |a| <= |b|
    ensures |a| == |b| <==> a == b
  {
    assert b == a + (b - a);
  }

  /** Every requested report has a success answer equal to it. */
  ghost predicate AllAnswered(answers: seq<Answer>, reports: seq<Report>, picked: seq<nat>)
    requires forall k :: 0 <= k < |picked| ==> picked[k] < |reports|
  {
    forall k :: 0 <= k < |picked| ==> AnsweredBy(answers, |answers|, reports[picked[k]])
  }

  lemma AllAnsweredCounts(answers: seq<Answer>, reports: seq<Report>, picked: seq<nat>)
    requires forall k :: 0 <= k < |picked| ==> picked[k] < |reports|
    ensures |Confirmed(answers, |answers|, reports, picked)| <= |picked|
    ensures AllAnswered(answers, reports, picked) <==> |Confirmed(answers, |answers|, reports, picked)| == |picked|
  {
    var confirmed := Confirmed(answers, |answers|, reports, picked);
    SubsetSize(confirmed, Below(|picked|));
    assert forall k: nat :: k < |picked| ==> (k in confirmed <==> AnsweredBy(answers, |answers|, reports[picked[k]]));
  }

  /** The positions of the request that no answer confirms. */
  ghost function Missing(answers: seq<Answer>, reports: seq<Report>, picked: seq<nat>): set<nat>
    requires forall k :: 0 <= k < |picked| ==> picked[k] < |reports|
  {
    set k: nat | k < |picked| && !AnsweredBy(answers, |answers|, reports[picked[k]])
  }

  lemma ConfirmedOrMissing(answers: seq<Answer>, reports: seq<Report>, picked: seq<nat>)
    requires forall k :: 0 <= k < |picked| ==> picked[k] < |reports|
    ensures |Confirmed(answers, |answers|, reports, picked)| + |Missing(answers, reports, picked)| == |picked|
  {
    var confirmed, missing := Confirmed(answers, |answers|, reports, picked), Missing(answers, reports, picked);
    hide AnsweredBy;
    assert confirmed + missing == Below(|picked|) && confirmed !! missing;
  }

  /** What the count test amounts to: there are as many repeated answers as reports without an answer. */
  lemma ValidIffRepeatsFillGaps(rsp: Response, reports: seq<Report>, request: seq<Request>, picked: seq<nat>)
    requires DistinctReports(reports) && BuiltFrom(request, reports, picked, rsp.manufacturerCode)
    ensures ConfigurationValid(rsp, reports, request) <==>
      RepeatCount(rsp.answers, |rsp.answers|, reports, picked) == |Missing(rsp.answers, reports, picked)|
  {
    PairCountIsHits(rsp, reports, request, picked, |rsp.answers|);
    HitsAndConfirmed(rsp, reports, request, picked, |rsp.answers|);
    ConfirmedOrMissing(rsp.answers, reports, picked);
  }

  /** Main result, the exact condition under which the count test is right for a response of the requested
      manufacturer code: no answer repeats another, or some reports have no answer and the answers that
      repeat others are not just as many. */
  lemma CountingIsRightIff(rsp: Response, reports: seq<Report>, request: seq<Request>, picked: seq<nat>)
    requires DistinctReports(reports) && BuiltFrom(request, reports, picked, rsp.manufacturerCode)
    ensures var repeats := RepeatCount(rsp.answers, |rsp.answers|, reports, picked);
      var missing := |Missing(rsp.answers, reports, picked)|;
      (ConfigurationValid(rsp, reports, request) <==> AllAnswered(rsp.answers, reports, picked)) <==>
        repeats == 0 || (missing != 0 && missing != repeats)
  {
    ValidIffRepeatsFillGaps(rsp, reports, request, picked);
    AllAnsweredCounts(rsp.answers, reports, picked);
    ConfirmedOrMissing(rsp.answers, reports, picked);
  }

  /** So with distinct answers the test holds exactly when every requested report has a success answer
      equal to it. */
  lemma CountingIsSound(rsp: Response, reports: seq<Report>, request: seq<Request>, picked: seq<nat>)
    requires DistinctReports(reports) && DistinctAnswers(rsp.answers)
    requires BuiltFrom(request, reports, picked, rsp.manufacturerCode)
    ensures ConfigurationValid(rsp, reports, request) <==> AllAnswered(rsp.answers, reports, picked)
  {
    PairCountIsConfirmed(rsp, reports, request, picked, |rsp.answers|);
    AllAnsweredCounts(rsp.answers, reports, picked);
  }

  /** When one record shows that one report is configured: it is a success record with the attribute, the
      intervals and the reportable change of the report, in a response of its manufacturer code. */
  lemma OneRecordLaw(report: Report, answer: Answer, manufacturerCode: nat)
    ensures ConfigurationValid(Response(manufacturerCode, [answer]), [report],
                               [Request(report.attributeId, report.direction)]) <==>
      && manufacturerCode == report.manufacturerCode
      && answer == Answer(true, report.attributeId, report.minInterval, report.maxInterval, report.reportableChange)
  {
    var rsp, request := Response(manufacturerCode, [answer]), [Request(report.attributeId, report.direction)];
    assert request[0] == Request(report.attributeId, report.direction);
    assert RowCount(answer, manufacturerCode, [report], request, 0) == 0;
    assert PairCount(rsp, [report], request, 1) == RowCount(answer, manufacturerCode, [report], request, 1);
  }

  /** A report that was not asked for, in its attribute or its direction, does not count. */
  lemma UnaskedLaw(report: Report, answer: Answer, manufacturerCode: nat, request: Request)
    requires request != Request(report.attributeId, report.direction)
    ensures !ConfigurationValid(Response(manufacturerCode, [answer]), [report], [request])
  {
    assert RowCount(answer, manufacturerCode, [report], [request], 0) == 0;
    assert PairCount(Response(manufacturerCode, [answer]), [report], [request], 1)
        == RowCount(answer, manufacturerCode, [report], [request], 1);
  }

  /** Distinct answers are needed: a device that repeats one record hides a missing one. */
  lemma RepeatedAnswerIsAccepted(a: Report, b: Report)
    requires a.attributeId != b.attributeId && a.manufacturerCode == b.manufacturerCode
    ensures var ok := Answer(true, a.attributeId, a.minInterval, a.maxInterval, a.reportableChange);
            var rsp := Response(a.manufacturerCode, [ok, ok]);
            var request := [Request(a.attributeId, a.direction), Request(b.attributeId, b.direction)];
            && BuiltFrom(request, [a, b], [0, 1], a.manufacturerCode)
            && ConfigurationValid(rsp, [a, b], request)
            && !AnsweredBy(rsp.answers, 2, b)
  {
    var ok := Answer(true, a.attributeId, a.minInterval, a.maxInterval, a.reportableChange);
    var rsp := Response(a.manufacturerCode, [ok, ok]);
    var request := [Request(a.attributeId, a.direction), Request(b.attributeId, b.direction)];
    var reports := [a, b];
    assert request[0] == Request(a.attributeId, a.direction);
    assert RowCount(ok, a.manufacturerCode, reports, request, 0) == 0;
    assert RowCount(ok, a.manufacturerCode, reports, request, 1) == 1;
    assert RowCount(ok, a.manufacturerCode, reports, request, 2) == 1;
    assert PairCount(rsp, reports, request, 0) == 0;
    assert PairCount(rsp, reports, request, 1) == 1;
    assert PairCount(rsp, reports, request, 2) == 2;
  }

  /** And a device that answers everything but repeats one record is not believed. */
  lemma RepeatedAnswerIsRejected(a: Report)
    ensures var ok := Answer(true, a.attributeId, a.minInterval, a.maxInterval, a.reportableChange);
            var rsp := Response(a.manufacturerCode, [ok, ok]);
            var request := [Request(a.attributeId, a.direction)];
            && BuiltFrom(request, [a], [0], a.manufacturerCode)
            && AllAnswered(rsp.answers, [a], [0])
            && !ConfigurationValid(rsp, [a], request)
  {
    var ok := Answer(true, a.attributeId, a.minInterval, a.maxInterval, a.reportableChange);
    var rsp := Response(a.manufacturerCode, [ok, ok]);
    var request := [Request(a.attributeId, a.direction)];
    assert request[0] == Request(a.attributeId, a.direction);
    assert Agrees(rsp.answers[0], a);
    assert RowCount(ok, a.manufacturerCode, [a], request, 0) == 0;
    assert RowCount(ok, a.manufacturerCode, [a], request, 1) == 1;
    assert PairCount(rsp, [a], request, 1) == 1;
    assert PairCount(rsp, [a], request, 2) == 2;
  }
}
