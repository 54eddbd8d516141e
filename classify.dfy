/** The pure decisions the aggregator makes about one report: the case status,
    the feature a case belongs to, and which reports are ingested and which
    get a screenshot attempt. */
module Classify {
  import opened Pytest
  import opened Rollup

  /** The status a report's outcome stands for, unchanged. */
  function OutcomeStatus(o: Outcome): Status
  {
    match o
    case OutcomePassed => Passed
    case OutcomeFailed => Failed
    case OutcomeSkipped => Skipped
  }

  /** `status = report.outcome`, promoted to `"error"` for a failure outside
      the call phase. */
  function CaseStatus(outcome: Outcome, when: Phase): (r: Status)
    ensures r == Error <==> outcome == OutcomeFailed && when != Call
    ensures r != Error ==> r == OutcomeStatus(outcome)
    ensures outcome != OutcomeFailed ==> r == OutcomeStatus(outcome)
  {
    var status := OutcomeStatus(outcome);
    if status == Failed && when != Call then Error else status
  }

  /** A `"::"` starts at index `i` of `s`. */
  predicate SeparatorAt(s: string, i: int)
  {
    0 <= i && i + 1 < |s| && s[i] == ':' && s[i + 1] == ':'
  }

  /** `s.split("::")[0]`: the text before the first `"::"`, or all of `s` when
      it holds none. */
  function BeforeSeparator(s: string): (r: string)
    ensures |r| <= |s| && r == s[..|r|]
    ensures forall i :: 0 <= i < |r| ==> !SeparatorAt(s, i)
    ensures |r| < |s| ==> SeparatorAt(s, |r|)
  {
    if |s| < 2 then s
    else if s[0] == ':' && s[1] == ':' then ""
    else
      var rest := BeforeSeparator(s[1..]);
      assert forall i :: 1 <= i < |s| ==> (SeparatorAt(s, i) <==> SeparatorAt(s[1..], i - 1));
      [s[0]] + rest
  }

  /** The conditions above pin down the text before the first separator. */
  lemma BeforeSeparatorUnique(s: string, r: string)
    requires |r| <= |s| && r == s[..|r|]
    requires forall i :: 0 <= i < |r| ==> !SeparatorAt(s, i)
    requires |r| < |s| ==> SeparatorAt(s, |r|)
    ensures r == BeforeSeparator(s)
  {
  }

  /** The feature a case is grouped under: the feature of its BDD scenario
      when it has one, otherwise the file part of its node id. */
  function FeatureName(item: Item): (f: string)
    ensures item.scenarioFeature.Some? ==> f == item.scenarioFeature.value
    ensures item.scenarioFeature.None? ==> f == BeforeSeparator(item.nodeid)
  {
    match item.scenarioFeature
    case Some(name) => name
    case None => BeforeSeparator(item.nodeid)
  }

  /** The report hook aggregates every call-phase report, and a setup or
      teardown report only when it did not pass. */
  function ShouldIngest(when: Phase, outcome: Outcome): (r: bool)
    ensures r <==> when == Call || outcome != OutcomePassed
  {
    when == Call || ((when == Setup || when == Teardown) && outcome != OutcomePassed)
  }

  /** A screenshot is attempted only for a failed or skipped call phase. */
  function ShouldCapture(when: Phase, outcome: Outcome): (r: bool)
    ensures r <==> when == Call && outcome != OutcomePassed
  {
    (outcome == OutcomeFailed || outcome == OutcomeSkipped) && when == Call
  }

  /** Every report with a screenshot attempt is ingested, and a setup or
      teardown report is never given a screenshot, whatever its outcome. */
  lemma CaptureOnlyIngestedCalls(when: Phase, outcome: Outcome)
    ensures ShouldCapture(when, outcome) ==> ShouldIngest(when, outcome)
    ensures when != Call ==> !ShouldCapture(when, outcome)
    ensures ShouldIngest(when, outcome) && !ShouldCapture(when, outcome) ==>
              when != Call || outcome == OutcomePassed
  {
  }
}
