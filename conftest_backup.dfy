/** The earlier report plugin: the same session accumulator without steps and
    markers, its screenshot capturer, its report hook and its session-finish
    roll-up. */
module ConftestBackup {
  import opened Pytest
  import opened Rollup
  import opened Classify
  import opened CaseLog
  import opened Screenshot
  import opened Session

  /** The session accumulator (`TestSessionReport`) of the earlier version.
      `order` with `features` is the insertion-ordered feature dict. */
  class TestSessionReport {
    var features: map<string, FeatureGroup>
    var order: seq<string>
    /** `total`, `passed`, `failed`, `error`, `skipped`: the cases. */
    var counts: Stats
    /** `feature_total`, `feature_passed`, ...: the features, set at finish. */
    var featureCounts: Stats

    function State(): Groups
      reads this`order, this`features
    {
      Groups(order, features)
    }

    ghost predicate Valid()
      reads this`order, this`features, this`counts
    {
      ValidState(State(), counts)
    }

    constructor ()
      ensures Valid()
      ensures State() == Groups([], map[])
      ensures counts == Zero && featureCounts == Zero
    {
      features := map[];
      order := [];
      counts, featureCounts := Zero, Zero;
      EmptyValid();
    }

    /** `add_result`: build the case (log, status, screenshot), file it under
        its feature and count it. */
    method AddResult(report: Report, item: Item)
      requires Valid()
      modifies this`features, this`order, this`counts
      ensures Valid()
      ensures State() == FileCase(old(State()), FeatureName(item), CaseOf(report, item, None))
      ensures counts == Bump(old(counts), CaseStatus(report.outcome, report.when))
    {
      ghost var g0, s0 := State(), counts;
      var featureName := FeatureName(item);
      if featureName !in features {
        features := features[featureName := NewGroup(featureName)];
        order := order + [featureName];
      }
      ghost var g1 := State();
      var fullLog := BuildLog(report);
      var status := CaseStatus(report.outcome, report.when);
      var scenarioResult := CaseResult(item.name, status, report.duration, fullLog,
                                       item.nodeid, report.screenshot, None);
      var group := features[featureName];
      features := features[featureName := group.(scenarios := group.scenarios + [scenarioResult],
                                                 stats := Bump(group.stats, status))];
      assert State() == AppendCase(g1, featureName, scenarioResult);
      counts := Bump(counts, status);
      FiledValid(g0, s0, featureName, scenarioResult, State(), counts);
    }

    /** `pytest_sessionfinish`, without the timing: every feature gets its
        status by the priority rule and bumps exactly one feature counter. */
    method Finish()
      requires Valid()
      modifies this`features, this`featureCounts
      ensures Valid()
      ensures State() == FinaliseAll(old(State()))
      ensures featureCounts == AddStatuses(old(featureCounts).(total := |features|),
                                           Counts(RolledUp(order, old(features))))
      ensures old(featureCounts) == Zero ==> Balanced(featureCounts) && featureCounts.total == |features|
    {
      ghost var g0 := State();
      features, featureCounts := RollUpFeatures(order, features, featureCounts);
      FinaliseValid(g0, counts);
    }
  }

  /** `pytest_runtest_makereport`: gate the report, attach the screenshot
      attempt's result, and aggregate it. */
  method MakeReport(item: Item, report: Report, session: TestSessionReport, encode: seq<byte> -> string)
    requires session.Valid()
    modifies session`features, session`order, session`counts
    ensures session.Valid()
    ensures !ShouldIngest(report.when, report.outcome) ==> unchanged(session)
    ensures ShouldIngest(report.when, report.outcome) ==>
              var shot := if ShouldCapture(report.when, report.outcome)
                          then Capture(ResolveHandle(item), encode) else None;
              && session.State() == FileCase(old(session.State()), FeatureName(item),
                                             CaseOf(report.(screenshot := shot), item, None))
              && session.counts == Bump(old(session.counts), CaseStatus(report.outcome, report.when))
  {
    if ShouldIngest(report.when, report.outcome) {
      var shot: Option<string>;
      if ShouldCapture(report.when, report.outcome) {
        shot := CaptureScreenshot(item, encode);
      } else {
        shot := None;
      }
      session.AddResult(report.(screenshot := shot), item);
    }
  }
}
