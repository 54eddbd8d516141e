/** The current report plugin: a per-step log buffer, a per-scenario step
    cache fed by the BDD step hooks, and the session accumulator that groups
    finished cases under features, with steps and user-facing markers. */
module Conftest {
  import opened Pytest
  import opened Rollup
  import opened Classify
  import opened CaseLog
  import opened Screenshot
  import opened Steps
  import opened Session

  /** Marker names that configure execution rather than categorise a case. */
  const IgnoredMarkers: set<string> :=
    {"parametrize", "usefixtures", "filterwarnings", "skip", "skipif", "xfail", "pytest_bdd_scenario"}

  /** The markers of a case: `markers` without the ignored ones, in order. */
  function Retained(markers: seq<string>): (r: seq<string>)
    ensures |r| <= |markers|
    ensures forall i :: 0 <= i < |r| ==> r[i] in markers && r[i] !in IgnoredMarkers
  {
    if markers == [] then []
    else
      var last := markers[|markers| - 1];
      Retained(markers[..|markers| - 1]) + (if last !in IgnoredMarkers then [last] else [])
  }

  lemma {:induction false} RetainedMembers(markers: seq<string>, m: string)
    ensures m in Retained(markers) <==> m in markers && m !in IgnoredMarkers
  {
    if markers != [] {
      var init := markers[..|markers| - 1];
      RetainedMembers(init, m);
      assert markers == init + [markers[|markers| - 1]];
    }
  }

  /** Filtering distributes over concatenation, so it keeps iteration order. */
  lemma {:induction false} RetainedConcat(a: seq<string>, b: seq<string>)
    ensures Retained(a + b) == Retained(a) + Retained(b)
  {
    if b != [] {
      var init := b[..|b| - 1];
      assert (a + b)[..|a + b| - 1] == a + init;
      RetainedConcat(a, init);
    } else {
      assert a + b == a;
    }
  }

  function MarkerSet(markers: seq<string>): set<string>
  {
    set m | m in markers
  }

  /** The session accumulator (`TestSessionReport`).  `order` with `features`
      is the insertion-ordered feature dict. */
  class TestSessionReport {
    var features: map<string, FeatureGroup>
    var order: seq<string>
    var allMarkers: set<string>
    /** `total`, `passed`, `failed`, `error`, `skipped`: the cases. */
    var counts: Stats
    /** `feature_total`, `feature_passed`, ...: the features, set at finish. */
    var featureCounts: Stats

    function State(): Groups
      reads this`order, this`features
    {
      Groups(order, features)
    }

    ghost predicate Valid()
      reads this`order, this`features, this`counts
    {
      ValidState(State(), counts)
    }

    constructor ()
      ensures Valid()
      ensures State() == Groups([], map[]) && allMarkers == {}
      ensures counts == Zero && featureCounts == Zero
    {
      features := map[];
      order := [];
      allMarkers := {};
      counts, featureCounts := Zero, Zero;
      EmptyValid();
    }

    /** `add_result`: file one finished case under its feature, count it, and
        collect its retained markers. */
    method AddResult(report: Report, item: Item, cache: StepExecutionCache)
      requires Valid()
      modifies this
      ensures Valid()
      ensures State() == FileCase(old(State()), FeatureName(item),
                                  CaseOf(report, item, Some(BddDetails(cache.StepsOf(item.nodeid), Retained(item.markers)))))
      ensures counts == Bump(old(counts), CaseStatus(report.outcome, report.when))
      ensures allMarkers == old(allMarkers) + MarkerSet(Retained(item.markers))
      ensures featureCounts == old(featureCounts)
    {
      ghost var g0, s0 := State(), counts;
      var featureName := FeatureName(item);
      if featureName !in features {
        features := features[featureName := NewGroup(featureName)];
        order := order + [featureName];
      }
      ghost var g1 := State();
      var scenarioResult := ScenarioResult(report, item, cache);
      var group := features[featureName];
      features := features[featureName := group.(scenarios := group.scenarios + [scenarioResult],
                                                 stats := Bump(group.stats, scenarioResult.status))];
      assert State() == AppendCase(g1, featureName, scenarioResult);
      counts := Bump(counts, scenarioResult.status);
      FiledValid(g0, s0, featureName, scenarioResult, State(), counts);
    }

    /** The `scenario_result` record: the case log, the status, the
        screenshot, the scenario's steps and the retained markers, which the
        marker loop also adds to the session's marker set. */
    method ScenarioResult(report: Report, item: Item, cache: StepExecutionCache)
      returns (scenarioResult: CaseResult)
      modifies this`allMarkers
      ensures scenarioResult == CaseOf(report, item, Some(BddDetails(cache.StepsOf(item.nodeid), Retained(item.markers))))
      ensures allMarkers == old(allMarkers) + MarkerSet(Retained(item.markers))
    {
      var fullLog := BuildLog(report);
      var status := CaseStatus(report.outcome, report.when);
      var screenshot := report.screenshot;
      var steps := cache.StepsOf(item.nodeid);
      var itemMarkers := CollectMarkers(item.markers);
      scenarioResult := CaseResult(item.name, status, report.duration, fullLog,
                                   item.nodeid, screenshot, Some(BddDetails(steps, itemMarkers)));
    }

    /** The marker loop: the case's markers without the ignored ones, each
        also added to the session's marker set. */
    method CollectMarkers(markers: seq<string>) returns (itemMarkers: seq<string>)
      modifies this`allMarkers
      ensures itemMarkers == Retained(markers)
      ensures allMarkers == old(allMarkers) + MarkerSet(itemMarkers)
    {
      itemMarkers := [];
      var i := 0;
      while i < |markers|
        invariant 0 <= i <= |markers|
        invariant itemMarkers == Retained(markers[..i])
        invariant allMarkers == old(allMarkers) + MarkerSet(itemMarkers)
      {
        assert markers[..i + 1][..i] == markers[..i];
        var m := markers[i];
        if m !in IgnoredMarkers {
          itemMarkers := itemMarkers + [m];
          allMarkers := allMarkers + {m};
        }
        i := i + 1;
      }
      assert markers[..i] == markers;
    }

    /** `pytest_sessionfinish`, without the timing: every feature gets its
        status by the priority rule and bumps exactly one feature counter. */
    method Finish()
      requires Valid()
      modifies this`features, this`featureCounts
      ensures Valid()
      ensures State() == FinaliseAll(old(State()))
      ensures featureCounts == AddStatuses(old(featureCounts).(total := |features|),
                                           Counts(RolledUp(order, old(features))))
      ensures old(featureCounts) == Zero ==> Balanced(featureCounts) && featureCounts.total == |features|
    {
      ghost var g0 := State();
      features, featureCounts := RollUpFeatures(order, features, featureCounts);
      FinaliseValid(g0, counts);
    }
  }

  /** `pytest_runtest_makereport`: gate the report, attach the screenshot
      attempt's result, and aggregate it. */
  method MakeReport(item: Item, report: Report, session: TestSessionReport, cache: StepExecutionCache,
                    encode: seq<byte> -> string)
    requires session.Valid()
    modifies session
    ensures session.Valid()
    ensures !ShouldIngest(report.when, report.outcome) ==> unchanged(session)
    ensures ShouldIngest(report.when, report.outcome) ==>
              var shot := if ShouldCapture(report.when, report.outcome)
                          then Capture(ResolveHandle(item), encode) else None;
              var c := CaseOf(report.(screenshot := shot), item,
                              Some(BddDetails(cache.StepsOf(item.nodeid), Retained(item.markers))));
              && session.State() == FileCase(old(session.State()), FeatureName(item), c)
              && session.counts == Bump(old(session.counts), CaseStatus(report.outcome, report.when))
              && session.allMarkers == old(session.allMarkers) + MarkerSet(Retained(item.markers))
    ensures session.featureCounts == old(session.featureCounts)
  {
    if ShouldIngest(report.when, report.outcome) {
      var shot: Option<string>;
      if ShouldCapture(report.when, report.outcome) {
        shot := CaptureScreenshot(item, encode);
      } else {
        shot := None;
      }
      session.AddResult(report.(screenshot := shot), item, cache);
    }
  }
}
