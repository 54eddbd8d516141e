/** The state both report versions accumulate: finished cases grouped under
    features kept in first-seen order, with counters per feature and for the
    whole session.  The two transitions of that state, filing one case and
    finalising every feature's status, are defined here on values; the report
    classes perform them in place. */
module Session {
  import opened Pytest
  import opened Rollup
  import opened Classify
  import opened CaseLog
  import opened Steps

  /** The fields only the current report version's cases carry: the
      scenario's steps and the case's retained markers. */
  datatype BddDetails = BddDetails(steps: seq<StepEntry>, markers: seq<string>)

  /** One finished case: `{"name", "status", "duration", "log", "nodeid",
      "screenshot"}`, and `"steps"` and `"markers"` in the current version
      (`bdd` is `None` in the earlier one). */
  datatype CaseResult = CaseResult(
    name: string,
    status: Status,
    duration: Duration,
    log: string,
    nodeid: string,
    screenshot: Option<string>,
    bdd: Option<BddDetails>)

  /** The case `add_result` builds for `report` on `item`. */
  function CaseOf(report: Report, item: Item, bdd: Option<BddDetails>): (r: CaseResult)
    ensures r.name == item.name && r.nodeid == item.nodeid && r.duration == report.duration
    ensures r.status == Error <==> report.outcome == OutcomeFailed && report.when != Call
    ensures r.status == CaseStatus(report.outcome, report.when)
    ensures r.log == LogText(report) && r.screenshot == report.screenshot && r.bdd == bdd
  {
    CaseResult(item.name, CaseStatus(report.outcome, report.when), report.duration,
               LogText(report), item.nodeid, report.screenshot, bdd)
  }

  /** A feature group: `{"name", "scenarios", "stats", "status"}`. */
  datatype FeatureGroup = FeatureGroup(name: string, scenarios: seq<CaseResult>, stats: Stats, status: Status)

  /** The feature dict: its groups by name, and its keys in insertion order. */
  datatype Groups = Groups(order: seq<string>, features: map<string, FeatureGroup>)

  /** The group a feature starts as when its first case arrives. */
  function NewGroup(name: string): FeatureGroup
  {
    FeatureGroup(name, [], Zero, Passed)
  }

  function StatusesOf(cases: seq<CaseResult>): (r: seq<Status>)
    ensures |r| == |cases|
  {
    if cases == [] then [] else StatusesOf(cases[..|cases| - 1]) + [cases[|cases| - 1].status]
  }

  lemma StatusesOfSnoc(cases: seq<CaseResult>, c: CaseResult)
    ensures StatusesOf(cases + [c]) == StatusesOf(cases) + [c.status]
  {
    assert (cases + [c])[..|cases|] == cases;
  }

  /** The sum of the counters of the groups named by `names`. */
  function SumStats(names: seq<string>, m: map<string, FeatureGroup>): Stats
    requires forall k :: k in names ==> k in m
  {
    if names == [] then Zero
    else Add(SumStats(names[..|names| - 1], m), m[names[|names| - 1]].stats)
  }

  /** Each feature appears once, in first-seen order; each group's counters
      count its cases; and the session counters `s` are the sums of the
      group counters, so every case is counted in exactly one feature. */
  ghost predicate ValidState(g: Groups, s: Stats)
  {
    && OrderedKeys(g.order, g.features)
    && AllCounted(g.features)
    && s == SumStats(g.order, g.features)
  }

  predicate AllCounted(m: map<string, FeatureGroup>)
  {
    forall k {:trigger GroupCounted(k, m[k])} :: k in m ==> GroupCounted(k, m[k])
  }

  /** The group filed under `k` is named `k` and its counters count its cases. */
  predicate GroupCounted(k: string, grp: FeatureGroup)
  {
    grp.name == k && grp.stats == Tally(StatusesOf(grp.scenarios))
  }

  /** The empty session is valid. */
  lemma EmptyValid()
    ensures ValidState(Groups([], map[]), Zero)
  {
  }

  /** `total == passed + failed + error + skipped` holds for every feature and
      for the session. */
  lemma ValidBalanced(g: Groups, s: Stats)
    requires ValidState(g, s)
    ensures Balanced(s)
    ensures forall k :: k in g.features ==> Balanced(g.features[k].stats)
  {
    forall k | k in g.features ensures Balanced(g.features[k].stats) {
      assert GroupCounted(k, g.features[k]);
      TallyCounts(StatusesOf(g.features[k].scenarios));
      CountsBalanced(StatusesOf(g.features[k].scenarios));
    }
    SumBalanced(g.order, g.features);
  }

  lemma {:induction false} SumBalanced(names: seq<string>, m: map<string, FeatureGroup>)
    requires forall k :: k in names ==> k in m && Balanced(m[k].stats)
    ensures Balanced(SumStats(names, m))
  {
    if names != [] {
      SumBalanced(names[..|names| - 1], m);
    }
  }

  /** Changing a group that is not named leaves the sum alone. */
  lemma {:induction false} SumStatsFrame(names: seq<string>, m: map<string, FeatureGroup>, f: string, grp: FeatureGroup)
    requires forall k :: k in names ==> k in m
    requires f !in names
    ensures SumStats(names, m[f := grp]) == SumStats(names, m)
  {
    if names != [] {
      SumStatsFrame(names[..|names| - 1], m, f, grp);
    }
  }

  /** Counting one case of status `st` in the group of `f` counts it once in the sum. */
  lemma {:induction false} SumStatsBump(names: seq<string>, m: map<string, FeatureGroup>, f: string, grp: FeatureGroup, st: Status)
    requires forall k :: k in names ==> k in m
    requires NoDuplicates(names) && f in names
    requires grp.stats == Bump(m[f].stats, st)
    ensures SumStats(names, m[f := grp]) == Bump(SumStats(names, m), st)
  {
    var init := names[..|names| - 1];
    var last := names[|names| - 1];
    if last == f {
      assert f !in init by {
        forall i | 0 <= i < |init| ensures init[i] != f {
          assert names[i] != names[|names| - 1];
        }
      }
      SumStatsFrame(init, m, f, grp);
    } else {
      assert f in init by {
        var i :| 0 <= i < |names| && names[i] == f;
        assert i < |names| - 1 && init[i] == f;
      }
      SumStatsBump(init, m, f, grp, st);
    }
  }

  /** The sum reads only the counters of the groups. */
  lemma {:induction false} SumStatsSameStats(names: seq<string>, m1: map<string, FeatureGroup>, m2: map<string, FeatureGroup>)
    requires forall k :: k in names ==> k in m1 && k in m2 && m1[k].stats == m2[k].stats
    ensures SumStats(names, m1) == SumStats(names, m2)
  {
    if names != [] {
      SumStatsSameStats(names[..|names| - 1], m1, m2);
    }
  }

  /** The cases filed so far under feature `f`. */
  function ScenariosOf(g: Groups, f: string): seq<CaseResult>
  {
    if f in g.features then g.features[f].scenarios else []
  }

  /** The state with an empty group for `f` when `f` has none yet. */
  function WithGroup(g: Groups, f: string): Groups
  {
    if f in g.features then g else Groups(g.order + [f], g.features[f := NewGroup(f)])
  }

  /** Appending `c` to the existing group of `f` and counting it. */
  function AppendCase(g: Groups, f: string, c: CaseResult): Groups
    requires f in g.features
  {
    var grp := g.features[f];
    Groups(g.order, g.features[f := grp.(scenarios := grp.scenarios + [c], stats := Bump(grp.stats, c.status))])
  }

  /** Filing case `c` under feature `f`: the group is created on first sight
      (appended to the order, zeroed, status `Passed`), then `c` is appended to
      its scenarios and counted once. */
  function FileCase(g: Groups, f: string, c: CaseResult): Groups
  {
    AppendCase(WithGroup(g, f), f, c)
  }

  /** What filing does to the feature dict: the feature is appended to the
      order only when new, `c` is appended to its scenarios and counted in
      its counters, its status is kept (`Passed` for a new feature), and no
      other feature changes. */
  lemma FileCaseEffect(g: Groups, f: string, c: CaseResult)
    ensures var r := FileCase(g, f, c);
            && r.order == (if f in g.features then g.order else g.order + [f])
            && r.features.Keys == g.features.Keys + {f}
            && r.features[f].scenarios == ScenariosOf(g, f) + [c]
            && r.features[f].stats == Bump(if f in g.features then g.features[f].stats else Zero, c.status)
            && r.features[f].status == (if f in g.features then g.features[f].status else Passed)
            && (f in g.features ==> r.features[f].name == g.features[f].name)
            && (f !in g.features ==> r.features[f].name == f)
            && (forall k :: k in g.features && k != f ==> r.features[k] == g.features[k])
  {
  }

  lemma WithGroupValid(g: Groups, s: Stats, f: string)
    requires ValidState(g, s)
    ensures ValidState(WithGroup(g, f), s)
    ensures f in WithGroup(g, f).features
  {
    if f !in g.features {
      NewGroupValid(g, s, f);
    }
  }

  lemma NewGroupValid(g: Groups, s: Stats, f: string)
    requires ValidState(g, s) && f !in g.features
    ensures ValidState(Groups(g.order + [f], g.features[f := NewGroup(f)]), s)
  {
    NewGroupKeys(g.order, g.features, f);
    NewGroupSum(g.order, g.features, f);
    NewGroupCounted(g.features, f);
  }

  lemma NewGroupCounted(m: map<string, FeatureGroup>, f: string)
    requires AllCounted(m)
    ensures AllCounted(m[f := NewGroup(f)])
  {
    var m' := m[f := NewGroup(f)];
    assert StatusesOf([]) == [];
    forall k | k in m' ensures GroupCounted(k, m'[k]) {
      if k != f {
        assert GroupCounted(k, m[k]);
      }
    }
  }

  lemma NewGroupKeys(order: seq<string>, m: map<string, FeatureGroup>, f: string)
    requires OrderedKeys(order, m) && f !in m
    ensures OrderedKeys(order + [f], m[f := NewGroup(f)])
  {
    var order' := order + [f];
    forall i, j | 0 <= i < j < |order'| ensures order'[i] != order'[j] {
      if j == |order| {
        assert order'[i] == order[i] && order[i] in m;
      } else {
        assert order'[i] == order[i] && order'[j] == order[j];
      }
    }
  }

  lemma NewGroupSum(order: seq<string>, m: map<string, FeatureGroup>, f: string)
    requires forall k :: k in order ==> k in m
    requires f !in m
    ensures SumStats(order + [f], m[f := NewGroup(f)]) == SumStats(order, m)
  {
    var m' := m[f := NewGroup(f)];
    SumStatsFrame(order, m, f, NewGroup(f));
    assert (order + [f])[..|order|] == order;
    assert SumStats(order + [f], m') == Add(SumStats(order, m'), Zero);
    AddZero(SumStats(order, m'));
  }

  lemma AppendCaseValid(g: Groups, s: Stats, f: string, c: CaseResult)
    requires ValidState(g, s) && f in g.features
    ensures ValidState(AppendCase(g, f, c), Bump(s, c.status))
  {
    var grp := g.features[f];
    var grp' := grp.(scenarios := grp.scenarios + [c], stats := Bump(grp.stats, c.status));
    StatusesOfSnoc(grp.scenarios, c);
    assert StatusesOf(grp.scenarios + [c])[..|grp.scenarios|] == StatusesOf(grp.scenarios);
    SumStatsBump(g.order, g.features, f, grp', c.status);
    var m' := g.features[f := grp'];
    forall k | k in m' ensures GroupCounted(k, m'[k]) {
      if k != f {
        assert GroupCounted(k, g.features[k]);
      } else {
        assert GroupCounted(f, grp);
      }
    }
  }

  /** Filing a case keeps the state valid and counts the case once in the
      session counters. */
  lemma FileCaseValid(g: Groups, s: Stats, f: string, c: CaseResult)
    requires ValidState(g, s)
    ensures ValidState(FileCase(g, f, c), Bump(s, c.status))
  {
    WithGroupValid(g, s, f);
    AppendCaseValid(WithGroup(g, f), s, f, c);
  }

  /** `FileCaseValid` for a state already known to be the filed one. */
  lemma FiledValid(g: Groups, s: Stats, f: string, c: CaseResult, g': Groups, s': Stats)
    requires ValidState(g, s)
    requires g' == FileCase(g, f, c) && s' == Bump(s, c.status)
    ensures ValidState(g', s')
  {
    FileCaseValid(g, s, f, c);
  }

  /** The group `grp` with its status set by the priority rule. */
  function Finalised(grp: FeatureGroup): (r: FeatureGroup)
    ensures r.name == grp.name && r.scenarios == grp.scenarios && r.stats == grp.stats
    ensures r.status == FeatureStatus(grp.stats)
  {
    grp.(status := FeatureStatus(grp.stats))
  }

  /** Every group finalised; the order and everything else unchanged. */
  function FinaliseAll(g: Groups): (r: Groups)
    ensures r.order == g.order && r.features.Keys == g.features.Keys
    ensures forall k :: k in g.features ==> r.features[k] == Finalised(g.features[k])
  {
    Groups(g.order, map k | k in g.features :: Finalised(g.features[k]))
  }

  /** Finalising touches only statuses, so the state stays valid. */
  lemma FinaliseValid(g: Groups, s: Stats)
    requires ValidState(g, s)
    ensures ValidState(FinaliseAll(g), s)
  {
    var m' := FinaliseAll(g).features;
    SumStatsSameStats(g.order, g.features, m');
    forall k | k in m' ensures GroupCounted(k, m'[k]) {
      assert GroupCounted(k, g.features[k]);
    }
  }

  /** The statuses the groups named by `names` roll up to, in that order. */
  function RolledUp(names: seq<string>, m: map<string, FeatureGroup>): (r: seq<Status>)
    requires forall k :: k in names ==> k in m
    ensures |r| == |names|
  {
    if names == [] then []
    else RolledUp(names[..|names| - 1], m) + [FeatureStatus(m[names[|names| - 1]].stats)]
  }

  /** Each feature is counted under exactly one roll-up status: the four
      feature counters add up to the number of features. */
  lemma RolledUpPartition(g: Groups)
    requires OrderedKeys(g.order, g.features)
    ensures Balanced(Counts(RolledUp(g.order, g.features)))
    ensures Counts(RolledUp(g.order, g.features)).total == |g.features|
  {
    CountsBalanced(RolledUp(g.order, g.features));
    OrderedKeysCard(g.order, g.features);
  }

  /** Finishing a session whose feature counters start at zero leaves
      `feature_passed + feature_failed + feature_error + feature_skipped ==
      feature_total == len(features)`. */
  lemma FeatureCountsPartition(g: Groups, featureCounts: Stats)
    requires OrderedKeys(g.order, g.features)
    requires featureCounts == AddStatuses(Zero.(total := |g.features|), Counts(RolledUp(g.order, g.features)))
    ensures featureCounts.total == |g.features|
    ensures Balanced(featureCounts)
  {
    RolledUpPartition(g);
  }

  /** `FeatureCountsPartition` for a finish that may start from any counters. */
  lemma FeatureCountsFrom(g: Groups, counts: Stats, featureCounts: Stats)
    requires OrderedKeys(g.order, g.features)
    requires featureCounts == AddStatuses(counts.(total := |g.features|), Counts(RolledUp(g.order, g.features)))
    ensures counts == Zero ==> Balanced(featureCounts) && featureCounts.total == |g.features|
  {
    if counts == Zero {
      FeatureCountsPartition(g, featureCounts);
    }
  }

  /** In a valid state, the status a feature is finalised to is read off its
      cases: failed when one of them failed, error when none failed and one
      errored, skipped when there are some and all were skipped, and passed
      otherwise. */
  lemma FinalisedStatusOfCases(g: Groups, s: Stats, k: string)
    requires ValidState(g, s) && k in g.features
    ensures var st := FinaliseAll(g).features[k].status;
            var sts := StatusesOf(g.features[k].scenarios);
            && (st == Failed <==> Failed in sts)
            && (st == Error <==> Failed !in sts && Error in sts)
            && (st == Skipped <==> sts != [] && forall i :: 0 <= i < |sts| ==> sts[i] == Skipped)
            && (st == Passed <==> Failed !in sts && Error !in sts && (sts == [] || Passed in sts))
  {
    var sts := StatusesOf(g.features[k].scenarios);
    assert GroupCounted(k, g.features[k]);
    TallyCounts(sts);
    FeatureStatusOfCases(sts);
  }

  // The finish loop is specified by `FinaliseAll` and `RolledUp` above, the
  // reference definitions.  `FinalisedUpTo` and `RolledUpTo` are the same
  // computation cut after `i` names, the loop invariant's proof scaffolding;
  // `FinaliseInOrder` below is the loop itself.

  /** The feature dict once the loop has finalised the groups of the first
      `i` names of `order`. */
  function FinalisedUpTo(order: seq<string>, i: nat, m: map<string, FeatureGroup>): map<string, FeatureGroup>
    requires i <= |order|
    requires forall k :: k in order ==> k in m
  {
    if i == 0 then m
    else FinalisedUpTo(order, i - 1, m)[order[i - 1] := Finalised(m[order[i - 1]])]
  }

  /** The feature counters once the loop has rolled up the first `i` names
      of `order`. */
  function RolledUpTo(order: seq<string>, i: nat, m: map<string, FeatureGroup>): Stats
    requires i <= |order|
    requires forall k :: k in order ==> k in m
  {
    if i == 0 then Zero
    else Bump(RolledUpTo(order, i - 1, m), FeatureStatus(m[order[i - 1]].stats))
  }

  /** A group is finalised once its name has been visited and untouched
      before; no key is added or removed. */
  lemma {:induction false} FinalisedUpToAt(order: seq<string>, i: nat, m: map<string, FeatureGroup>, k: string)
    requires i <= |order|
    requires forall k :: k in order ==> k in m
    requires k in m
    ensures FinalisedUpTo(order, i, m).Keys == m.Keys
    ensures FinalisedUpTo(order, i, m)[k] == if k in order[..i] then Finalised(m[k]) else m[k]
  {
    if i > 0 {
      FinalisedUpToAt(order, i - 1, m, k);
      assert order[..i] == order[..i - 1] + [order[i - 1]];
    }
  }

  /** The loop's counters are the one-by-one tally of the roll-up statuses. */
  lemma {:induction false} RolledUpToTally(order: seq<string>, i: nat, m: map<string, FeatureGroup>)
    requires i <= |order|
    requires forall k :: k in order ==> k in m
    ensures RolledUpTo(order, i, m) == Tally(RolledUp(order[..i], m))
  {
    if i > 0 {
      RolledUpToTally(order, i - 1, m);
      var prev := RolledUp(order[..i - 1], m);
      var st := FeatureStatus(m[order[i - 1]].stats);
      assert order[..i][..i - 1] == order[..i - 1];
      assert RolledUp(order[..i], m) == prev + [st];
      assert (prev + [st])[..|prev|] == prev;
    }
  }

  /** Rolling up the names one by one counts the statuses of their groups. */
  lemma RolledUpToCounts(order: seq<string>, i: nat, m: map<string, FeatureGroup>)
    requires i <= |order|
    requires forall k :: k in order ==> k in m
    ensures RolledUpTo(order, i, m) == Counts(RolledUp(order[..i], m))
  {
    RolledUpToTally(order, i, m);
    TallyCounts(RolledUp(order[..i], m));
  }

  /** The keys of the feature dict are untouched by the loop. */
  lemma {:induction false} FinalisedUpToKeys(order: seq<string>, i: nat, m: map<string, FeatureGroup>)
    requires i <= |order|
    requires forall k :: k in order ==> k in m
    ensures FinalisedUpTo(order, i, m).Keys == m.Keys
  {
    if i > 0 {
      FinalisedUpToKeys(order, i - 1, m);
    }
  }

  /** Once every name has been visited, every group is finalised. */
  lemma FinalisedUpToAll(order: seq<string>, m: map<string, FeatureGroup>)
    requires forall k :: k in m <==> k in order
    ensures FinalisedUpTo(order, |order|, m) == FinaliseAll(Groups(order, m)).features
  {
    var r := FinalisedUpTo(order, |order|, m);
    FinalisedUpToKeys(order, |order|, m);
    assert order[..|order|] == order;
    forall k | k in m ensures r[k] == Finalised(m[k]) {
      FinalisedUpToAt(order, |order|, m, k);
    }
  }

  /** The body of the feature-status loop of session finish: visiting the
      names of `order` one by one, each feature gets its status by the
      priority rule and bumps exactly one of the four status counters. */
  method FinaliseInOrder(order: seq<string>, m: map<string, FeatureGroup>, counts: Stats)
    returns (finalised: map<string, FeatureGroup>, featureCounts: Stats)
    requires forall k :: k in order ==> k in m
    ensures finalised == FinalisedUpTo(order, |order|, m)
    ensures featureCounts == AddStatuses(counts, RolledUpTo(order, |order|, m))
  {
    finalised := m;
    featureCounts := counts;
    var i := 0;
    while i < |order|
      invariant 0 <= i <= |order|
      invariant finalised == FinalisedUpTo(order, i, m)
      invariant featureCounts == AddStatuses(counts, RolledUpTo(order, i, m))
    {
      var fName := order[i];
      FinalisedUpToAt(order, i, m, fName);
      var fData := finalised[fName];
      var stats := fData.stats;
      if stats.failed > 0 {
        finalised := finalised[fName := fData.(status := Failed)];
        featureCounts := featureCounts.(failed := featureCounts.failed + 1);
      } else if stats.error > 0 {
        finalised := finalised[fName := fData.(status := Error)];
        featureCounts := featureCounts.(error := featureCounts.error + 1);
      } else if stats.skipped == stats.total && stats.total > 0 {
        finalised := finalised[fName := fData.(status := Skipped)];
        featureCounts := featureCounts.(skipped := featureCounts.skipped + 1);
      } else {
        finalised := finalised[fName := fData.(status := Passed)];
        featureCounts := featureCounts.(passed := featureCounts.passed + 1);
      }
      i := i + 1;
    }
  }

  /** The feature-status loop of session finish, on the feature dict `m`
      with keys `order`: `feature_total` becomes the number of features and
      the four status counters count the features' statuses. */
  method RollUpFeatures(order: seq<string>, m: map<string, FeatureGroup>, counts: Stats)
    returns (finalised: map<string, FeatureGroup>, featureCounts: Stats)
    requires OrderedKeys(order, m)
    ensures finalised.Keys == m.Keys
    ensures finalised == FinaliseAll(Groups(order, m)).features
    ensures featureCounts == AddStatuses(counts.(total := |m|), Counts(RolledUp(order, m)))
    ensures counts == Zero ==> Balanced(featureCounts) && featureCounts.total == |m|
  {
    finalised, featureCounts := FinaliseInOrder(order, m, counts.(total := |m|));
    RolledUpToCounts(order, |order|, m);
    assert order[..|order|] == order;
    FinalisedUpToAll(order, m);
    FeatureCountsFrom(Groups(order, m), counts, featureCounts);
  }
}
