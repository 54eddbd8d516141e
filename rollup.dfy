/** Statuses, the per-status counters kept at feature and session level, and
    the fixed-priority roll-up of a feature's counters into one status. */
module Rollup {

  /** The status of a case (and, after finalisation, of a feature). */
  datatype Status = Passed | Failed | Error | Skipped

  /** The `{"total", "passed", "failed", "error", "skipped"}` counters. */
  datatype Stats = Stats(total: nat, passed: nat, failed: nat, error: nat, skipped: nat)

  const Zero: Stats := Stats(0, 0, 0, 0, 0)

  /** Every counted case has exactly one status. */
  predicate Balanced(s: Stats)
  {
    s.total == s.passed + s.failed + s.error + s.skipped
  }

  /** Counting one more case of status `st`: `total += 1` and `[st] += 1`. */
  function Bump(s: Stats, st: Status): Stats
  {
    match st
    case Passed => s.(total := s.total + 1, passed := s.passed + 1)
    case Failed => s.(total := s.total + 1, failed := s.failed + 1)
    case Error => s.(total := s.total + 1, error := s.error + 1)
    case Skipped => s.(total := s.total + 1, skipped := s.skipped + 1)
  }

  function Add(a: Stats, b: Stats): Stats
  {
    Stats(a.total + b.total, a.passed + b.passed, a.failed + b.failed, a.error + b.error, a.skipped + b.skipped)
  }

  lemma AddZero(s: Stats)
    ensures Add(s, Zero) == s
  {
  }

  /** The counters of a collection of statuses: how many there are, and how
      many of each. */
  function Counts(sts: seq<Status>): Stats
  {
    var m := multiset(sts);
    Stats(|sts|, m[Passed], m[Failed], m[Error], m[Skipped])
  }

  /** Counting one more status is one `Bump`. */
  lemma CountsSnoc(sts: seq<Status>, st: Status)
    ensures Counts(sts + [st]) == Bump(Counts(sts), st)
  {
    assert multiset(sts + [st]) == multiset(sts) + multiset{st};
  }

  /** The counters built the way the source builds them: one `Bump` per
      status, in order. */
  function Tally(sts: seq<Status>): Stats
  {
    if sts == [] then Zero else Bump(Tally(sts[..|sts| - 1]), sts[|sts| - 1])
  }

  /** Counting one by one gives the counters of the whole collection. */
  lemma {:induction false} TallyCounts(sts: seq<Status>)
    ensures Tally(sts) == Counts(sts)
  {
    if sts != [] {
      var init := sts[..|sts| - 1];
      TallyCounts(init);
      assert sts == init + [sts[|sts| - 1]];
      CountsSnoc(init, sts[|sts| - 1]);
    }
  }

  /** The four status counters of `t` added to those of `base`; `total` is
      left alone. */
  function AddStatuses(base: Stats, t: Stats): Stats
  {
    base.(passed := base.passed + t.passed, failed := base.failed + t.failed,
          error := base.error + t.error, skipped := base.skipped + t.skipped)
  }

  /** The counters of any collection of cases are balanced. */
  lemma {:induction false} CountsBalanced(sts: seq<Status>)
    ensures Balanced(Counts(sts))
  {
    if sts != [] {
      var init := sts[..|sts| - 1];
      CountsBalanced(init);
      assert sts == init + [sts[|sts| - 1]];
      CountsSnoc(init, sts[|sts| - 1]);
    }
  }

  /** The counters depend only on how many cases have each status, not on the
      order in which the cases were ingested. */
  lemma CountsOrderIndependent(a: seq<Status>, b: seq<Status>)
    requires multiset(a) == multiset(b)
    ensures Counts(a) == Counts(b)
  {
    assert |a| == |multiset(a)| == |multiset(b)| == |b|;
  }

  /** The feature-status priority: failed > error > all skipped (and at least
      one case) > passed. */
  function FeatureStatus(s: Stats): Status
  {
    if s.failed > 0 then Failed
    else if s.error > 0 then Error
    else if s.skipped == s.total && s.total > 0 then Skipped
    else Passed
  }

  /** A status counter is positive exactly when that status occurs. */
  lemma CountsPresence(sts: seq<Status>)
    ensures Counts(sts).passed > 0 <==> Passed in sts
    ensures Counts(sts).failed > 0 <==> Failed in sts
    ensures Counts(sts).error > 0 <==> Error in sts
  {
    var m := multiset(sts);
    assert Passed in sts <==> Passed in m;
    assert Failed in sts <==> Failed in m;
    assert Error in sts <==> Error in m;
  }

  /** Every case was skipped exactly when no other status occurs. */
  lemma AllSkippedPresence(sts: seq<Status>)
    ensures (forall i :: 0 <= i < |sts| ==> sts[i] == Skipped) <==>
              Passed !in sts && Failed !in sts && Error !in sts
  {
    if Passed !in sts && Failed !in sts && Error !in sts {
      forall i | 0 <= i < |sts| ensures sts[i] == Skipped {
        assert sts[i] in sts;
      }
    }
  }

  /** The priority rule on balanced counters: skipped means some cases and
      none passed, failed or errored; passed means no failure or error and
      either no case or a passing one. */
  lemma FeatureStatusOfPresence(c: Stats)
    requires Balanced(c)
    ensures FeatureStatus(c) == Failed <==> c.failed > 0
    ensures FeatureStatus(c) == Error <==> c.failed == 0 && c.error > 0
    ensures FeatureStatus(c) == Skipped <==> c.total > 0 && c.passed == 0 && c.failed == 0 && c.error == 0
    ensures FeatureStatus(c) == Passed <==> c.failed == 0 && c.error == 0 && (c.total == 0 || c.passed > 0)
  {
  }

  /** A feature is failed exactly when one of its cases failed. */
  lemma FeatureFailedOfCases(sts: seq<Status>)
    ensures FeatureStatus(Counts(sts)) == Failed <==> Failed in sts
  {
    CountsBalanced(sts);
    CountsPresence(sts);
    AllSkippedPresence(sts);
    FeatureStatusOfPresence(Counts(sts));
    assert Counts(sts).total == |sts|;
  }

  /** A feature is error exactly when none of its cases failed and one errored. */
  lemma FeatureErrorOfCases(sts: seq<Status>)
    ensures FeatureStatus(Counts(sts)) == Error <==> Failed !in sts && Error in sts
  {
    CountsBalanced(sts);
    CountsPresence(sts);
    AllSkippedPresence(sts);
    FeatureStatusOfPresence(Counts(sts));
    assert Counts(sts).total == |sts|;
  }

  /** A feature is skipped exactly when it has cases and all were skipped. */
  lemma FeatureSkippedOfCases(sts: seq<Status>)
    ensures FeatureStatus(Counts(sts)) == Skipped <==>
              sts != [] && forall i :: 0 <= i < |sts| ==> sts[i] == Skipped
  {
    CountsBalanced(sts);
    CountsPresence(sts);
    AllSkippedPresence(sts);
    FeatureStatusOfPresence(Counts(sts));
    assert Counts(sts).total == |sts|;
  }

  /** A feature is passed exactly when no case failed or errored and it has
      no case or a passing one. */
  lemma FeaturePassedOfCases(sts: seq<Status>)
    ensures FeatureStatus(Counts(sts)) == Passed <==>
              Failed !in sts && Error !in sts && (sts == [] || Passed in sts)
  {
    CountsBalanced(sts);
    CountsPresence(sts);
    AllSkippedPresence(sts);
    FeatureStatusOfPresence(Counts(sts));
    assert Counts(sts).total == |sts|;
  }

  /** The roll-up read off the feature's cases. */
  lemma FeatureStatusOfCases(sts: seq<Status>)
    ensures FeatureStatus(Counts(sts)) == Failed <==> Failed in sts
    ensures FeatureStatus(Counts(sts)) == Error <==> Failed !in sts && Error in sts
    ensures FeatureStatus(Counts(sts)) == Skipped <==>
              sts != [] && forall i :: 0 <= i < |sts| ==> sts[i] == Skipped
    ensures FeatureStatus(Counts(sts)) == Passed <==>
              Failed !in sts && Error !in sts && (sts == [] || Passed in sts)
  {
    FeatureFailedOfCases(sts);
    FeatureErrorOfCases(sts);
    FeatureSkippedOfCases(sts);
    FeaturePassedOfCases(sts);
  }

  /** Reordering the ingestion of cases within a feature never changes its
      final status. */
  lemma FeatureStatusOrderIndependent(a: seq<Status>, b: seq<Status>)
    requires multiset(a) == multiset(b)
    ensures FeatureStatus(Counts(a)) == FeatureStatus(Counts(b))
  {
    CountsOrderIndependent(a, b);
  }

  predicate NoDuplicates(names: seq<string>)
  {
    forall i, j :: 0 <= i < j < |names| ==> names[i] != names[j]
  }

  /** Insertion-ordered names that are exactly the keys of `m`: the model of a
      Python dict's keys in first-seen order. */
  ghost predicate OrderedKeys<V>(names: seq<string>, m: map<string, V>)
  {
    NoDuplicates(names) && forall k {:trigger k in m} :: k in m <==> k in names
  }

  /** Dropping the last name drops its entry and keeps the rest ordered. */
  lemma OrderedKeysDropLast<V>(names: seq<string>, m: map<string, V>)
    requires OrderedKeys(names, m) && names != []
    ensures names[|names| - 1] in m
    ensures OrderedKeys(names[..|names| - 1], m - {names[|names| - 1]})
  {
    var last := names[|names| - 1];
    var init := names[..|names| - 1];
    var m' := m - {last};
    assert last in names;
    forall k ensures k in m' <==> k in init {
      if k in init {
        var i :| 0 <= i < |init| && init[i] == k;
        assert names[i] != names[|names| - 1];
      }
      if k in m && k != last {
        assert k in names;
        var i :| 0 <= i < |names| && names[i] == k;
        assert init[i] == k;
      }
    }
  }

  /** A dict has as many entries as its ordered keys. */
  lemma {:induction false} OrderedKeysCard<V>(names: seq<string>, m: map<string, V>)
    requires OrderedKeys(names, m)
    ensures |m| == |names|
  {
    if names == [] {
      assert m == map[];
    } else {
      var last := names[|names| - 1];
      OrderedKeysDropLast(names, m);
      OrderedKeysCard(names[..|names| - 1], m - {last});
      assert m.Keys == (m - {last}).Keys + {last};
    }
  }
}
