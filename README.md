# Test-result aggregation of the BDD report plugin

This project models the part of the pytest report plugin that collects results.
The HTML output built from those results is not modelled. There are two versions of the plugin, and both are covered:

- `conftest.py`, the current version. It captures the log lines of each BDD step into a buffer (`StepLogHandler`). The pytest-bdd hooks append one record per finished or failed step to a per-scenario step cache. `TestSessionReport.add_result` then does the following for each ingested report:
  - it files the finished case under its feature, creating feature groups in first-seen order;
  - it builds the case log;
  - it promotes a failure outside the call phase to an error;
  - it keeps the case's user-facing markers;
  - it bumps the feature and session counters.

  At session finish, every feature is given a status by a fixed priority, and the feature counters are tallied.
- `conftestbackup.py`, the earlier version. It has the same accumulator without steps and markers. It also has the same report-hook gating, the screenshot capturer with its fixture lookup order, and the same finish loop.

Layout, one module per file:

- `pytest.dfy` (`Pytest`): the report, item, step and visual-handle values the hooks receive.
- `rollup.dfy` (`Rollup`): statuses, the `{total, passed, failed, error, skipped}` counters, and the feature-status priority. It also holds the insertion-ordered keys of a Python dict.
- `classify.dfy` (`Classify`): pure per-report decisions. These are the case status, the feature name (`nodeid.split("::")[0]`) and the gating.
- `case_log.dfy` (`CaseLog`): the case log text, and the loop that builds it.
- `screenshot.dfy` (`Screenshot`): the fixture lookup loop and capture.
- `steps.dfy` (`Steps`): the step log buffer and the step cache, both as classes.
- `session.dfy` (`Session`): the accumulated state as a value. It holds its validity invariant, filing a case, finalising every feature, and the feature-status loop.
- `conftest.dfy` (`Conftest`) and `conftest_backup.dfy` (`ConftestBackup`): the two `TestSessionReport` classes and their report hooks.

Both report classes keep one invariant, `Valid()`, after every call:
- the feature order lists every feature exactly once;
- each feature's counters count its cases;
- the session counters are the sum of the feature counters.

From this invariant, `total == passed + failed + error + skipped` follows at feature and at session level (`Session.ValidBalanced`).

## Model

| member | source | states |
|---|---|---|
| Steps.StepLogHandler.constructor | conftest.py:21-23 | a new handler has no records |
| Steps.StepLogHandler.Emit | conftest.py:27-32 | a formatted record is appended at the end and earlier records are kept; a record the formatter raised on appends nothing |
| Steps.StepLogHandler.Reset | conftest.py:34-35 | the records are empty afterwards |
| Steps.BeforeStep | conftest.py:62-64 | every step starts with an empty log buffer |
| Steps.StepExecutionCache.constructor | conftest.py:47 | the cache starts with no node ids |
| Steps.StepExecutionCache.StepsOf | conftest.py:155 | `step_execution_cache.get(nodeid, [])`; no contract of its own: the cache methods state their effect through it |
| Steps.StepExecutionCache.GetStepCache | conftest.py:50-53 | an existing list is returned and the cache is unchanged; otherwise an empty list is stored and returned |
| Steps.StepExecutionCache.BeforeScenario | conftest.py:58-59 | the scenario's list becomes empty and no other node id changes |
| Steps.StepExecutionCache.AfterStep | conftest.py:67-80 | exactly one passed entry (duration 0, a copy of the current records) is appended to the node's list; earlier entries and other node ids are unchanged |
| Steps.StepExecutionCache.StepError | conftest.py:83-95 | exactly one failed entry (the exception text, the records captured so far) is appended; earlier entries and other node ids are unchanged |
| Classify.CaseStatus | conftest.py:150-152 | the status is error exactly when the outcome is failed outside the call phase; otherwise it is the outcome, so a skipped setup stays skipped |
| Classify.BeforeSeparator | conftest.py:124 | the result is the text before the first index where `"::"` starts, or the whole id when none does |
| Classify.BeforeSeparatorUnique | conftest.py:124 | any text satisfying that characterisation is the result, so the prefix is uniquely determined |
| Classify.FeatureName | conftest.py:120-124 | the scenario's feature name when the item has one, otherwise the node id's text before the first `"::"` |
| Classify.ShouldIngest | conftest.py:221 | a report is ingested exactly when it is from the call phase or did not pass |
| Classify.ShouldCapture | conftest.py:222-225 | a screenshot is attempted exactly for a failed or skipped call |
| Classify.CaptureOnlyIngestedCalls | conftestbackup.py:146-150 | every report with a screenshot attempt is ingested, and setup and teardown reports never get one |
| CaseLog.LeadBlocks | conftestbackup.py:57-63 | a failure representation gives exactly the error-trace block; without one, a pass gives exactly the success block, a skip exactly the `Skipped` block and a failure no lead block |
| CaseLog.SectionBlocks | conftestbackup.py:66-67 | one block per captured section, in capture order, each under its own header |
| CaseLog.BuildLog | conftestbackup.py:54-69 | the log-building loop yields the lead block and then the section blocks, joined by newlines |
| CaseLog.Join | conftest.py:148 | `"\n".join`: no parts give the empty text; otherwise the first part opens the result, followed by the separator when more parts come |
| CaseLog.LogText | conftest.py:137-148 | the case log; no contract of its own: `BuildLog` is proved to compute it and the lemmas below state its shape |
| CaseLog.LogStartsWithTrace | conftest.py:138-139 | the log of a report with a failure representation starts with the error trace |
| CaseLog.LogStartsWithOutcome | conftest.py:140-144 | without a failure representation, a passed report's log opens with the success block and a skipped report's with the `Skipped` block |
| CaseLog.LogAppendSection | conftest.py:146-148 | one more captured section appends its block after a newline and leaves the earlier text unchanged |
| CaseLog.EmptyLog | conftest.py:137-148 | the log is empty exactly for a failure with no representation and no captured output |
| Screenshot.FirstFixture | conftestbackup.py:114-117 | the value of the first candidate name that is a fixture, with no earlier candidate present; `None` exactly when no candidate is present |
| Screenshot.ResolveHandle | conftestbackup.py:114-122 | with no candidate fixture the handle is the instance's driver; otherwise it is the instance's driver or the value of a candidate fixture that is present (which one: `FirstCandidateWins`, `FirstCandidateNoneFallsBack`) |
| Screenshot.Capture | conftestbackup.py:124-134 | no handle gives no image; a returning base64 accessor gives its text; when the base64 accessor is absent, a returning raw accessor gives its bytes encoded; any image comes from one of these two, so every other case (a raising accessor, no accessor) gives none |
| Screenshot.CaptureScreenshot | conftestbackup.py:105-136 | the lookup loop with its early exit, the instance fallback and the capture give the capture of the resolved handle |
| Screenshot.FirstCandidateWins | conftestbackup.py:114-117 | the first candidate present with a non-`None` value is the handle, whatever the later candidates hold |
| Screenshot.FirstCandidateNoneFallsBack | conftestbackup.py:114-122 | when the first candidate present holds `None`, the handle is the instance's driver; a later candidate is never consulted |
| Screenshot.NoHandleNoScreenshot | conftestbackup.py:120-124 | with no candidate fixture and no instance driver the result is `None` |
| Screenshot.RaisingAccessorGivesNone | conftestbackup.py:125-134 | a raising accessor yields `None` and the error is not propagated |
| Rollup.Bump | conftest.py:177-188 | one case counted; no contract of its own: `CountsSnoc` and `TallyCounts` state that bumping once per case counts each status |
| Rollup.CountsSnoc | conftest.py:177-188 | counting one more status bumps `total` and exactly that status's counter |
| Rollup.TallyCounts | conftest.py:177-188 | bumping the counters one case at a time gives the count of every status in the collection |
| Rollup.CountsBalanced | conftest.py:177-188 | counters built this way always satisfy `total == passed + failed + error + skipped` |
| Rollup.CountsOrderIndependent | conftest.py:177-188 | the counters do not depend on the order in which cases arrive |
| Rollup.FeatureStatus | conftest.py:233-245 | the priority rule on a feature's counters; no contract of its own: `FeatureStatusOfPresence` and `FeatureStatusOfCases` state its meaning |
| Rollup.FeatureStatusOfPresence | conftest.py:233-245 | on balanced counters the status is failed iff `failed > 0`, error iff no failure and `error > 0`, skipped iff there are cases and none passed, failed or errored, and passed iff no failure or error and either no case or a passing one |
| Rollup.FeatureStatusOfCases | conftest.py:233-245 | as a function of the cases, a feature is failed iff one failed, error iff none failed and one errored, skipped iff it has cases and all were skipped, and passed otherwise |
| Rollup.FeatureFailedOfCases | conftest.py:234-236 | a feature is failed iff one of its cases failed |
| Rollup.FeatureErrorOfCases | conftest.py:237-239 | a feature is error iff none of its cases failed and one errored |
| Rollup.FeatureSkippedOfCases | conftest.py:240-242 | a feature is skipped iff it has cases and every case was skipped |
| Rollup.FeaturePassedOfCases | conftest.py:243-245 | a feature is passed iff no case failed or errored and it has no cases or a passing one |
| Rollup.FeatureStatusOrderIndependent | conftest.py:233-245 | a feature's final status does not depend on the order of its cases |
| Rollup.OrderedKeysCard | conftest.py:231 | a dict has as many entries as its ordered keys, so `feature_total` is the number of feature names |
| Session.EmptyValid | conftest.py:103-117 | the empty session (no features, zero counters) satisfies the invariant |
| Session.ValidBalanced | conftest.py:176-188 | in every valid state `total == passed + failed + error + skipped`, for the session and for every feature |
| Session.CaseOf | conftest.py:165-174 | the case record keeps the item's name and node id, the duration and the screenshot; its status is the outcome classified by phase (`CaseStatus`), hence error iff the report failed outside the call phase; its log is the log text |
| Session.WithGroup | conftest.py:128-134 | the group of a new feature is created; no contract of its own: `FileCaseEffect` states the effect |
| Session.AppendCase | conftest.py:176-178 | the case is appended and counted in its feature; no contract of its own: `FileCaseEffect` states the effect |
| Session.FileCase | conftest.py:128-178 | filing one case; no contract of its own: `FileCaseEffect` and `FileCaseValid` state its effect |
| Session.FileCaseEffect | conftest.py:128-134 | filing a case appends the feature to the order only when it is new, creates it with no cases, zero counters and status passed, and never re-creates it; it appends the case, counts it once in that feature, and changes no other feature |
| Session.FileCaseValid | conftest.py:176-188 | filing a case keeps the invariant, with the session counters bumped once for the case's status |
| Session.Finalised | conftest.py:234-245 | a finalised group keeps its name, cases and counters, and its status is the priority status of its counters |
| Session.FinaliseAll | conftest.py:232-245 | finalising keeps the order and the keys and finalises every group |
| Session.FinaliseValid | conftest.py:232-245 | finalising keeps the invariant |
| Session.RolledUpPartition | conftest.py:231-245 | every feature is counted under exactly one roll-up status, and there are as many roll-up statuses as features |
| Session.FeatureCountsPartition | conftest.py:231-245 | starting from zero, finishing leaves `feature_passed + feature_failed + feature_error + feature_skipped == feature_total == len(features)` |
| Session.FinalisedStatusOfCases | conftest.py:233-245 | in a valid state, a feature's finalised status is read off its cases: failed iff one failed, error iff none failed and one errored, and so on |
| Session.FinaliseInOrder | conftestbackup.py:160-174 | visiting the features in order, the loop gives each its priority status and bumps exactly one status counter per feature |
| Session.RollUpFeatures | conftestbackup.py:158-174 | `feature_total` becomes the number of features; the finalised dict equals every group finalised; the status counters grow by the count of each roll-up status, so from zero they add up to `feature_total` |
| Conftest.Retained | conftest.py:157-163 | the retained markers are no more than the case's markers, each one of them and none of the ignored names |
| Conftest.RetainedMembers | conftest.py:157-162 | a marker is retained iff the case has it and it is not one of the seven ignored names |
| Conftest.RetainedConcat | conftest.py:160-162 | filtering keeps the markers' iteration order |
| Conftest.TestSessionReport.constructor | conftest.py:103-117 | a new report has no features, no markers and zero counters, and is valid |
| Conftest.TestSessionReport.AddResult | conftest.py:119-188 | the state becomes the old one with the case filed under its feature; the case has the scenario's steps and retained markers; the session counters are bumped once for its status; the marker set grows by its retained markers; the invariant is kept |
| Conftest.TestSessionReport.ScenarioResult | conftest.py:136-174 | the case record has the item's name and node id, the status, the log, the screenshot, the cached steps and the retained markers |
| Conftest.TestSessionReport.CollectMarkers | conftest.py:159-163 | the loop yields the retained markers in order and adds exactly those to the session's marker set |
| Conftest.TestSessionReport.Finish | conftest.py:229-245 | every feature is finalised by the priority rule; `feature_total` is the number of features; each feature bumps one status counter; from zero counters the four feature counters add up to `feature_total`; the invariant is kept |
| Conftest.MakeReport | conftest.py:218-226 | a report that is not ingested leaves the session unchanged; an ingested one is filed with the capture result for a failed or skipped call and no screenshot otherwise, and its retained markers join the marker set |
| ConftestBackup.TestSessionReport.constructor | conftestbackup.py:16-33 | a new report has no features and zero counters, and is valid |
| ConftestBackup.TestSessionReport.AddResult | conftestbackup.py:35-102 | the state becomes the old one with the case (without steps or markers) filed under its feature; the session counters are bumped once for its status; the invariant is kept |
| ConftestBackup.TestSessionReport.Finish | conftestbackup.py:154-174 | every feature is finalised by the priority rule; `feature_total` is the number of features; each feature bumps one status counter; from zero counters the four feature counters add up to `feature_total`; the invariant is kept |
| ConftestBackup.MakeReport | conftestbackup.py:141-152 | a report that is not ingested leaves the session unchanged; an ingested one is filed with the capture result for a failed or skipped call and no screenshot otherwise |

## Left out

- HTML rendering: the template, `generate_html_report`, the `hash` filter and the browser-side script. These are string templating and file output. Python's string `hash` is randomised per process.
- Timing: `start_time`, the session `duration` and `round(report.duration, 4)` depend on the wall clock and on floating point. A case's duration is an opaque integer passed through unchanged.
- Logging: registering the handler with the root logger and `logging.Formatter` are global library state. `Emit` takes the formatted line, or `None` when the formatter raised; the `handleError` report for a raised formatter is left out.
- Screenshot drivers: the Selenium and Playwright calls and base64 encoding are foreign code. A handle is a pair of accessors that are absent, return a value, or raise. Encoding is a function parameter. The earlier version's warning line on a failed capture is left out.
- Handle resolution: Python's falsy test on a found fixture value is modelled as `None`. A fixture whose value is `None` falls back to the instance's `driver`, and `item.instance` with its `driver` attribute is one optional handle.
- Step lists are copied, not shared: in `Conftest.TestSessionReport.AddResult` the case holds a copy of the scenario's step list, whereas Python stores the cache's list object itself. Later appends to that node's list, which the hooks never make once the case is reported, would show in the Python record but not in the model.
- The `"Unknown Feature"` default in `add_result` is not modelled. Both branches that follow it always overwrite it.
- The skip reason: the skip block always reads `Skipped`. Its inner `longrepr` test sits in the branch where `longrepr` is falsy, so the reason is never shown.
- Falsy failure representations: any falsy `longrepr` (`None` or empty) is `None` in the model.
- Counters: the five counters of each level are one record (`Stats`), not five separate attributes. The `if/elif` chain on the session counters always takes exactly one branch, because the status is one of the four.
- In-place finalisation: Python's loop updates each group dict in place while iterating `features.items()`. The model builds the finalised dict as a new value that the report class assigns back. No key is added or removed while iterating, so the result is the same.
- Page objects, step definitions and sample tests: these only drive a browser or feed events to the hooks.
