/** The log text attached to each case: a leading block chosen by the report's
    failure representation and outcome, then one block per captured output
    section, joined by newlines. */
module CaseLog {
  import opened Pytest

  const ErrorTraceHeader: string := "=== Error Trace ===\n"
  const PassedBlock: string := "=== Execution Result ===\nTest Passed successfully."
  const SkippedBlock: string := "=== Skip Reason ===\nSkipped"

  /** Python's `sep.join(parts)`. */
  function Join(sep: string, parts: seq<string>): (r: string)
    ensures parts == [] ==> r == ""
    ensures parts != [] ==> parts[0] <= r
    ensures |parts| > 1 ==> parts[0] + sep <= r
  {
    if |parts| == 0 then ""
    else if |parts| == 1 then parts[0]
    else parts[0] + sep + Join(sep, parts[1..])
  }

  /** Joining one more part appends the separator and the part. */
  lemma {:induction false} JoinSnoc(sep: string, parts: seq<string>, p: string)
    requires parts != []
    ensures Join(sep, parts + [p]) == Join(sep, parts) + sep + p
  {
    if |parts| == 1 {
      assert (parts + [p])[1..] == [p];
    } else {
      assert (parts + [p])[1..] == parts[1..] + [p];
      JoinSnoc(sep, parts[1..], p);
    }
  }

  /** The block before the sections: the error trace when the report carries
      a failure representation, else a success line for a pass, else the skip
      line for a skip, else nothing.  The skip line never shows a reason: it is
      only reached when `longrepr` is falsy. */
  function LeadBlocks(report: Report): (r: seq<string>)
    ensures |r| <= 1
    ensures report.longrepr.Some? ==> r == [ErrorTraceHeader + report.longrepr.value]
    ensures report.longrepr.None? && report.outcome == OutcomePassed ==> r == [PassedBlock]
    ensures report.longrepr.None? && report.outcome == OutcomeSkipped ==> r == [SkippedBlock]
    ensures report.longrepr.None? && report.outcome == OutcomeFailed ==> r == []
  {
    match report.longrepr
    case Some(text) => [ErrorTraceHeader + text]
    case None =>
      if report.outcome == OutcomePassed then [PassedBlock]
      else if report.outcome == OutcomeSkipped then [SkippedBlock]
      else []
  }

  /** One captured section under its own header. */
  function SectionBlock(section: (string, string)): string
  {
    "\n=== " + section.0 + " ===\n" + section.1
  }

  function SectionBlocks(sections: seq<(string, string)>): (r: seq<string>)
    ensures |r| == |sections|
    ensures forall i :: 0 <= i < |sections| ==> r[i] == SectionBlock(sections[i])
  {
    if sections == [] then []
    else SectionBlocks(sections[..|sections| - 1]) + [SectionBlock(sections[|sections| - 1])]
  }

  /** The blocks of the case log, in order. */
  function LogBlocks(report: Report): seq<string>
  {
    LeadBlocks(report) + SectionBlocks(report.sections)
  }

  function LogText(report: Report): string
  {
    Join("\n", LogBlocks(report))
  }

  /** `full_log`: the lead block, then every section block in capture order,
      joined by newlines. */
  method BuildLog(report: Report) returns (fullLog: string)
    ensures fullLog == LogText(report)
  {
    var logContent: seq<string> := [];
    match report.longrepr {
      case Some(text) =>
        logContent := logContent + [ErrorTraceHeader + text];
      case None =>
        if report.outcome == OutcomePassed {
          logContent := logContent + [PassedBlock];
        } else if report.outcome == OutcomeSkipped {
          logContent := logContent + [SkippedBlock];
        }
    }
    var i := 0;
    while i < |report.sections|
      invariant 0 <= i <= |report.sections|
      invariant logContent == LeadBlocks(report) + SectionBlocks(report.sections[..i])
    {
      assert report.sections[..i + 1][..i] == report.sections[..i];
      logContent := logContent + [SectionBlock(report.sections[i])];
      i := i + 1;
    }
    assert report.sections[..i] == report.sections;
    fullLog := Join("\n", logContent);
  }

  /** A failure representation always opens the log. */
  lemma LogStartsWithTrace(report: Report)
    requires report.longrepr.Some?
    ensures ErrorTraceHeader + report.longrepr.value <= LogText(report)
  {
    var blocks := LogBlocks(report);
    assert blocks[0] == ErrorTraceHeader + report.longrepr.value;
    if |blocks| > 1 {
      assert Join("\n", blocks) == blocks[0] + "\n" + Join("\n", blocks[1..]);
    }
  }

  /** Without a failure representation, the log of a passed report opens
      with the success line and that of a skipped report with the skip line. */
  lemma LogStartsWithOutcome(report: Report)
    requires report.longrepr.None?
    ensures report.outcome == OutcomePassed ==> PassedBlock <= LogText(report)
    ensures report.outcome == OutcomeSkipped ==> SkippedBlock <= LogText(report)
  {
    var blocks := LogBlocks(report);
    if report.outcome != OutcomeFailed && |blocks| > 1 {
      assert Join("\n", blocks) == blocks[0] + "\n" + Join("\n", blocks[1..]);
    }
  }

  /** Capturing one more section appends its block, after a newline when the
      log was not empty: earlier text is never changed, and sections appear in
      the order they were captured. */
  lemma LogAppendSection(report: Report, section: (string, string))
    ensures var longer := report.(sections := report.sections + [section]);
            LogText(longer) == if LogBlocks(report) == [] then SectionBlock(section)
                               else LogText(report) + "\n" + SectionBlock(section)
  {
    var longer := report.(sections := report.sections + [section]);
    assert (report.sections + [section])[..|report.sections|] == report.sections;
    assert LogBlocks(longer) == LogBlocks(report) + [SectionBlock(section)];
    if LogBlocks(report) != [] {
      JoinSnoc("\n", LogBlocks(report), SectionBlock(section));
    }
  }

  /** A failure with no representation and no captured output has an empty log. */
  lemma EmptyLog(report: Report)
    ensures LogText(report) == "" <==>
              report.longrepr.None? && report.outcome == OutcomeFailed && report.sections == []
  {
    var blocks := LogBlocks(report);
    if blocks != [] {
      assert blocks[0] != "" by {
        if LeadBlocks(report) != [] {
          assert blocks[0] == LeadBlocks(report)[0];
          assert |ErrorTraceHeader| > 0;
        } else {
          assert blocks[0] == SectionBlock(report.sections[0]);
        }
      }
      if |blocks| > 1 {
        assert Join("\n", blocks) == blocks[0] + "\n" + Join("\n", blocks[1..]);
      }
    }
  }
}
