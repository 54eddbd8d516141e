/** The values the aggregation pipeline receives from the test runner: the
    per-phase test report, the collected test item and a BDD step.  Only the
    attributes the aggregation reads are kept. */
module Pytest {

  datatype Option<+T> = None | Some(value: T)

  /** `report.outcome`: the three outcomes the runner produces for a phase. */
  datatype Outcome = OutcomePassed | OutcomeFailed | OutcomeSkipped

  /** `report.when`: the phase a report belongs to. */
  datatype Phase = Setup | Call | Teardown

  /** Wall-clock duration in seconds, passed through without interpretation. */
  type Duration = int

  newtype byte = b: int | 0 <= b < 256

  /** What calling one screenshot accessor of a driver does: the handle may not
      have the accessor at all, the call may return a value, or it may raise. */
  datatype Accessor<+T> = Absent | Returns(value: T) | Raises

  /** A visual-context handle (a Selenium driver or a Playwright page), seen
      through the two screenshot accessors the capturer probes:
      `get_screenshot_as_base64()` and `screenshot()`. */
  datatype Handle = Handle(base64Accessor: Accessor<string>, screenshotAccessor: Accessor<seq<byte>>)

  /** One phase report.  `longrepr` is `None` when the report's failure
      representation is falsy (Python `None` or an empty string), otherwise
      the text it renders to.  `screenshot` is the attribute the
      report hook attaches before the report is aggregated. */
  datatype Report = Report(
    outcome: Outcome,
    when: Phase,
    longrepr: Option<string>,
    sections: seq<(string, string)>,
    duration: Duration,
    screenshot: Option<string>)

  /** A collected test item.  `scenarioFeature` is the name of the feature of
      the BDD scenario bound to the test function, when there is one;
      `markers` are the names `iter_markers()` yields, in its order;
      `funcargs` maps fixture names to fixture values (`None` for Python `None`);
      `instanceDriver` is the `driver` attribute of the bound test-class
      instance, `None` when there is no instance, no such attribute, or it is
      Python `None`. */
  datatype Item = Item(
    nodeid: string,
    name: string,
    scenarioFeature: Option<string>,
    markers: seq<string>,
    funcargs: map<string, Option<Handle>>,
    instanceDriver: Option<Handle>)

  /** A BDD step as the step hooks see it. */
  datatype Step = Step(keyword: string, name: string)
}
