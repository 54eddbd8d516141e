/** The per-step log buffer and the per-scenario step cache that the BDD
    step hooks fill: while a step runs its log lines are captured, and when it
    ends one entry is appended to its scenario's step list. */
module Steps {
  import opened Pytest

  /** The log lines captured while one step runs. */
  class StepLogHandler {
    var records: seq<string>

    constructor ()
      ensures records == []
    {
      records := [];
    }

    /** A record is appended once formatted; `None` stands for a record the
        formatter raised on, which is reported and dropped. */
    method Emit(formatted: Option<string>)
      modifies this
      ensures records == if formatted.Some? then old(records) + [formatted.value] else old(records)
    {
      match formatted {
        case Some(msg) => records := records + [msg];
        case None =>
      }
    }

    method Reset()
      modifies this
      ensures records == []
    {
      records := [];
    }
  }

  /** `pytest_bdd_before_step`: each step starts capturing into an empty buffer. */
  method BeforeStep(handler: StepLogHandler)
    modifies handler
    ensures handler.records == []
  {
    handler.Reset();
  }

  /** One entry of a scenario's step list.  A passed step carries the constant
      duration 0; a failed one carries the text of the exception instead. */
  datatype StepEntry =
    | PassedStep(keyword: string, name: string, duration: int, logs: seq<string>)
    | FailedStep(keyword: string, name: string, error: string, logs: seq<string>)

  /** `step_execution_cache`: the step lists of the scenarios, by node id. */
  class StepExecutionCache {
    var entries: map<string, seq<StepEntry>>

    constructor ()
      ensures entries == map[]
    {
      entries := map[];
    }

    /** The steps recorded for `nodeid`, or none: `cache.get(nodeid, [])`. */
    function StepsOf(nodeid: string): seq<StepEntry>
      reads this
    {
      if nodeid in entries then entries[nodeid] else []
    }

    /** `get_step_cache`: the existing list, or a new empty one stored first. */
    method GetStepCache(nodeid: string) returns (steps: seq<StepEntry>)
      modifies this
      ensures steps == old(StepsOf(nodeid))
      ensures nodeid in entries
      ensures entries == if nodeid in old(entries) then old(entries) else old(entries)[nodeid := []]
    {
      if nodeid !in entries {
        entries := entries[nodeid := []];
      }
      steps := entries[nodeid];
    }

    /** `pytest_bdd_before_scenario`: a scenario starts with no steps, whatever
        was recorded under its node id before. */
    method BeforeScenario(nodeid: string)
      modifies this
      ensures entries == old(entries)[nodeid := []]
      ensures StepsOf(nodeid) == []
    {
      entries := entries[nodeid := []];
    }

    /** `pytest_bdd_after_step`: one passed entry with a copy of the step's log. */
    method AfterStep(nodeid: string, step: Step, handler: StepLogHandler)
      modifies this
      ensures entries == old(entries)[nodeid := old(StepsOf(nodeid)) + [PassedStep(step.keyword, step.name, 0, handler.records)]]
      ensures |StepsOf(nodeid)| == |old(StepsOf(nodeid))| + 1
    {
      var cache := GetStepCache(nodeid);
      var capturedLogs := handler.records;
      entries := entries[nodeid := cache + [PassedStep(step.keyword, step.name, 0, capturedLogs)]];
    }

    /** `pytest_bdd_step_error`: one failed entry with the exception's text and
        the log captured up to the failure. */
    method StepError(nodeid: string, step: Step, exception: string, handler: StepLogHandler)
      modifies this
      ensures entries == old(entries)[nodeid := old(StepsOf(nodeid)) + [FailedStep(step.keyword, step.name, exception, handler.records)]]
      ensures |StepsOf(nodeid)| == |old(StepsOf(nodeid))| + 1
    {
      var cache := GetStepCache(nodeid);
      var capturedLogs := handler.records;
      entries := entries[nodeid := cache + [FailedStep(step.keyword, step.name, exception, capturedLogs)]];
    }
  }
}
