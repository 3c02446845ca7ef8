/**
 * The run log (backend/result_logger.py): a dictionary of results, keyed by
 * step name, that starts with the timestamp and model information. The
 * clock reading and the model object are parameters.
 */
module ResultLogging {
  import opened Strings
  import opened Outcomes
  import opened PyValues

  /** What the logger reads off the model object: its class name and its
      `model` and `temperature` attributes, which may be missing. */
  datatype ChatModel = ChatModel(className: string, modelId: Option<PyValue>, temperature: Option<PyValue>)

  function AttrOrUnknown(attr: Option<PyValue>): PyValue {
    match attr
    case Some(v) => v
    case None => PyStr("unknown")
  }

  function ModelInfo(model: ChatModel): PyValue {
    PyDict([("name", PyStr(model.className)),
            ("model_id", AttrOrUnknown(model.modelId)),
            ("temperature", AttrOrUnknown(model.temperature))])
  }

  /** The dictionary a new logger starts with. */
  function InitialResults(model: ChatModel, timestamp: string): map<string, PyValue> {
    map["timestamp" := PyStr(timestamp), "model_info" := ModelInfo(model)]
  }

  /** What add_result stores: `model_dump()` when the value has it, else its
      `.content`, else `str()` of it. */
  function Stored(result: PyValue): (r: PyValue)
    ensures r.PyDict? || r.PyStr?
  {
    match result
    case PyModel(_, fields) => PyDict(fields)
    case PyObject(_, Some(content), _) => PyStr(content)
    case _ => PyStr(Str(result))
  }

  class ResultLogger {
    var results: map<string, PyValue>
    var resultsDir: string

    /** `timestamp` is the clock reading formatted as `%Y%m%d_%H%M%S`; the
        directory creation is not modelled. */
    constructor(resultsDir: string, model: ChatModel, timestamp: string)
      ensures results == InitialResults(model, timestamp)
      ensures this.resultsDir == resultsDir
    {
      results := InitialResults(model, timestamp);
      this.resultsDir := resultsDir;
    }

    method AddResult(stepName: string, result: PyValue)
      modifies this
      ensures results == old(results)[stepName := Stored(result)]
      ensures resultsDir == old(resultsDir)
    {
      match result
      case PyModel(_, fields) =>
        results := results[stepName := PyDict(fields)];
      case PyObject(_, Some(content), _) =>
        results := results[stepName := PyStr(content)];
      case _ =>
        results := results[stepName := PyStr(Str(result))];
    }

    /** The file save_results writes: `<results_dir>/<timestamp>.json`. */
    function SaveFileName(): string
      reads this
      requires "timestamp" in results
    {
      FileNameFor(resultsDir, results["timestamp"])
    }
  }

  function FileNameFor(resultsDir: string, timestamp: PyValue): string {
    resultsDir + "/" + Str(timestamp) + ".json"
  }

  /** The dictionary after a series of add_result calls, in order. */
  function Logged(start: map<string, PyValue>, steps: seq<(string, PyValue)>): map<string, PyValue> {
    if steps == [] then start
    else Logged(start, steps[..|steps| - 1])[steps[|steps| - 1].0 := Stored(steps[|steps| - 1].1)]
  }

  /** One more add_result call. */
  lemma LoggedStep(start: map<string, PyValue>, steps: seq<(string, PyValue)>, step: (string, PyValue))
    ensures Logged(start, steps + [step]) == Logged(start, steps)[step.0 := Stored(step.1)]
  {
    assert (steps + [step])[..|steps|] == steps;
  }

  function StepNames(steps: seq<(string, PyValue)>): set<string> {
    set k | 0 <= k < |steps| :: steps[k].0
  }

  lemma StepNamesConcat(a: seq<(string, PyValue)>, b: seq<(string, PyValue)>)
    ensures StepNames(a + b) == StepNames(a) + StepNames(b)
  {
    forall n | n in StepNames(a + b) ensures n in StepNames(a) + StepNames(b) {
      var k :| 0 <= k < |a + b| && (a + b)[k].0 == n;
      if k >= |a| {
        assert b[k - |a|].0 == n;
      }
    }
    forall n | n in StepNames(a) ensures n in StepNames(a + b) {
      var k :| 0 <= k < |a| && a[k].0 == n;
      assert (a + b)[k].0 == n;
    }
    forall n | n in StepNames(b) ensures n in StepNames(a + b) {
      var k :| 0 <= k < |b| && b[k].0 == n;
      assert (a + b)[|a| + k].0 == n;
    }
  }

  /** Step k is the last one with its name. */
  predicate LastWithName(steps: seq<(string, PyValue)>, k: int) {
    0 <= k < |steps| && forall j :: k < j < |steps| ==> steps[j].0 != steps[k].0
  }

  /** After a series of add_result calls the keys are the initial ones plus
      the step names. */
  lemma {:induction false} LoggedKeys(start: map<string, PyValue>, steps: seq<(string, PyValue)>)
    ensures Logged(start, steps).Keys == start.Keys + StepNames(steps)
    decreases |steps|
  {
    if steps != [] {
      var init := steps[..|steps| - 1];
      LoggedKeys(start, init);
      assert StepNames(steps) == StepNames(init) + {steps[|steps| - 1].0} by {
        forall k | 0 <= k < |init| ensures init[k].0 == steps[k].0 {}
      }
    }
  }

  /** A name no step uses keeps its initial value. */
  lemma {:induction false} LoggedUntouched(start: map<string, PyValue>, steps: seq<(string, PyValue)>, name: string)
    requires name in start
    requires forall k :: 0 <= k < |steps| ==> steps[k].0 != name
    ensures name in Logged(start, steps) && Logged(start, steps)[name] == start[name]
    decreases |steps|
  {
    if steps != [] {
      var init := steps[..|steps| - 1];
      assert forall k :: 0 <= k < |init| ==> init[k] == steps[k];
      LoggedUntouched(start, init, name);
    }
  }

  /** A name used by several steps holds what the last of them stored. */
  lemma {:induction false} LoggedLastWriteWins(start: map<string, PyValue>, steps: seq<(string, PyValue)>, k: int)
    requires LastWithName(steps, k)
    ensures steps[k].0 in Logged(start, steps)
    ensures Logged(start, steps)[steps[k].0] == Stored(steps[k].1)
    decreases |steps|
  {
    var last := |steps| - 1;
    if k < last {
      var init := steps[..last];
      assert steps[k] == init[k];
      assert LastWithName(init, k);
      LoggedLastWriteWins(start, init, k);
    }
  }

  /** A logger's file name is fixed by its directory and timestamp: writing
      other steps does not change it. */
  lemma {:induction false} FileNameKept(resultsDir: string, model: ChatModel, timestamp: string, steps: seq<(string, PyValue)>)
    requires forall k :: 0 <= k < |steps| ==> steps[k].0 != "timestamp"
    ensures "timestamp" in Logged(InitialResults(model, timestamp), steps)
    ensures FileNameFor(resultsDir, Logged(InitialResults(model, timestamp), steps)["timestamp"])
      == resultsDir + "/" + timestamp + ".json"
  {
    LoggedUntouched(InitialResults(model, timestamp), steps, "timestamp");
  }
}
