/**
 * The top of the pipeline (backend/RAG.py): route each rewritten query to
 * parameter recommendation, document extraction, online search or "unknown",
 * and log one record per query, catching whatever a query raises. The query
 * rewriter, the router and the models are parameters.
 */
module Rag {
  import opened Strings
  import opened Outcomes
  import opened PyValues
  import opened ParameterRecommender
  import opened ResultLogging

  /** The router's question types; its `step` field defaults to None. */
  datatype QuestionType = ParameterQuestion | DocumentQuestion | SearchQuestion | UnknownQuestion

  /** The outside calls the workflow makes, as outcomes for a query: the
      router model's decision, what parameter_recommendation returns or
      raises (modelled in ParameterRecommender.Recommend), and what
      online_search returns or raises (modelled in
      OnlineSearch.OnlineSearchTool). */
  datatype Pipeline = Pipeline(
    router: string -> Outcome<Option<QuestionType>>,
    recommend: string -> Outcome<Recommendation>,
    search: string -> Outcome<string>)

  const PictureNotice: string := "Picture reference feature not implemented yet."
  const UnknownPrefix: string := "Unknown question type: "
  const SearchErrorPrefix: string := "Error occurred in online search: "

  /** router_workflow for a router decision, a recommendation outcome and an
      online-search outcome: what it returns or raises. A raised online
      search becomes an error pair; anything else raised propagates. */
  function RoutedWith(query: string, route: Outcome<Option<QuestionType>>,
                      recommendation: Outcome<Recommendation>, search: Outcome<string>): Outcome<PyValue> {
    match route
    case Raised(e) => Raised(e)
    case Returned(None) => Returned(PyNone)
    case Returned(Some(ParameterQuestion)) =>
      (match recommendation
       case Raised(e) => Raised(e)
       case Returned(r) => Returned(PyTuple([RecommendationValue(r), PyBool(true)])))
    case Returned(Some(DocumentQuestion)) => Returned(PyStr(PictureNotice))
    case Returned(Some(SearchQuestion)) =>
      (match search
       case Raised(e) => Returned(PyTuple([PyStr(SearchErrorPrefix + ExceptionText(e)), PyBool(false)]))
       case Returned(answer) => Returned(PyTuple([PyStr(answer), PyBool(true)])))
    case Returned(Some(UnknownQuestion)) => Returned(PyStr(UnknownPrefix + query))
  }

  /** router_workflow with the pipeline's own calls. */
  function Routed(query: string, p: Pipeline): Outcome<PyValue> {
    RoutedWith(query, p.router(query), p.recommend(query), p.search(query))
  }

  /** The dictionary the loop logs for a query. */
  function Record(result: PyValue, isSuccessful: PyValue): PyValue {
    PyDict([("result", result), ("is_successful", isSuccessful)])
  }

  /** What the except branch logs. */
  function FailureRecord(e: Exception): PyValue {
    Record(PyStr(ExceptionText(e)), PyBool(false))
  }

  /** The record for one query: `workflow_result, is_successful = ...` when
      the workflow returns and its value unpacks into two, the failure
      record for whatever is raised on the way. */
  function QueryRecord(routed: Outcome<PyValue>): PyValue {
    match routed
    case Raised(e) => FailureRecord(e)
    case Returned(v) =>
      match Unpack2(v)
      case Raised(e) => FailureRecord(e)
      case Returned(pair) => Record(pair.0, pair.1)
  }

  /** The record the pipeline logs for a query. */
  function RecordFor(p: Pipeline): string -> PyValue {
    q => QueryRecord(Routed(q, p))
  }

  /** The add_result calls of the loop for the queries, in order. */
  function QuerySteps(queries: seq<string>, recordOf: string -> PyValue): (steps: seq<(string, PyValue)>)
    ensures |steps| == |queries|
  {
    if queries == [] then []
    else QuerySteps(queries[..|queries| - 1], recordOf) + [(queries[|queries| - 1], recordOf(queries[|queries| - 1]))]
  }

  /** The rewritten query list as add_result receives it. */
  function RewrittenValue(queries: Option<seq<string>>): PyValue {
    match queries
    case Some(qs) => StrList(qs)
    case None => PyNone
  }

  /** Every add_result call of RAG, in order: the original query, the
      rewritten list (if the rewriter returned), one record per rewritten
      query (if there is a list). */
  function RagSteps(query: string, rewritten: Outcome<Option<seq<string>>>, recordOf: string -> PyValue): seq<(string, PyValue)> {
    var first := [("Original Query", PyStr(query))];
    match rewritten
    case Raised(_) => first
    case Returned(None) => first + [("Rewritten Queries", PyNone)]
    case Returned(Some(qs)) => first + [("Rewritten Queries", StrList(qs))] + QuerySteps(qs, recordOf)
  }

  /** The exception that escapes RAG, if any: the rewriter's, or the one the
      loop raises when the rewriter gives None. */
  function Escaped(rewritten: Outcome<Option<seq<string>>>): Option<Exception> {
    match rewritten
    case Raised(e) => Some(e)
    case Returned(None) => Some(TypeError("'NoneType' object is not iterable"))
    case Returned(Some(_)) => None
  }

  const LogDirectory: string := "rag_logs"

  /** RAG for a query, the clock reading, the model and the rewriter's
      outcome: the logger it fills, and the file it saves (or the exception
      that escapes before the save). */
  method RagRun(query: string, model: ChatModel, timestamp: string,
                rewritten: Outcome<Option<seq<string>>>, p: Pipeline)
    returns (logger: ResultLogger, saved: Outcome<string>)
    ensures fresh(logger)
    ensures logger.resultsDir == LogDirectory
    ensures logger.results == Logged(InitialResults(model, timestamp), RagSteps(query, rewritten, RecordFor(p)))
    ensures Escaped(rewritten).Some? ==> saved == Raised(Escaped(rewritten).value)
    ensures Escaped(rewritten).None? ==>
      "timestamp" in logger.results && saved == Returned(FileNameFor(LogDirectory, logger.results["timestamp"]))
  {
    logger := new ResultLogger(LogDirectory, model, timestamp);
    ghost var start := logger.results;
    ghost var first := [("Original Query", PyStr(query))];
    logger.AddResult("Original Query", PyStr(query));
    LoggedStep(start, [], first[0]);
    assert [] + first == first;
    if rewritten.Raised? {
      return logger, Raised(rewritten.error);
    }
    var queries := rewritten.value;
    logger.AddResult("Rewritten Queries", RewrittenValue(queries));
    ghost var prefix := first + [("Rewritten Queries", RewrittenValue(queries))];
    LoggedStep(start, first, prefix[1]);
    if queries.None? {
      return logger, Raised(TypeError("'NoneType' object is not iterable"));
    }
    var qs := queries.value;
    LogQueries(logger, qs, p, RecordFor(p), start, prefix);
    assert RagSteps(query, rewritten, RecordFor(p)) == prefix + QuerySteps(qs, RecordFor(p));
    LoggedKeys(start, prefix + QuerySteps(qs, RecordFor(p)));
    saved := Returned(logger.SaveFileName());
  }

  /** The loop of RAG: one record per query, in order. `recordOf` names
      the record each query gets. */
  method LogQueries(logger: ResultLogger, qs: seq<string>, p: Pipeline, ghost recordOf: string -> PyValue,
                    ghost start: map<string, PyValue>, ghost prefix: seq<(string, PyValue)>)
    requires forall q :: recordOf(q) == RecordFor(p)(q)
    requires logger.results == Logged(start, prefix)
    modifies logger
    ensures logger.results == Logged(start, prefix + QuerySteps(qs, recordOf))
    ensures logger.resultsDir == old(logger.resultsDir)
  {
    var i := 0;
    assert qs[..0] == [] && prefix + [] == prefix;
    while i < |qs|
      invariant i <= |qs|
      invariant logger.resultsDir == old(logger.resultsDir)
      invariant logger.results == Logged(start, prefix + QuerySteps(qs[..i], recordOf))
    {
      ghost var before := prefix + QuerySteps(qs[..i], recordOf);
      LogQuery(logger, qs[i], p, recordOf, start, before);
      QueryStepsStep(qs, i, recordOf);
      assert prefix + QuerySteps(qs[..i + 1], recordOf) == before + [(qs[i], recordOf(qs[i]))];
      i := i + 1;
    }
    assert qs[..i] == qs;
  }

  /** One iteration of the loop: process the query and log its record. */
  method LogQuery(logger: ResultLogger, eachQuery: string, p: Pipeline, ghost recordOf: string -> PyValue,
                  ghost start: map<string, PyValue>, ghost before: seq<(string, PyValue)>)
    requires forall q :: recordOf(q) == RecordFor(p)(q)
    requires logger.results == Logged(start, before)
    modifies logger
    ensures logger.results == Logged(start, before + [(eachQuery, recordOf(eachQuery))])
    ensures logger.resultsDir == old(logger.resultsDir)
  {
    var record := ProcessQuery(eachQuery, p);
    logger.AddResult(eachQuery, record);
    LoggedStep(start, before, (eachQuery, record));
  }

  /** The body of the loop's try block and its except branch, for one query. */
  method ProcessQuery(eachQuery: string, p: Pipeline) returns (record: PyValue)
    ensures record == RecordFor(p)(eachQuery)
  {
    var routed := Routed(eachQuery, p);
    if routed.Raised? {
      return FailureRecord(routed.error);
    }
    var unpacked := Unpack2(routed.value);
    if unpacked.Raised? {
      return FailureRecord(unpacked.error);
    }
    var (workflowResult, isSuccessful) := unpacked.value;
    record := Record(workflowResult, isSuccessful);
  }

  /* ----- what gets recorded ----- */

  /** A record says the query succeeded. */
  predicate Succeeded(record: PyValue) {
    record.PyDict? && |record.entries| == 2 && record.entries[1] == ("is_successful", PyBool(true))
  }

  /** A query is logged as successful exactly when it was routed to
      parameter recommendation and that returned (whatever it returned), or
      routed to online search and the search returned. */
  lemma SuccessIff(query: string, route: Outcome<Option<QuestionType>>,
                   recommendation: Outcome<Recommendation>, search: Outcome<string>)
    ensures Succeeded(QueryRecord(RoutedWith(query, route, recommendation, search))) <==>
      || (route == Returned(Some(ParameterQuestion)) && recommendation.Returned?)
      || (route == Returned(Some(SearchQuestion)) && search.Returned?)
  {
    if route == Returned(Some(DocumentQuestion)) {
      assert |PictureNotice| > 2;
    } else if route == Returned(Some(UnknownQuestion)) {
      assert |UnknownPrefix + query| > 2;
    }
  }

  /** The routes that return a plain string or None cannot be unpacked into
      two values, so the except branch logs them as failures. */
  lemma NonPairRoutesFail(query: string, recommendation: Outcome<Recommendation>, search: Outcome<string>)
    ensures QueryRecord(RoutedWith(query, Returned(Some(DocumentQuestion)), recommendation, search))
      == FailureRecord(ValueError("too many values to unpack (expected 2)"))
    ensures QueryRecord(RoutedWith(query, Returned(Some(UnknownQuestion)), recommendation, search))
      == FailureRecord(ValueError("too many values to unpack (expected 2)"))
    ensures QueryRecord(RoutedWith(query, Returned(None), recommendation, search))
      == FailureRecord(TypeError("cannot unpack non-iterable NoneType object"))
  {
    var tooMany := Raised(ValueError("too many values to unpack (expected 2)"));
    assert Unpack2(PyStr(PictureNotice)) == tooMany by {
      assert |PictureNotice| > 2;
    }
    assert Unpack2(PyStr(UnknownPrefix + query)) == tooMany by {
      assert |UnknownPrefix + query| > 2;
    }
    assert Unpack2(PyNone) == Raised(TypeError("cannot unpack non-iterable NoneType object")) by {
      assert "cannot unpack non-iterable " + "NoneType" + " object" == "cannot unpack non-iterable NoneType object";
    }
  }

  /** The parameter route logs the recommendation's value with
      is_successful True, even when that value is None or the
      missing-document pair. */
  lemma RecommendationLoggedAsIs(query: string, r: Recommendation, search: Outcome<string>)
    ensures QueryRecord(RoutedWith(query, Returned(Some(ParameterQuestion)), Returned(r), search))
      == Record(RecommendationValue(r), PyBool(true))
  {
  }

  /** A failed online search is logged as its error message with
      is_successful False; a successful one as its answer with True. */
  lemma SearchOutcomeLogged(query: string, recommendation: Outcome<Recommendation>, search: Outcome<string>)
    ensures var record := QueryRecord(RoutedWith(query, Returned(Some(SearchQuestion)), recommendation, search));
      && (search.Raised? ==> record == Record(PyStr(SearchErrorPrefix + ExceptionText(search.error)), PyBool(false)))
      && (search.Returned? ==> record == Record(PyStr(search.value), PyBool(true)))
  {
  }

  /** A query whose router or workflow raises is logged with its error
      message and is_successful False. */
  lemma RaisedWorkflowContained(query: string, route: Outcome<Option<QuestionType>>,
                                recommendation: Outcome<Recommendation>, search: Outcome<string>)
    requires RoutedWith(query, route, recommendation, search).Raised?
    ensures QueryRecord(RoutedWith(query, route, recommendation, search))
      == FailureRecord(RoutedWith(query, route, recommendation, search).error)
    ensures route.Raised? || (route == Returned(Some(ParameterQuestion)) && recommendation.Raised?)
  {
  }

  lemma QueryStepsStep(qs: seq<string>, i: nat, recordOf: string -> PyValue)
    requires i < |qs|
    ensures QuerySteps(qs[..i + 1], recordOf) == QuerySteps(qs[..i], recordOf) + [(qs[i], recordOf(qs[i]))]
  {
    assert qs[..i + 1][..i] == qs[..i];
  }

  /** The steps of a query list name the queries, in order. */
  lemma {:induction false} QueryStepsAt(queries: seq<string>, recordOf: string -> PyValue, k: nat)
    requires k < |queries|
    ensures QuerySteps(queries, recordOf)[k] == (queries[k], recordOf(queries[k]))
    decreases |queries|
  {
    if k < |queries| - 1 {
      QueryStepsAt(queries[..|queries| - 1], recordOf, k);
    }
  }

  /** Failure containment: whatever each query does, once the rewriter has
      returned a list, every rewritten query ends up in the log with its own
      record, and the log holds nothing but the initial entries, the two
      header steps and the queries. */
  lemma {:induction false} EveryQueryLogged(query: string, model: ChatModel, timestamp: string,
                                            qs: seq<string>, recordOf: string -> PyValue)
    ensures var results := Logged(InitialResults(model, timestamp), RagSteps(query, Returned(Some(qs)), recordOf));
      && results.Keys == {"timestamp", "model_info", "Original Query", "Rewritten Queries"} + (set q | q in qs)
      && forall q :: q in qs ==> results[q] == Stored(recordOf(q))
  {
    var start := InitialResults(model, timestamp);
    var steps := RagSteps(query, Returned(Some(qs)), recordOf);
    LoggedQueryKeys(query, start, qs, recordOf);
    assert start.Keys == {"timestamp", "model_info"};
    forall q | q in qs ensures Logged(start, steps)[q] == Stored(recordOf(q)) {
      LoggedQueryRecord(query, start, qs, recordOf, q);
    }
  }

  lemma LoggedQueryKeys(query: string, start: map<string, PyValue>, qs: seq<string>, recordOf: string -> PyValue)
    ensures Logged(start, RagSteps(query, Returned(Some(qs)), recordOf)).Keys
      == start.Keys + {"Original Query", "Rewritten Queries"} + (set q | q in qs)
  {
    var steps := RagSteps(query, Returned(Some(qs)), recordOf);
    var head := [("Original Query", PyStr(query)), ("Rewritten Queries", StrList(qs))];
    var tail := QuerySteps(qs, recordOf);
    assert steps == head + tail;
    LoggedKeys(start, steps);
    StepNamesConcat(head, tail);
    QueryStepNames(qs, recordOf);
    assert StepNames(head) == {"Original Query", "Rewritten Queries"} by {
      assert head[0].0 == "Original Query" && head[1].0 == "Rewritten Queries";
    }
  }

  lemma LoggedQueryRecord(query: string, start: map<string, PyValue>, qs: seq<string>, recordOf: string -> PyValue, q: string)
    requires q in qs
    ensures q in Logged(start, RagSteps(query, Returned(Some(qs)), recordOf))
    ensures Logged(start, RagSteps(query, Returned(Some(qs)), recordOf))[q] == Stored(recordOf(q))
  {
    var steps := RagSteps(query, Returned(Some(qs)), recordOf);
    var k := LastIndexOf(qs, q);
    QueryStepsAt(qs, recordOf, k);
    forall j | 2 + k < j < |steps| ensures steps[j].0 != q {
      QueryStepsAt(qs, recordOf, j - 2);
    }
    assert LastWithName(steps, 2 + k);
    LoggedLastWriteWins(start, steps, 2 + k);
  }

  /** The steps of a query list are named by exactly its queries. */
  lemma QueryStepNames(qs: seq<string>, recordOf: string -> PyValue)
    ensures StepNames(QuerySteps(qs, recordOf)) == (set q | q in qs)
  {
    var steps := QuerySteps(qs, recordOf);
    forall n | n in StepNames(steps) ensures n in qs {
      var k :| 0 <= k < |steps| && steps[k].0 == n;
      QueryStepsAt(qs, recordOf, k);
    }
    forall n | n in qs ensures n in StepNames(steps) {
      var k :| 0 <= k < |qs| && qs[k] == n;
      QueryStepsAt(qs, recordOf, k);
      assert steps[k].0 == n;
    }
  }

  /** The index of the last occurrence of x. */
  function LastIndexOf(xs: seq<string>, x: string): (k: nat)
    requires x in xs
    ensures k < |xs| && xs[k] == x
    ensures forall j :: k < j < |xs| ==> xs[j] != x
  {
    if xs[|xs| - 1] == x then |xs| - 1
    else
      assert x in xs[..|xs| - 1] by {
        var i :| 0 <= i < |xs| && xs[i] == x;
        assert xs[..|xs| - 1][i] == x;
      }
      LastIndexOf(xs[..|xs| - 1], x)
  }

  /** The log file is `rag_logs/<timestamp>.json` unless a rewritten query
      is literally "timestamp", whose record would then replace the
      timestamp entry. */
  lemma SavedFileName(query: string, model: ChatModel, timestamp: string, qs: seq<string>, recordOf: string -> PyValue)
    requires "timestamp" !in qs
    ensures var results := Logged(InitialResults(model, timestamp), RagSteps(query, Returned(Some(qs)), recordOf));
      "timestamp" in results && FileNameFor(LogDirectory, results["timestamp"]) == LogDirectory + "/" + timestamp + ".json"
  {
    var steps := RagSteps(query, Returned(Some(qs)), recordOf);
    forall k | 0 <= k < |steps| ensures steps[k].0 != "timestamp" {
      if k >= 2 {
        QueryStepsAt(qs, recordOf, k - 2);
      }
    }
    FileNameKept(LogDirectory, model, timestamp, steps);
  }
}
