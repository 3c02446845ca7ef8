/**
 * Cutting-parameter recommendation (backend/parameter_recommendator.py):
 * check the query for its factors, resolve the metal, read its document,
 * gather the tool references and ask the model for a structured answer.
 * Every model call, the vector store, the metal table and the file system
 * are parameters.
 */
module ParameterRecommender {
  import opened Strings
  import opened Outcomes
  import opened Chat
  import opened PyValues
  import opened Retriever
  import opened Rater
  import opened ToolExtractor
  import opened MetalExtractor

  datatype YesNo = Yes | No

  /** The structured output of factors_check. */
  datatype Check = Check(judge: YesNo, tool: string, metal: string, operation: string, questionedParameters: string)

  /** The structured answer the model gives. */
  datatype Answer = Answer(questionedParameter: string, toolRange: string, metalRange: string,
                           combinedRange: string, thoughts: string)

  /** The Answer as the pydantic model the pipeline passes on. */
  function AnswerValue(a: Answer): (v: PyValue)
    ensures v.PyModel? && v.className == "Answer"
    ensures |v.fields| == 5 && v.fields[0] == ("questioned_parameter", PyStr(a.questionedParameter))
  {
    PyModel("Answer", [("questioned_parameter", PyStr(a.questionedParameter)),
                       ("tool_range", PyStr(a.toolRange)),
                       ("metal_range", PyStr(a.metalRange)),
                       ("combined_range", PyStr(a.combinedRange)),
                       ("thoughts", PyStr(a.thoughts))])
  }

  /** What parameter_recommendation returns when it does not raise: nothing
      (judge "no"), the missing-document pair, or the structured answer. */
  datatype Recommendation =
    | NoRecommendation
    | MissingMetalReferences(message: string)
    | Answered(answer: Answer)

  /** The Python value of a recommendation: None, `(message, False)`, or the Answer model. */
  function RecommendationValue(r: Recommendation): (v: PyValue)
    ensures r.NoRecommendation? <==> v.PyNone?
    ensures r.MissingMetalReferences? <==> v.PyTuple?
    ensures r.Answered? <==> v.PyModel?
  {
    match r
    case NoRecommendation => PyNone
    case MissingMetalReferences(message) => PyTuple([PyStr(message), PyBool(false)])
    case Answered(a) => AnswerValue(a)
  }

  /** The outside calls a run makes, in order. */
  datatype Step =
    | CheckedFactors(query: string)
    | MatchedMetal(metal: string)
    | ReadDocument(path: string)
    | SearchedTools(query: string)
    | Synthesized(messages: seq<Message>)

  /** Everything outside the function: the factor-check model, the metal
      table and `fuzz.ratio`, the file system (None when the file is
      missing), the vector store's ranking for a query (or the exception
      it raises), the table mappings,
      the two rating evaluators and their rules, and the answer model with
      its instructions. */
  datatype Services = Services(
    factorsCheck: string -> Outcome<Check>,
    entries: seq<MetalEntry>,
    ratio: (string, string) -> real,
    readFile: string -> Option<string>,
    search: string -> Outcome<seq<string>>,
    mappings: seq<TableRecord>,
    evaluator1: Evaluator,
    evaluator2: Evaluator,
    ratingRules: string,
    instructions: string,
    answerModel: seq<Message> -> Outcome<Answer>)

  /** A run: what the function returned or raised, and the calls it made. */
  datatype Run = Run(result: Outcome<Recommendation>, steps: seq<Step>)

  /** `if doc_path:` — present and non-empty. */
  predicate IsDocPath(p: Option<string>) {
    p.Some? && p.value != ""
  }

  function OrNone(refs: Option<seq<string>>): seq<string> {
    match refs
    case Some(rs) => rs
    case None => []
  }

  /** The reference list: the metal document when it is present and
      non-empty, then the tool references in order. */
  function Evidence(metalDoc: Option<string>, toolRefs: Option<seq<string>>): (refs: seq<string>)
    ensures metalDoc.Some? && metalDoc.value != "" ==> |refs| > 0 && refs[0] == metalDoc.value && refs[1..] == OrNone(toolRefs)
    ensures !(metalDoc.Some? && metalDoc.value != "") ==> refs == OrNone(toolRefs)
  {
    (if metalDoc.Some? && metalDoc.value != "" then [metalDoc.value] else []) + OrNone(toolRefs)
  }

  /** The message list for the answer model: its instructions, then the
      query with the references as a Python list. */
  function SynthesisMessages(instructions: string, query: string, references: seq<string>): seq<Message> {
    [SystemMessage(instructions), HumanMessage("Query: " + query + "\nReferences: " + Repr(StrList(references)))]
  }

  /** tool_search's outcome for the query. */
  function ToolRefs(query: string, s: Services): Outcome<Option<seq<string>>> {
    ToolSearchResult(query, s.search(query), s.mappings, s.evaluator1, s.evaluator2, s.ratingRules)
  }

  /** The metal resolver parameter_recommendation uses: fuzzy_match_metal
      at the default threshold. */
  function MetalResolver(s: Services): string -> MetalMatch {
    metal => FuzzyMatch(metal, s.entries, DefaultThreshold, s.ratio)
  }

  /** The answer model's part of a run: the messages built from the
      evidence, and the model's answer. */
  function Synthesis(query: string, metalDoc: Option<string>, toolRefs: Option<seq<string>>, s: Services): Run {
    var messages := SynthesisMessages(s.instructions, query, Evidence(metalDoc, toolRefs));
    match s.answerModel(messages)
    case Raised(e) => Run(Raised(e), [Synthesized(messages)])
    case Returned(a) => Run(Returned(Answered(a)), [Synthesized(messages)])
  }

  /** The tail of a run once the metal document is settled: the tool
      search (whose outcome is `tools`), then the answer model. */
  function Answering(query: string, metalDoc: Option<string>, tools: Outcome<Option<seq<string>>>, s: Services): Run {
    match tools
    case Raised(e) => Run(Raised(e), [SearchedTools(query)])
    case Returned(toolRefs) =>
      var tail := Synthesis(query, metalDoc, toolRefs, s);
      Run(tail.result, [SearchedTools(query)] + tail.steps)
  }

  /** Where the run stands after the metal document: stopped with a
      result, or going on with the document (None when there is no doc_path). */
  datatype DocumentStage = Stopped(stop: Outcome<Recommendation>) | Proceed(metalDoc: Option<string>)

  /** The document read for the doc_path the metal match found for
      `metalName`, and the calls made so far. */
  function ReadStage(metalName: string, docPath: Option<string>, s: Services): (DocumentStage, seq<Step>) {
    if !IsDocPath(docPath) then (Proceed(None), [MatchedMetal(metalName)])
    else
      var metalDoc := s.readFile(docPath.value);
      var before := [MatchedMetal(metalName), ReadDocument(docPath.value)];
      if metalDoc.None? then (Stopped(Returned(MissingMetalReferences("No metal references found for " + metalName))), before)
      else (Proceed(metalDoc), before)
  }

  /** The run after a complete factor check, from the metal match (which
      found `docPath` for `metalName`) on. */
  function Resolve(query: string, metalName: string, docPath: Option<string>, tools: Outcome<Option<seq<string>>>, s: Services): Run {
    var (stage, before) := ReadStage(metalName, docPath, s);
    match stage
    case Stopped(r) => Run(r, before)
    case Proceed(metalDoc) =>
      var tail := Answering(query, metalDoc, tools, s);
      Run(tail.result, before + tail.steps)
  }

  /** parameter_recommendation for any metal resolver and any tool-search
      outcome. */
  function RunWith(query: string, s: Services, resolver: string -> MetalMatch, tools: Outcome<Option<seq<string>>>): Run {
    match s.factorsCheck(query)
    case Raised(e) => Run(Raised(e), [CheckedFactors(query)])
    case Returned(check) =>
      if check.judge == No then Run(Returned(NoRecommendation), [CheckedFactors(query)])
      else
        var rest := Resolve(query, check.metal, resolver(check.metal).docPath, tools, s);
        Run(rest.result, [CheckedFactors(query)] + rest.steps)
  }

  /** parameter_recommendation, as a function of the query and the services. */
  function Recommend(query: string, s: Services): Run {
    RunWith(query, s, MetalResolver(s), ToolRefs(query, s))
  }

  /** parameter_recommendation: the factor check and its early exit, then
      the rest of the run. */
  method ParameterRecommendation(query: string, s: Services) returns (result: Outcome<Recommendation>, steps: seq<Step>)
    ensures Run(result, steps) == Recommend(query, s)
  {
    steps := [CheckedFactors(query)];
    var checked := s.factorsCheck(query);
    if checked.Raised? {
      return Raised(checked.error), steps;
    }
    var check := checked.value;
    if check.judge == No {
      return Returned(NoRecommendation), steps;
    }
    var rest;
    result, rest := ResolveMetal(query, check, s);
    steps := steps + rest;
  }

  /** The metal match, the document read with its early return, then the answer. */
  method ResolveMetal(query: string, check: Check, s: Services) returns (result: Outcome<Recommendation>, steps: seq<Step>)
    ensures Run(result, steps) == Resolve(query, check.metal, MetalResolver(s)(check.metal).docPath, ToolRefs(query, s), s)
  {
    var metalName := check.metal;
    var matched := FuzzyMatchMetal(metalName, s.entries, DefaultThreshold, s.ratio);
    var stage;
    stage, steps := ReadMetalDocument(metalName, matched.docPath, s);
    if stage.Stopped? {
      return stage.stop, steps;
    }
    var rest;
    result, rest := SynthesizeAnswer(query, stage.metalDoc, s);
    steps := steps + rest;
  }

  /** The document read, and the early return when the document file is missing. */
  method ReadMetalDocument(metalName: string, docPath: Option<string>, s: Services)
    returns (stage: DocumentStage, steps: seq<Step>)
    ensures (stage, steps) == ReadStage(metalName, docPath, s)
  {
    steps := [MatchedMetal(metalName)];
    var metalDoc: Option<string> := None;
    if IsDocPath(docPath) {
      steps := steps + [ReadDocument(docPath.value)];
      assert steps == [MatchedMetal(metalName), ReadDocument(docPath.value)];
      var contents := s.readFile(docPath.value);
      if contents.None? {
        return Stopped(Returned(MissingMetalReferences("No metal references found for " + metalName))), steps;
      }
      metalDoc := contents;
    }
    stage := Proceed(metalDoc);
  }

  /** The tool search, whose failure propagates, then the answer. */
  method SynthesizeAnswer(query: string, metalDoc: Option<string>, s: Services) returns (result: Outcome<Recommendation>, steps: seq<Step>)
    ensures Run(result, steps) == Answering(query, metalDoc, ToolRefs(query, s), s)
  {
    steps := [SearchedTools(query)];
    var toolRefs, _ := ToolSearch(query, s.search(query), s.mappings, s.evaluator1, s.evaluator2, s.ratingRules);
    if toolRefs.Raised? {
      return Raised(toolRefs.error), steps;
    }
    var rest;
    result, rest := AskModel(query, metalDoc, toolRefs.value, s);
    steps := steps + rest;
  }

  /** The evidence list built with `extend`, the message list built with
      `append`, and the answer model's reply. */
  method AskModel(query: string, metalDoc: Option<string>, toolRefs: Option<seq<string>>, s: Services)
    returns (result: Outcome<Recommendation>, steps: seq<Step>)
    ensures Run(result, steps) == Synthesis(query, metalDoc, toolRefs, s)
  {
    var references: seq<string> := if metalDoc.Some? && metalDoc.value != "" then [metalDoc.value] else [];
    references := references + OrNone(toolRefs);
    var messages := [SystemMessage(s.instructions)];
    messages := messages + [HumanMessage("Query: " + query + "\nReferences: " + Repr(StrList(references)))];
    assert references == Evidence(metalDoc, toolRefs);
    assert messages == SynthesisMessages(s.instructions, query, references);
    steps := [Synthesized(messages)];
    var response := s.answerModel(messages);
    if response.Raised? {
      return Raised(response.error), steps;
    }
    result := Returned(Answered(response.value));
  }

  /* ----- what a run does -----
     The lemmas hold for every metal resolver and every tool-search outcome,
     so in particular for Recommend, which fixes them. */

  /** The tail of a run starts with the tool search, makes no other kind of
      call than the answer model, and a value it returns is an answer. */
  lemma AnsweringShape(query: string, metalDoc: Option<string>, tools: Outcome<Option<seq<string>>>, s: Services)
    ensures var run := Answering(query, metalDoc, tools, s);
      && |run.steps| >= 1 && run.steps[0] == SearchedTools(query)
      && (forall st :: st in run.steps ==> st.SearchedTools? || st.Synthesized?)
      && (run.result.Returned? ==> run.result.value.Answered?)
  {
    match tools
    case Raised(e) =>
    case Returned(toolRefs) =>
      var tail := Synthesis(query, metalDoc, toolRefs, s);
      assert |tail.steps| == 1 && tail.steps[0].Synthesized?;
  }

  /** A judge of "no" ends the run after the factor check: no metal match,
      no file read, no tool search, and the value None. */
  lemma IncompleteQueryStops(query: string, s: Services, resolver: string -> MetalMatch, tools: Outcome<Option<seq<string>>>)
    requires s.factorsCheck(query).Returned? && s.factorsCheck(query).value.judge == No
    ensures RunWith(query, s, resolver, tools).result == Returned(NoRecommendation)
    ensures forall st :: st in RunWith(query, s, resolver, tools).steps ==> st.CheckedFactors?
  {
  }

  /** Once the factors are complete, the metal resolver is asked about
      exactly the extracted metal, right after the factor check; a file read
      only ever reads the doc_path the resolver returned for it. */
  lemma ResolverGetsExtractedMetal(query: string, s: Services, resolver: string -> MetalMatch, tools: Outcome<Option<seq<string>>>)
    requires s.factorsCheck(query).Returned? && s.factorsCheck(query).value.judge == Yes
    ensures var run := RunWith(query, s, resolver, tools);
      var metal := s.factorsCheck(query).value.metal;
      && |run.steps| >= 2
      && run.steps[0] == CheckedFactors(query)
      && run.steps[1] == MatchedMetal(metal)
      && forall st :: st in run.steps && st.ReadDocument? ==> resolver(metal).docPath == Some(st.path)
  {
    var check := s.factorsCheck(query).value;
    var docPath := resolver(check.metal).docPath;
    var metalDoc := if IsDocPath(docPath) then s.readFile(docPath.value) else None;
    AnsweringShape(query, metalDoc, tools, s);
  }

  /** A doc_path whose file is missing ends the run with the
      "No metal references found" pair before any tool search; it is the
      only way to get that pair. */
  lemma MissingDocumentStops(query: string, s: Services, resolver: string -> MetalMatch, tools: Outcome<Option<seq<string>>>)
    ensures var run := RunWith(query, s, resolver, tools);
      run.result.Returned? && run.result.value.MissingMetalReferences? <==>
        && s.factorsCheck(query).Returned?
        && s.factorsCheck(query).value.judge == Yes
        && IsDocPath(resolver(s.factorsCheck(query).value.metal).docPath)
        && s.readFile(resolver(s.factorsCheck(query).value.metal).docPath.value).None?
    ensures var run := RunWith(query, s, resolver, tools);
      run.result.Returned? && run.result.value.MissingMetalReferences? ==>
        && run.result.value.message == "No metal references found for " + s.factorsCheck(query).value.metal
        && forall st :: st in run.steps ==> !st.SearchedTools? && !st.Synthesized?
  {
    if s.factorsCheck(query).Returned? && s.factorsCheck(query).value.judge == Yes {
      var check := s.factorsCheck(query).value;
      var docPath := resolver(check.metal).docPath;
      var metalDoc := if IsDocPath(docPath) then s.readFile(docPath.value) else None;
      AnsweringShape(query, metalDoc, tools, s);
    }
  }

  /** Without a doc_path no file is read, and the run goes on to the tool
      search. */
  lemma NoDocumentNoRead(query: string, s: Services, resolver: string -> MetalMatch, tools: Outcome<Option<seq<string>>>)
    requires s.factorsCheck(query).Returned? && s.factorsCheck(query).value.judge == Yes
    requires !IsDocPath(resolver(s.factorsCheck(query).value.metal).docPath)
    ensures var run := RunWith(query, s, resolver, tools);
      && (forall st :: st in run.steps ==> !st.ReadDocument?)
      && SearchedTools(query) in run.steps
  {
    var check := s.factorsCheck(query).value;
    var tail := Answering(query, None, tools, s);
    AnsweringShape(query, None, tools, s);
    assert RunWith(query, s, resolver, tools).steps == [CheckedFactors(query), MatchedMetal(check.metal)] + tail.steps;
  }

  /** An answer comes from the answer model given the evidence: the metal
      document (when read and non-empty) followed by the accepted tool
      references; the tool search came before it. */
  lemma AnswerUsesEvidence(query: string, s: Services, resolver: string -> MetalMatch, tools: Outcome<Option<seq<string>>>)
    requires var run := RunWith(query, s, resolver, tools);
      run.result.Returned? && run.result.value.Answered?
    ensures var check := s.factorsCheck(query).value;
      var docPath := resolver(check.metal).docPath;
      var metalDoc := if IsDocPath(docPath) then s.readFile(docPath.value) else None;
      var run := RunWith(query, s, resolver, tools);
      && s.factorsCheck(query).Returned? && check.judge == Yes
      && tools.Returned?
      && var messages := SynthesisMessages(s.instructions, query, Evidence(metalDoc, tools.value));
         && s.answerModel(messages) == Returned(run.result.value.answer)
         && run.steps[|run.steps| - 1] == Synthesized(messages)
         && SearchedTools(query) in run.steps
  {
    var check := s.factorsCheck(query).value;
    var docPath := resolver(check.metal).docPath;
    var metalDoc := if IsDocPath(docPath) then s.readFile(docPath.value) else None;
    AnsweringShape(query, metalDoc, tools, s);
  }

  /** A raised tool search propagates out of the function. */
  lemma ToolSearchErrorPropagates(query: string, s: Services, resolver: string -> MetalMatch, tools: Outcome<Option<seq<string>>>)
    requires s.factorsCheck(query).Returned? && s.factorsCheck(query).value.judge == Yes
    requires var docPath := resolver(s.factorsCheck(query).value.metal).docPath;
      !(IsDocPath(docPath) && s.readFile(docPath.value).None?)
    requires tools.Raised?
    ensures RunWith(query, s, resolver, tools).result == Raised(tools.error)
    ensures forall st :: st in RunWith(query, s, resolver, tools).steps ==> !st.Synthesized?
  {
  }
}
