/**
 * Relevance rating (backend/rater.py): a reference is relevant when the
 * first evaluator says so or, failing that, the second one does. Both
 * evaluators are uninterpreted functions from the message list to their
 * structured feedback or the exception they raise; the evaluation rules
 * are the system prompt `rules`.
 */
module Rater {
  import opened Outcomes
  import opened Chat

  datatype Judge = Relevant | NotRelevant

  /** The structured feedback; `judge` may be missing (it defaults to None). */
  datatype Feedback = Feedback(thought: string, judge: Option<Judge>)

  /** An evaluator call: the structured feedback, or the exception the
      model call raises. */
  type Evaluator = seq<Message> -> Outcome<Feedback>

  /** One evaluator invocation: which evaluator (1 or 2) and what it was sent. */
  datatype Evaluation = Evaluation(evaluator: nat, messages: seq<Message>)

  /** The decision (or the exception that escaped `rating`) and the
      evaluator invocations that led to it, in order. */
  datatype RatingRun = RatingRun(decision: Outcome<bool>, evaluations: seq<Evaluation>)

  predicate JudgedRelevant(f: Feedback) {
    f.judge == Some(Relevant)
  }

  /** An evaluator call that returned and judged "relevant". */
  predicate SaysRelevant(o: Outcome<Feedback>) {
    o.Returned? && JudgedRelevant(o.value)
  }

  /** The two messages `evaluate` sends: the rules, then the query and reference. */
  function RatingMessages(rules: string, reference: string, query: string): seq<Message> {
    [SystemMessage(rules), HumanMessage("Query: " + query + "\nReference: " + reference)]
  }

  /** rating: ask evaluator 1; only when it returns without judging
      "relevant", ask evaluator 2. An exception from either escapes. */
  function Rating(evaluator1: Evaluator, evaluator2: Evaluator, rules: string, reference: string, query: string): (r: RatingRun)
    ensures |r.evaluations| >= 1 && r.evaluations[0].evaluator == 1
  {
    var messages := RatingMessages(rules, reference, query);
    match evaluator1(messages)
    case Raised(e) => RatingRun(Raised(e), [Evaluation(1, messages)])
    case Returned(decision1) =>
      if JudgedRelevant(decision1) then RatingRun(Returned(true), [Evaluation(1, messages)])
      else
        var evaluations := [Evaluation(1, messages), Evaluation(2, messages)];
        match evaluator2(messages)
        case Raised(e) => RatingRun(Raised(e), evaluations)
        case Returned(decision2) => RatingRun(Returned(JudgedRelevant(decision2)), evaluations)
  }

  /** A reference is rated relevant exactly when evaluator 1 judges it
      relevant, or evaluator 1 returns another judgement and evaluator 2
      judges it relevant. */
  lemma RatingIsEitherRelevant(evaluator1: Evaluator, evaluator2: Evaluator, rules: string, reference: string, query: string)
    ensures var messages := RatingMessages(rules, reference, query);
      (Rating(evaluator1, evaluator2, rules, reference, query).decision == Returned(true)
       <==> SaysRelevant(evaluator1(messages)) || (evaluator1(messages).Returned? && SaysRelevant(evaluator2(messages))))
  {
  }

  /** `rating` raises exactly when evaluator 1 raises, or evaluator 1
      returns without judging "relevant" and evaluator 2 raises; the
      exception is the evaluator's own. */
  lemma RatingRaisesIff(evaluator1: Evaluator, evaluator2: Evaluator, rules: string, reference: string, query: string)
    ensures var messages := RatingMessages(rules, reference, query);
      var d1, d2 := evaluator1(messages), evaluator2(messages);
      var decision := Rating(evaluator1, evaluator2, rules, reference, query).decision;
      && (decision.Raised? <==> d1.Raised? || (d1.Returned? && !JudgedRelevant(d1.value) && d2.Raised?))
      && (d1.Raised? ==> decision == Raised(d1.error))
      && (d1.Returned? && !JudgedRelevant(d1.value) && d2.Raised? ==> decision == Raised(d2.error))
  {
  }

  /** Evaluator 1 runs exactly once; evaluator 2 runs once exactly when
      evaluator 1 returned without judging "relevant" (a missing judge
      included), and never after evaluator 1 raised. */
  lemma RatingCalls(evaluator1: Evaluator, evaluator2: Evaluator, rules: string, reference: string, query: string)
    ensures var messages := RatingMessages(rules, reference, query);
      var d1 := evaluator1(messages);
      var evaluations := Rating(evaluator1, evaluator2, rules, reference, query).evaluations;
      && evaluations[0].evaluator == 1
      && (d1.Raised? || JudgedRelevant(d1.value) ==> |evaluations| == 1)
      && (d1.Returned? && !JudgedRelevant(d1.value) ==> |evaluations| == 2 && evaluations[1].evaluator == 2)
  {
  }

  /** Both evaluators receive the same messages. */
  lemma RatingSameMessages(evaluator1: Evaluator, evaluator2: Evaluator, rules: string, reference: string, query: string)
    ensures forall e :: e in Rating(evaluator1, evaluator2, rules, reference, query).evaluations ==>
      e.messages == RatingMessages(rules, reference, query)
  {
  }

  /** A reference that neither evaluator judges "relevant" (a missing judge
      counts as not relevant) is rejected. */
  lemma MissingJudgeRejects(evaluator1: Evaluator, evaluator2: Evaluator, rules: string, reference: string, query: string)
    requires var messages := RatingMessages(rules, reference, query);
      && evaluator1(messages).Returned? && evaluator1(messages).value.judge != Some(Relevant)
      && evaluator2(messages).Returned? && evaluator2(messages).value.judge.None?
    ensures Rating(evaluator1, evaluator2, rules, reference, query).decision == Returned(false)
  {
  }
}
