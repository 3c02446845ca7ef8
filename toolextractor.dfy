/**
 * Tool-reference filtering (backend/tool_extrator.py): retrieve the top
 * references for the query and keep the ones `rating` accepts. The vector
 * store's search and both evaluators may raise; their exceptions escape.
 */
module ToolExtractor {
  import opened Outcomes
  import opened Retriever
  import opened Rater

  /** The number of chunks tool_search asks the vector store for. */
  const TopK: nat := 5

  /** The hits the vector store gives for `k = TopK`: the first TopK chunks
      of its ranking. */
  function TopHits(ranked: seq<string>): (hits: seq<string>)
    ensures |hits| <= TopK && |hits| <= |ranked| && hits == ranked[..|hits|]
    ensures |ranked| <= TopK ==> hits == ranked
  {
    if |ranked| <= TopK then ranked else ranked[..TopK]
  }

  /** tool_search's `rating` for the query: the run for one reference. */
  function Rate(evaluator1: Evaluator, evaluator2: Evaluator, rules: string, query: string): string -> RatingRun {
    reference => Rating(evaluator1, evaluator2, rules, reference, query)
  }

  /** Whether a rating returns True for a reference. */
  function Accepts(rate: string -> RatingRun): string -> bool {
    reference => rate(reference).decision == Returned(true)
  }

  /** The elements `keep` accepts, in their original order. */
  function Kept<T>(xs: seq<T>, keep: T -> bool): seq<T> {
    if xs == [] then []
    else
      var before := Kept(xs[..|xs| - 1], keep);
      var last := xs[|xs| - 1];
      if keep(last) then before + [last] else before
  }

  lemma {:induction false} KeptStep<T>(xs: seq<T>, x: T, keep: T -> bool)
    ensures Kept(xs + [x], keep) == if keep(x) then Kept(xs, keep) + [x] else Kept(xs, keep)
  {
    assert (xs + [x])[..|xs|] == xs;
  }

  /** What the rating loop leaves: the accepted references in order, or the
      exception of the first rating that raises. */
  function Rated(refs: seq<string>, rate: string -> RatingRun): Outcome<seq<string>> {
    if refs == [] then Returned([])
    else
      match Rated(refs[..|refs| - 1], rate)
      case Raised(e) => Raised(e)
      case Returned(kept) =>
        var last := refs[|refs| - 1];
        match rate(last).decision
        case Raised(e) => Raised(e)
        case Returned(relevant) => Returned(if relevant then kept + [last] else kept)
  }

  /** tool_search's outcome for the retrieved references: the accepted ones,
      None when there are none, or the exception a rating raised. */
  function Filtered(refs: seq<string>, rate: string -> RatingRun): Outcome<Option<seq<string>>> {
    match Rated(refs, rate)
    case Raised(e) => Raised(e)
    case Returned(kept) => Returned(if kept == [] then None else Some(kept))
  }

  /** The rating runs made, in order: one per reference, up to and
      including the first one that raises. */
  function Ratings(refs: seq<string>, rate: string -> RatingRun): (r: seq<RatingRun>)
    ensures |r| <= |refs|
  {
    if refs == [] then []
    else
      var init := refs[..|refs| - 1];
      var before := Ratings(init, rate);
      if Rated(init, rate).Raised? then before else before + [rate(refs[|refs| - 1])]
  }

  /** Rating reference i, when the references before it were all rated,
      extends both the loop's outcome and the rating runs. */
  lemma RateStep(refs: seq<string>, i: nat, rate: string -> RatingRun)
    requires i < |refs| && Rated(refs[..i], rate).Returned?
    ensures var run := rate(refs[i]);
      var kept := Rated(refs[..i], rate).value;
      && Rated(refs[..i + 1], rate)
         == (match run.decision
             case Raised(e) => Raised(e)
             case Returned(relevant) => Returned(if relevant then kept + [refs[i]] else kept))
      && Ratings(refs[..i + 1], rate) == Ratings(refs[..i], rate) + [run]
  {
    assert refs[..i + 1][..i] == refs[..i];
  }

  /** Once a prefix of the references raises, the rest are never rated. */
  lemma {:induction false} RatedRaisedPrefix(refs: seq<string>, k: nat, rate: string -> RatingRun)
    requires k <= |refs| && Rated(refs[..k], rate).Raised?
    ensures Rated(refs, rate) == Rated(refs[..k], rate)
    ensures Ratings(refs, rate) == Ratings(refs[..k], rate)
    decreases |refs| - k
  {
    if k < |refs| {
      assert refs[..k + 1][..k] == refs[..k];
      RatedRaisedPrefix(refs, k + 1, rate);
    } else {
      assert refs[..k] == refs;
    }
  }

  /** The loop of tool_search: rate each retrieved reference in order, keep
      the accepted ones, and give None when none is accepted; an exception
      from `rating` ends the loop and escapes. Also returns the rating runs. */
  method RateReferences(query: string, refs: seq<string>, evaluator1: Evaluator, evaluator2: Evaluator, rules: string)
    returns (result: Outcome<Option<seq<string>>>, ratings: seq<RatingRun>)
    ensures result == Filtered(refs, Rate(evaluator1, evaluator2, rules, query))
    ensures ratings == Ratings(refs, Rate(evaluator1, evaluator2, rules, query))
  {
    ghost var rate := Rate(evaluator1, evaluator2, rules, query);
    var filteredReference: seq<string> := [];
    ratings := [];
    var i := 0;
    while i < |refs|
      invariant i <= |refs|
      invariant Rated(refs[..i], rate) == Returned(filteredReference)
      invariant ratings == Ratings(refs[..i], rate)
    {
      var each := refs[i];
      var feedback := Rating(evaluator1, evaluator2, rules, each, query);
      assert feedback == rate(each);
      RateStep(refs, i, rate);
      ratings := ratings + [feedback];
      if feedback.decision.Raised? {
        RatedRaisedPrefix(refs, i + 1, rate);
        return Raised(feedback.decision.error), ratings;
      }
      if feedback.decision.value {
        filteredReference := filteredReference + [each];
      }
      i := i + 1;
    }
    assert refs[..i] == refs;
    if |filteredReference| != 0 {
      result := Returned(Some(filteredReference));
    } else {
      result := Returned(None);
    }
  }

  /** tool_search's outcome for the vector store's ranking (or the exception
      the store raised): the references of the top hits, filtered. */
  function ToolSearchResult(query: string, ranked: Outcome<seq<string>>, mappings: seq<TableRecord>,
                            evaluator1: Evaluator, evaluator2: Evaluator, rules: string): Outcome<Option<seq<string>>> {
    match ranked
    case Raised(e) => Raised(e)
    case Returned(rs) =>
      match References(TopHits(rs), mappings)
      case Raised(e) => Raised(e)
      case Returned(refs) => Filtered(refs, Rate(evaluator1, evaluator2, rules, query))
  }

  /** tool_search: similarity_search over the top hits, whose failure
      propagates before any rating, then the rating loop. */
  method ToolSearch(query: string, ranked: Outcome<seq<string>>, mappings: seq<TableRecord>,
                    evaluator1: Evaluator, evaluator2: Evaluator, rules: string)
    returns (result: Outcome<Option<seq<string>>>, ratings: seq<RatingRun>)
    ensures result == ToolSearchResult(query, ranked, mappings, evaluator1, evaluator2, rules)
    ensures ranked.Raised? || References(TopHits(ranked.value), mappings).Raised? ==> ratings == []
    ensures ranked.Returned? && References(TopHits(ranked.value), mappings).Returned? ==>
      ratings == Ratings(References(TopHits(ranked.value), mappings).value, Rate(evaluator1, evaluator2, rules, query))
  {
    if ranked.Raised? {
      return Raised(ranked.error), [];
    }
    var retrieved := SimilaritySearch(TopHits(ranked.value), mappings);
    if retrieved.Raised? {
      return Raised(retrieved.error), [];
    }
    result, ratings := RateReferences(query, retrieved.value, evaluator1, evaluator2, rules);
  }

  /** The loop finishes exactly when no rating raises. */
  lemma {:induction false} RatedReturnsIff(refs: seq<string>, rate: string -> RatingRun)
    ensures Rated(refs, rate).Returned? <==> forall k :: 0 <= k < |refs| ==> rate(refs[k]).decision.Returned?
    decreases |refs|
  {
    if refs != [] {
      var n := |refs|;
      var init := refs[..n - 1];
      RatedReturnsIff(init, rate);
      forall k | 0 <= k < n - 1 ensures refs[k] == init[k] {}
    }
  }

  /** When the loop finishes, the kept references are exactly those rated
      True, in order. */
  lemma {:induction false} RatedIsKept(refs: seq<string>, rate: string -> RatingRun)
    requires Rated(refs, rate).Returned?
    ensures Rated(refs, rate).value == Kept(refs, Accepts(rate))
    decreases |refs|
  {
    if refs != [] {
      var n := |refs|;
      var init := refs[..n - 1];
      var last := refs[n - 1];
      RatedIsKept(init, rate);
      assert refs == init + [last];
      KeptStep(init, last, Accepts(rate));
      assert Accepts(rate)(last) == (rate(last).decision == Returned(true));
    }
  }

  /** When the loop finishes, every reference was rated once, in order. */
  lemma {:induction false} RatingsPointwise(refs: seq<string>, rate: string -> RatingRun)
    requires Rated(refs, rate).Returned?
    ensures var runs := Ratings(refs, rate);
      |runs| == |refs| && forall k :: 0 <= k < |refs| ==> runs[k] == rate(refs[k])
    decreases |refs|
  {
    if refs != [] {
      var n := |refs|;
      var init := refs[..n - 1];
      RatingsPointwise(init, rate);
      forall k | 0 <= k < n - 1 ensures refs[k] == init[k] {}
    }
  }

  /** When the loop raises, it raises the exception of the first rating that
      raises, and no reference after that one is rated. */
  lemma RatedRaisesFirst(refs: seq<string>, rate: string -> RatingRun)
    requires Rated(refs, rate).Raised?
    ensures exists k :: (&& FirstRaise(refs, rate, k)
                         && rate(refs[k]).decision == Raised(Rated(refs, rate).error)
                         && Ratings(refs, rate) == Ratings(refs[..k + 1], rate))
  {
    FirstRaiseExists(refs, rate);
    var k :| FirstRaise(refs, rate, k);
    RatedReturnsIff(refs[..k], rate);
    assert Rated(refs[..k], rate).Returned?;
    RateStep(refs, k, rate);
    RatedRaisedPrefix(refs, k + 1, rate);
  }

  /** Some rating is the first to raise when the loop raises. */
  lemma {:induction false} FirstRaiseExists(refs: seq<string>, rate: string -> RatingRun)
    requires Rated(refs, rate).Raised?
    ensures exists k :: FirstRaise(refs, rate, k)
    decreases |refs|
  {
    var n := |refs|;
    var init := refs[..n - 1];
    forall j | 0 <= j < n - 1 ensures refs[j] == init[j] {}
    if Rated(init, rate).Raised? {
      FirstRaiseExists(init, rate);
      var k :| FirstRaise(init, rate, k);
      assert FirstRaise(refs, rate, k);
    } else {
      RatedReturnsIff(init, rate);
      assert FirstRaise(refs, rate, n - 1);
    }
  }

  /** Rating k is the first that raises. */
  predicate FirstRaise(refs: seq<string>, rate: string -> RatingRun, k: int) {
    && 0 <= k < |refs|
    && rate(refs[k]).decision.Raised?
    && forall j :: 0 <= j < k ==> rate(refs[j]).decision.Returned?
  }

  /** The accepted elements are picked out of `ys` by the strictly
      increasing indices `idx`: each picked element is accepted, and every
      position holding an accepted element is picked. */
  predicate PicksAccepted<T(==)>(xs: seq<T>, ys: seq<T>, keep: T -> bool, idx: seq<nat>) {
    && |idx| == |xs|
    && (forall k :: 0 <= k < |idx| ==> idx[k] < |ys| && xs[k] == ys[idx[k]] && keep(ys[idx[k]]))
    && (forall k, l :: 0 <= k < l < |idx| ==> idx[k] < idx[l])
    && (forall k :: 0 <= k < |ys| && keep(ys[k]) ==> k in idx)
  }

  /** Kept keeps exactly the accepted elements, in order, one per position
      that holds one. */
  lemma {:induction false} KeptIsOrderedSubsequence<T>(xs: seq<T>, keep: T -> bool)
    ensures exists idx :: PicksAccepted(Kept(xs, keep), xs, keep, idx)
    decreases |xs|
  {
    if xs == [] {
      assert PicksAccepted(Kept(xs, keep), xs, keep, []);
    } else {
      var init := xs[..|xs| - 1];
      KeptIsOrderedSubsequence(init, keep);
      var idx: seq<nat> :| PicksAccepted(Kept(init, keep), init, keep, idx);
      var last := xs[|xs| - 1];
      assert xs == init + [last];
      KeptStep(init, last, keep);
      if keep(last) {
        PicksExtendKept(Kept(init, keep), init, last, keep, idx);
      } else {
        PicksExtendDropped(Kept(init, keep), init, last, keep, idx);
      }
    }
  }

  /** Indices picking `kept` out of a prefix, extended by the last index,
      pick `kept + [last]` when the last element is accepted. */
  lemma PicksExtendKept<T>(kept: seq<T>, init: seq<T>, last: T, keep: T -> bool, idx: seq<nat>)
    requires keep(last) && PicksAccepted(kept, init, keep, idx)
    ensures PicksAccepted(kept + [last], init + [last], keep, idx + [|init|])
  {
    var xs := init + [last];
    var idx' := idx + [|init|];
    forall k | 0 <= k < |idx'| ensures idx'[k] < |xs| && (kept + [last])[k] == xs[idx'[k]] && keep(xs[idx'[k]]) {
      if k < |idx| {
        assert idx'[k] == idx[k] && xs[idx[k]] == init[idx[k]];
      }
    }
    forall k | 0 <= k < |xs| && keep(xs[k]) ensures k in idx' {
      if k < |init| {
        assert xs[k] == init[k] && k in idx;
      } else {
        assert idx'[|idx|] == k;
      }
    }
  }

  /** The same indices still pick `kept` when the last element is not
      accepted. */
  lemma PicksExtendDropped<T>(kept: seq<T>, init: seq<T>, last: T, keep: T -> bool, idx: seq<nat>)
    requires !keep(last) && PicksAccepted(kept, init, keep, idx)
    ensures PicksAccepted(kept, init + [last], keep, idx)
  {
    var xs := init + [last];
    forall k | 0 <= k < |idx| ensures xs[idx[k]] == init[idx[k]] {}
    forall k | 0 <= k < |xs| && keep(xs[k]) ensures k in idx {
      assert k < |init| && xs[k] == init[k];
    }
  }

  /** A result is non-empty and no longer than the retrieved list; None
      means every rating returned False; an exception means some rating
      raised. */
  lemma {:induction false} FilteredBounds(refs: seq<string>, rate: string -> RatingRun)
    ensures var r := Filtered(refs, rate);
      && (r.Returned? && r.value.Some? ==> 0 < |r.value.value| <= |refs|)
      && (r == Returned(None) <==> forall k :: 0 <= k < |refs| ==> rate(refs[k]).decision == Returned(false))
      && (r.Raised? <==> exists k :: 0 <= k < |refs| && rate(refs[k]).decision.Raised?)
  {
    var keep := Accepts(rate);
    RatedReturnsIff(refs, rate);
    KeptIsOrderedSubsequence(refs, keep);
    var kept := Kept(refs, keep);
    var idx: seq<nat> :| PicksAccepted(kept, refs, keep, idx);
    if Rated(refs, rate).Returned? {
      RatedIsKept(refs, rate);
      if kept != [] {
        IncreasingIndicesBound(idx, |refs|);
        assert keep(refs[idx[0]]);
      } else {
        forall k | 0 <= k < |refs| ensures rate(refs[k]).decision == Returned(false) {
          assert k !in idx;
          assert !keep(refs[k]) && rate(refs[k]).decision.Returned?;
          assert rate(refs[k]).decision != Returned(true);
          assert !rate(refs[k]).decision.value;
        }
      }
    }
  }

  /** tool_search keeps at most TopK references. */
  lemma ToolSearchAtMostTopK(query: string, ranked: Outcome<seq<string>>, mappings: seq<TableRecord>,
                             evaluator1: Evaluator, evaluator2: Evaluator, rules: string)
    ensures var r := ToolSearchResult(query, ranked, mappings, evaluator1, evaluator2, rules);
      r.Returned? && r.value.Some? ==> 0 < |r.value.value| <= TopK
  {
    if ranked.Returned? && References(TopHits(ranked.value), mappings).Returned? {
      FilteredBounds(References(TopHits(ranked.value), mappings).value, Rate(evaluator1, evaluator2, rules, query));
    }
  }

  /** Strictly increasing indices below n number at most n. */
  lemma {:induction false} IncreasingIndicesBound(idx: seq<nat>, n: nat)
    requires forall k :: 0 <= k < |idx| ==> idx[k] < n
    requires forall k, l :: 0 <= k < l < |idx| ==> idx[k] < idx[l]
    ensures |idx| <= n
    decreases |idx|
  {
    if idx != [] {
      var init := idx[..|idx| - 1];
      IncreasingIndicesBound(init, idx[|idx| - 1]);
    }
  }
}
