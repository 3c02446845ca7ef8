/**
 * Material resolution (backend/metal_extractor.py): the query is scored
 * against every main name and alias of the metal table, and the entry that
 * owns the best-scoring candidate wins if its score reaches the threshold.
 * `fuzz.ratio` is an uninterpreted scoring function.
 */
module MetalExtractor {
  import opened Strings
  import opened Outcomes

  /** One entry of the metal table: its key, its aliases (an entry without an
      `aliases` key has none) and its `doc_path`, if any. */
  datatype MetalEntry = MetalEntry(mainName: string, aliases: seq<string>, docPath: Option<string>)

  /** The result triple: (main name, doc_path, score), or (None, None, 0). */
  datatype MetalMatch = MetalMatch(mainName: Option<string>, docPath: Option<string>, score: real)

  const DefaultThreshold: int := 80

  const NoMatch: MetalMatch := MetalMatch(None, None, 0.0)

  /** `s.strip().lower()`. */
  function Normalize(s: string): string {
    Lower(Strip(s))
  }

  /** A name the query is compared with, and the index of the entry that owns it. */
  datatype Candidate = Candidate(owner: nat, name: string)

  /** Entry i's candidates in the order they are scored: the main name, then each alias. */
  function EntryCandidates(i: nat, e: MetalEntry): (cs: seq<Candidate>)
    ensures |cs| == 1 + |e.aliases|
  {
    [Candidate(i, e.mainName)] + AliasCandidates(i, e.aliases)
  }

  function AliasCandidates(i: nat, aliases: seq<string>): (cs: seq<Candidate>)
    ensures |cs| == |aliases|
  {
    seq(|aliases|, k requires 0 <= k < |aliases| => Candidate(i, aliases[k]))
  }

  /** The candidates of the first n entries, in iteration order. */
  function CandidatesOf(entries: seq<MetalEntry>, n: nat): (cs: seq<Candidate>)
    requires n <= |entries|
    ensures forall k :: 0 <= k < |cs| ==> cs[k].owner < n
  {
    if n == 0 then [] else CandidatesOf(entries, n - 1) + EntryCandidates(n - 1, entries[n - 1])
  }

  function Score(query: string, c: Candidate, ratio: (string, string) -> real): real {
    ratio(Normalize(query), Normalize(c.name))
  }

  /** The running state of the scan: the best score so far and the entry that reached it. */
  datatype Best = Best(score: real, owner: Option<nat>)

  /** The scan over the candidates: start at (0, None), take a candidate only
      when it scores strictly more. */
  function Scan(query: string, cs: seq<Candidate>, ratio: (string, string) -> real): Best {
    if cs == [] then Best(0.0, None)
    else
      var before := Scan(query, cs[..|cs| - 1], ratio);
      var c := cs[|cs| - 1];
      var score := Score(query, c, ratio);
      if score > before.score then Best(score, Some(c.owner)) else before
  }

  /** The outcome for a scan result: a match when the best score reaches the
      threshold and the matched key is a non-empty string. */
  function Decide(entries: seq<MetalEntry>, best: Best, threshold: int): MetalMatch
    requires best.owner.Some? ==> best.owner.value < |entries|
  {
    if best.score >= threshold as real && best.owner.Some? && entries[best.owner.value].mainName != "" then
      var e := entries[best.owner.value];
      MetalMatch(Some(e.mainName), e.docPath, best.score)
    else NoMatch
  }

  lemma {:induction false} ScanOwner(query: string, cs: seq<Candidate>, ratio: (string, string) -> real, n: nat)
    requires forall k :: 0 <= k < |cs| ==> cs[k].owner < n
    ensures Scan(query, cs, ratio).owner.Some? ==> Scan(query, cs, ratio).owner.value < n
    decreases |cs|
  {
    if cs != [] {
      ScanOwner(query, cs[..|cs| - 1], ratio, n);
    }
  }

  /** What fuzzy_match_metal returns for this table. */
  function FuzzyMatch(query: string, entries: seq<MetalEntry>, threshold: int, ratio: (string, string) -> real): MetalMatch {
    var cs := CandidatesOf(entries, |entries|);
    ScanOwner(query, cs, ratio, |entries|);
    Decide(entries, Scan(query, cs, ratio), threshold)
  }

  /** One more candidate: the scan takes it exactly when it scores strictly more. */
  lemma {:induction false} ScanStep(query: string, cs: seq<Candidate>, c: Candidate, ratio: (string, string) -> real)
    ensures var before := Scan(query, cs, ratio);
      Scan(query, cs + [c], ratio)
        == if Score(query, c, ratio) > before.score then Best(Score(query, c, ratio), Some(c.owner)) else before
  {
    assert (cs + [c])[..|cs|] == cs;
  }

  lemma {:induction false} AliasCandidatesStep(i: nat, aliases: seq<string>, j: nat)
    requires j < |aliases|
    ensures AliasCandidates(i, aliases[..j + 1]) == AliasCandidates(i, aliases[..j]) + [Candidate(i, aliases[j])]
  {
  }

  /** Scanning one more alias of entry i. */
  lemma ScanAliasStep(query: string, done: seq<Candidate>, i: nat, aliases: seq<string>, j: nat, ratio: (string, string) -> real)
    requires j < |aliases|
    ensures var before := Scan(query, done + AliasCandidates(i, aliases[..j]), ratio);
      var score := Score(query, Candidate(i, aliases[j]), ratio);
      Scan(query, done + AliasCandidates(i, aliases[..j + 1]), ratio)
        == if score > before.score then Best(score, Some(i)) else before
  {
    var before := done + AliasCandidates(i, aliases[..j]);
    ScanStep(query, before, Candidate(i, aliases[j]), ratio);
    AliasCandidatesStep(i, aliases, j);
    assert done + AliasCandidates(i, aliases[..j + 1]) == before + [Candidate(i, aliases[j])];
  }

  /** The body of the outer loop for entry i: score its main name, then each
      alias, updating the best score and matched entry on a strictly greater score. */
  method ScoreEntry(query: string, i: nat, entry: MetalEntry, ratio: (string, string) -> real,
                    ghost seen: seq<Candidate>, bestScore: real, matchedEntry: Option<nat>)
    returns (newScore: real, newMatch: Option<nat>)
    requires Best(bestScore, matchedEntry) == Scan(query, seen, ratio)
    ensures Best(newScore, newMatch) == Scan(query, seen + EntryCandidates(i, entry), ratio)
    ensures newMatch == matchedEntry || newMatch == Some(i)
  {
    newScore, newMatch := bestScore, matchedEntry;
    var queryNorm := Normalize(query);
    var score := ratio(queryNorm, Normalize(entry.mainName));
    ScanStep(query, seen, Candidate(i, entry.mainName), ratio);
    if score > newScore {
      newScore, newMatch := score, Some(i);
    }
    ghost var done := seen + [Candidate(i, entry.mainName)];
    newScore, newMatch := ScoreAliases(query, queryNorm, i, entry.aliases, ratio, done, newScore, newMatch);
    assert done + AliasCandidates(i, entry.aliases) == seen + EntryCandidates(i, entry);
  }

  /** The inner loop over an entry's aliases. */
  method ScoreAliases(query: string, queryNorm: string, i: nat, aliases: seq<string>, ratio: (string, string) -> real,
                      ghost done: seq<Candidate>, bestScore: real, matchedEntry: Option<nat>)
    returns (newScore: real, newMatch: Option<nat>)
    requires queryNorm == Normalize(query)
    requires Best(bestScore, matchedEntry) == Scan(query, done, ratio)
    ensures Best(newScore, newMatch) == Scan(query, done + AliasCandidates(i, aliases), ratio)
    ensures newMatch == matchedEntry || newMatch == Some(i)
  {
    newScore, newMatch := bestScore, matchedEntry;
    var j := 0;
    assert done + AliasCandidates(i, aliases[..0]) == done;
    while j < |aliases|
      invariant j <= |aliases|
      invariant Best(newScore, newMatch) == Scan(query, done + AliasCandidates(i, aliases[..j]), ratio)
      invariant newMatch == matchedEntry || newMatch == Some(i)
    {
      var alias := aliases[j];
      var score := ratio(queryNorm, Normalize(alias));
      ScanAliasStep(query, done, i, aliases, j, ratio);
      if score > newScore {
        newScore, newMatch := score, Some(i);
      }
      j := j + 1;
    }
    assert aliases[..j] == aliases;
  }

  /** fuzzy_match_metal, with the JSON file already loaded into `entries` (in
      file order) and `fuzz.ratio` given as `ratio`. The matched key is kept
      as the index of its entry; the source's `best_main_name` is always that
      entry's key. */
  method FuzzyMatchMetal(query: string, entries: seq<MetalEntry>, threshold: int, ratio: (string, string) -> real)
    returns (result: MetalMatch)
    ensures result == FuzzyMatch(query, entries, threshold, ratio)
  {
    var bestScore, matchedKey := ScanTable(query, entries, ratio);
    if bestScore >= threshold as real && matchedKey.Some? && entries[matchedKey.value].mainName != "" {
      var bestMainName := entries[matchedKey.value].mainName;
      var bestDocPath := entries[matchedKey.value].docPath;
      result := MetalMatch(Some(bestMainName), bestDocPath, bestScore);
    } else {
      result := NoMatch;
    }
  }

  /** The outer loop of fuzzy_match_metal over the entries, in file order. */
  method ScanTable(query: string, entries: seq<MetalEntry>, ratio: (string, string) -> real)
    returns (bestScore: real, matchedKey: Option<nat>)
    ensures Best(bestScore, matchedKey) == Scan(query, CandidatesOf(entries, |entries|), ratio)
    ensures matchedKey.Some? ==> matchedKey.value < |entries|
  {
    bestScore, matchedKey := 0.0, None;
    var i := 0;
    while i < |entries|
      invariant i <= |entries|
      invariant Best(bestScore, matchedKey) == Scan(query, CandidatesOf(entries, i), ratio)
      invariant matchedKey.Some? ==> matchedKey.value < i
    {
      bestScore, matchedKey := ScoreEntry(query, i, entries[i], ratio, CandidatesOf(entries, i), bestScore, matchedKey);
      i := i + 1;
    }
  }

  /* ----- what the scan computes ----- */

  /** The scan's score bounds every candidate's score from above, and is never negative. */
  lemma {:induction false} ScanIsUpperBound(query: string, cs: seq<Candidate>, ratio: (string, string) -> real)
    ensures Scan(query, cs, ratio).score >= 0.0
    ensures forall k :: 0 <= k < |cs| ==> Score(query, cs[k], ratio) <= Scan(query, cs, ratio).score
    decreases |cs|
  {
    if cs != [] {
      var init := cs[..|cs| - 1];
      ScanIsUpperBound(query, init, ratio);
      forall k | 0 <= k < |cs| - 1 ensures Score(query, cs[k], ratio) <= Scan(query, cs, ratio).score {
        assert cs[k] == init[k];
      }
    }
  }

  /** The candidate the scan picked: it owns the result, reaches the best
      score, and every earlier candidate scores strictly less (the first
      one wins a tie). */
  predicate FirstBestAt(query: string, cs: seq<Candidate>, ratio: (string, string) -> real, best: Best, k: int) {
    && 0 <= k < |cs|
    && best.owner == Some(cs[k].owner)
    && Score(query, cs[k], ratio) == best.score
    && forall j :: 0 <= j < k ==> Score(query, cs[j], ratio) < best.score
  }

  /** The scan has an owner exactly when some candidate scores above 0, and
      then the owner is that of the first candidate reaching the best score;
      without an owner the score stays 0. */
  lemma ScanPicksFirstBest(query: string, cs: seq<Candidate>, ratio: (string, string) -> real)
    ensures var best := Scan(query, cs, ratio);
      && (best.owner.Some? <==> AnyPositive(query, cs, ratio))
      && (best.owner.Some? ==> exists k :: FirstBestAt(query, cs, ratio, best, k))
      && (best.owner.None? ==> best.score == 0.0)
  {
    ScanOwnerIff(query, cs, ratio);
    ScanFirstBest(query, cs, ratio);
  }

  lemma {:induction false} ScanOwnerIff(query: string, cs: seq<Candidate>, ratio: (string, string) -> real)
    ensures var best := Scan(query, cs, ratio);
      && (best.owner.Some? <==> AnyPositive(query, cs, ratio))
      && (best.owner.None? ==> best.score == 0.0)
    decreases |cs|
  {
    if cs != [] {
      var init := cs[..|cs| - 1];
      ScanOwnerIff(query, init, ratio);
      ScanIsUpperBound(query, init, ratio);
      AnyPositiveStep(query, cs, ratio);
    }
  }

  /** Some candidate scores above 0. */
  predicate AnyPositive(query: string, cs: seq<Candidate>, ratio: (string, string) -> real) {
    exists k :: 0 <= k < |cs| && Score(query, cs[k], ratio) > 0.0
  }

  lemma AnyPositiveStep(query: string, cs: seq<Candidate>, ratio: (string, string) -> real)
    requires cs != []
    ensures AnyPositive(query, cs, ratio)
      <==> AnyPositive(query, cs[..|cs| - 1], ratio) || Score(query, cs[|cs| - 1], ratio) > 0.0
  {
    var init := cs[..|cs| - 1];
    if AnyPositive(query, cs, ratio) {
      var k :| 0 <= k < |cs| && Score(query, cs[k], ratio) > 0.0;
      if k < |cs| - 1 {
        assert cs[k] == init[k];
      }
    }
    if AnyPositive(query, init, ratio) {
      var k :| 0 <= k < |init| && Score(query, init[k], ratio) > 0.0;
      assert cs[k] == init[k];
    }
  }

  lemma {:induction false} ScanFirstBest(query: string, cs: seq<Candidate>, ratio: (string, string) -> real)
    ensures var best := Scan(query, cs, ratio);
      best.owner.Some? ==> exists k :: FirstBestAt(query, cs, ratio, best, k)
    decreases |cs|
  {
    if cs != [] {
      var init := cs[..|cs| - 1];
      var last := |cs| - 1;
      ScanFirstBest(query, init, ratio);
      var before := Scan(query, init, ratio);
      var best := Scan(query, cs, ratio);
      if Score(query, cs[last], ratio) > before.score {
        ScanIsUpperBound(query, init, ratio);
        forall j | 0 <= j < last ensures Score(query, cs[j], ratio) < best.score {
          assert cs[j] == init[j];
        }
        assert FirstBestAt(query, cs, ratio, best, last);
      } else if before.owner.Some? {
        var k :| FirstBestAt(query, init, ratio, before, k);
        forall j | 0 <= j < k ensures Score(query, cs[j], ratio) < best.score {
          assert cs[j] == init[j];
        }
        assert cs[k] == init[k];
        assert FirstBestAt(query, cs, ratio, best, k);
      }
    }
  }

  /** On a match, the score returned is the highest score of any main name or
      alias, and the name returned is the main name of the entry owning the
      first candidate with that score, even when the candidate was an alias. */
  lemma {:induction false} MatchIsBest(query: string, entries: seq<MetalEntry>, threshold: int, ratio: (string, string) -> real)
    requires FuzzyMatch(query, entries, threshold, ratio).mainName.Some?
    ensures var m := FuzzyMatch(query, entries, threshold, ratio);
      var cs := CandidatesOf(entries, |entries|);
      && m.score >= threshold as real
      && (forall k :: 0 <= k < |cs| ==> Score(query, cs[k], ratio) <= m.score)
      && exists k :: 0 <= k < |cs| && Score(query, cs[k], ratio) == m.score
          && (forall j :: 0 <= j < k ==> Score(query, cs[j], ratio) < m.score)
          && m.mainName == Some(entries[cs[k].owner].mainName)
          && m.docPath == entries[cs[k].owner].docPath
  {
    var cs := CandidatesOf(entries, |entries|);
    ScanIsUpperBound(query, cs, ratio);
    ScanPicksFirstBest(query, cs, ratio);
    var best := Scan(query, cs, ratio);
    var k :| FirstBestAt(query, cs, ratio, best, k);
    var m := FuzzyMatch(query, entries, threshold, ratio);
    var e := entries[cs[k].owner];
    assert m == MetalMatch(Some(e.mainName), e.docPath, best.score);
    assert Score(query, cs[k], ratio) == m.score;
  }

  /** No match is (None, None, 0), and it happens exactly when the best score
      misses the threshold, no candidate scores above 0, or the best entry's
      key is empty. */
  lemma {:induction false} NoMatchIff(query: string, entries: seq<MetalEntry>, threshold: int, ratio: (string, string) -> real)
    ensures var m := FuzzyMatch(query, entries, threshold, ratio);
      var cs := CandidatesOf(entries, |entries|);
      var best := Scan(query, cs, ratio);
      && (m.mainName.None? ==> m == NoMatch)
      && (m.mainName.None? <==>
           best.score < threshold as real
           || (forall k :: 0 <= k < |cs| ==> Score(query, cs[k], ratio) <= 0.0)
           || (best.owner.Some? && best.owner.value < |entries| && entries[best.owner.value].mainName == ""))
  {
    var cs := CandidatesOf(entries, |entries|);
    ScanOwner(query, cs, ratio, |entries|);
    ScanPicksFirstBest(query, cs, ratio);
  }

  /** The chosen entry does not depend on the threshold: lowering the
      threshold keeps a match as it is, so raising it can only lose it. */
  lemma {:induction false} ThresholdMonotone(query: string, entries: seq<MetalEntry>, low: int, high: int, ratio: (string, string) -> real)
    requires low <= high
    requires FuzzyMatch(query, entries, high, ratio).mainName.Some?
    ensures FuzzyMatch(query, entries, low, ratio) == FuzzyMatch(query, entries, high, ratio)
  {
    var cs := CandidatesOf(entries, |entries|);
    ScanOwner(query, cs, ratio, |entries|);
  }

  /** Names are compared after `strip().lower()`: a query that differs from
      another only there gets the same result. */
  lemma {:induction false} QueryNormalized(q1: string, q2: string, entries: seq<MetalEntry>, threshold: int, ratio: (string, string) -> real)
    requires Normalize(q1) == Normalize(q2)
    ensures FuzzyMatch(q1, entries, threshold, ratio) == FuzzyMatch(q2, entries, threshold, ratio)
  {
    var cs := CandidatesOf(entries, |entries|);
    ScanSameScores(q1, q2, cs, ratio);
  }

  lemma {:induction false} ScanSameScores(q1: string, q2: string, cs: seq<Candidate>, ratio: (string, string) -> real)
    requires Normalize(q1) == Normalize(q2)
    ensures Scan(q1, cs, ratio) == Scan(q2, cs, ratio)
    decreases |cs|
  {
    if cs != [] {
      ScanSameScores(q1, q2, cs[..|cs| - 1], ratio);
    }
  }
}
