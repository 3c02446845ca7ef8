/**
 * A hand scanner for the table-marker patterns the pipeline matches with `re`:
 *
 *   `__TABLE\d+__`          (detect_table_markers, the start test of smart_chunking)
 *   `__TABLE\d+__[:\s]*`    (the split pattern of split_by_tables_combined)
 *
 * Matching is leftmost-first and non-overlapping, as `re.findall` and
 * `re.split` do it. Because `\d+` is followed by `_`, which is not a digit, a
 * match uses the maximal run of digits after `__TABLE`.
 */
module TableMarkers {
  import opened Strings

  const MarkerHead: string := "__TABLE"

  /** Length of the run of ASCII digits that starts at index p. */
  function DigitRun(s: string, p: nat): (n: nat)
    ensures n == 0 || p + n <= |s|
    decreases |s| - p
  {
    if p < |s| && IsDigit(s[p]) then 1 + DigitRun(s, p + 1) else 0
  }

  /** The run is a maximal stretch of digits. */
  lemma {:induction false} DigitRunDigits(s: string, p: nat)
    ensures forall i :: p <= i < p + DigitRun(s, p) ==> IsDigit(s[i])
    ensures p + DigitRun(s, p) < |s| ==> !IsDigit(s[p + DigitRun(s, p)])
    decreases |s| - p
  {
    if p < |s| && IsDigit(s[p]) {
      DigitRunDigits(s, p + 1);
    }
  }

  /** The literal `__TABLE` starts at index p. */
  predicate HeadAt(s: string, p: nat) {
    && p + 7 <= |s|
    && s[p] == '_' && s[p + 1] == '_' && s[p + 2] == 'T' && s[p + 3] == 'A'
    && s[p + 4] == 'B' && s[p + 5] == 'L' && s[p + 6] == 'E'
  }

  /** `__TABLE\d+__` matches at index p. */
  predicate MarkerAt(s: string, p: nat) {
    && HeadAt(s, p)
    && var d := DigitRun(s, p + 7);
       && d > 0
       && p + 9 + d <= |s|
       && s[p + 7 + d] == '_'
       && s[p + 8 + d] == '_'
  }

  /** Index just past the `__TABLE<digits>__` match at p. */
  function MarkerEnd(s: string, p: nat): (e: nat)
    requires MarkerAt(s, p)
    ensures p + 10 <= e <= |s|
  {
    p + 9 + DigitRun(s, p + 7)
  }

  /** The digits of the match at p: what the capture group `(\d+)` returns. */
  function MarkerDigits(s: string, p: nat): (ds: string)
    requires MarkerAt(s, p)
    ensures |ds| > 0 && AllDigits(ds)
  {
    DigitRunDigits(s, p + 7);
    s[p + 7..p + 7 + DigitRun(s, p + 7)]
  }

  /** `int(...)` of the captured digits: the table id the marker names. */
  function MarkerId(s: string, p: nat): nat
    requires MarkerAt(s, p)
  {
    DecimalValue(MarkerDigits(s, p))
  }

  predicate IsSeparator(c: char) {
    c == ':' || IsSpace(c)
  }

  /** End of the greedy run `[:\s]*` that starts at q. */
  function SeparatorEnd(s: string, q: nat): (r: nat)
    requires q <= |s|
    ensures q <= r <= |s|
    decreases |s| - q
  {
    if q < |s| && IsSeparator(s[q]) then SeparatorEnd(s, q + 1) else q
  }

  /** The run is a maximal stretch of `:` and whitespace. */
  lemma {:induction false} SeparatorEndRun(s: string, q: nat)
    requires q <= |s|
    ensures forall i :: q <= i < SeparatorEnd(s, q) ==> IsSeparator(s[i])
    ensures SeparatorEnd(s, q) < |s| ==> !IsSeparator(s[SeparatorEnd(s, q)])
    decreases |s| - q
  {
    if q < |s| && IsSeparator(s[q]) {
      SeparatorEndRun(s, q + 1);
    }
  }

  /** Index just past the split-pattern match `__TABLE\d+__[:\s]*` at p. */
  function SplitMatchEnd(s: string, p: nat): (e: nat)
    requires MarkerAt(s, p)
    ensures MarkerEnd(s, p) <= e <= |s|
  {
    SeparatorEnd(s, MarkerEnd(s, p))
  }

  /** No marker starts at an index in [a, b). */
  predicate NoMarkerIn(s: string, a: nat, b: nat) {
    forall i :: a <= i < b ==> !MarkerAt(s, i)
  }

  /** The leftmost-match search: the first index at or after `from` where a
      marker starts, or |s| when there is none. */
  function FindMarker(s: string, from: nat): (r: nat)
    requires from <= |s|
    ensures from <= r <= |s|
    ensures r < |s| ==> MarkerAt(s, r)
    decreases |s| - from
  {
    if from == |s| then |s| else if MarkerAt(s, from) then from else FindMarker(s, from + 1)
  }

  /** No marker starts before the one the search finds. */
  lemma {:induction false} FindMarkerFirst(s: string, from: nat)
    requires from <= |s|
    ensures NoMarkerIn(s, from, FindMarker(s, from))
    decreases |s| - from
  {
    if from < |s| && !MarkerAt(s, from) {
      FindMarkerFirst(s, from + 1);
    }
  }

  /** The search result is fixed by its contract: the first marker at or after `from`. */
  lemma {:induction false} FindMarkerIs(s: string, from: nat, r: nat)
    requires from <= r <= |s|
    requires r < |s| ==> MarkerAt(s, r)
    requires NoMarkerIn(s, from, r)
    ensures FindMarker(s, from) == r
    decreases r - from
  {
    if from < r {
      assert !MarkerAt(s, from);
      FindMarkerIs(s, from + 1, r);
    }
  }

  /** Skipping a stretch that holds no marker does not change what the search finds. */
  lemma FindMarkerSkip(s: string, a: nat, b: nat)
    requires a <= b <= |s|
    requires NoMarkerIn(s, a, b)
    ensures FindMarker(s, a) == FindMarker(s, b)
  {
    FindMarkerFirst(s, b);
    FindMarkerIs(s, a, FindMarker(s, b));
  }

  /** A marker starts with `_`, which is not a separator, so none starts inside
      the `[:\s]*` run that the split pattern adds. */
  lemma NoMarkerInSeparators(s: string, p: nat)
    requires MarkerAt(s, p)
    ensures NoMarkerIn(s, MarkerEnd(s, p), SplitMatchEnd(s, p))
  {
    SeparatorEndRun(s, MarkerEnd(s, p));
    forall i | MarkerEnd(s, p) <= i < SplitMatchEnd(s, p)
      ensures !MarkerAt(s, i)
    {
      assert IsSeparator(s[i]);
      if i + 7 <= |s| {
        assert s[i..i + 7][0] == s[i];
      }
    }
  }

  /** Where the match after the one at index j of `ps` (or the end of the text) starts. */
  function NextStart(s: string, ps: seq<nat>, j: nat): nat {
    if j + 1 < |ps| then ps[j + 1] else |s|
  }

  /** The start indices of the non-overlapping split-pattern matches at or after
      `from`, left to right: the positions `re.split` cuts at. */
  function Positions(s: string, from: nat): (ps: seq<nat>)
    requires from <= |s|
    ensures forall j :: 0 <= j < |ps| ==> from <= ps[j] && MarkerAt(s, ps[j])
    ensures forall i, j :: 0 <= i < j < |ps| ==> ps[i] < ps[j]
    decreases |s| - from
  {
    var p := FindMarker(s, from);
    if p == |s| then [] else [p] + Positions(s, SplitMatchEnd(s, p))
  }

  /** The first position is the leftmost match at or after `from`. */
  lemma PositionsFirst(s: string, from: nat)
    requires from <= |s|
    ensures var ps := Positions(s, from); (if ps == [] then |s| else ps[0]) == FindMarker(s, from)
  {
  }

  /** Each further position is the leftmost match after the previous match's end
      (its separator run included), and after the last one there is none. */
  lemma {:induction false} PositionsNext(s: string, from: nat, j: nat)
    requires from <= |s| && j < |Positions(s, from)|
    ensures var ps := Positions(s, from); NextStart(s, ps, j) == FindMarker(s, SplitMatchEnd(s, ps[j]))
    decreases j
  {
    var e := SplitMatchEnd(s, FindMarker(s, from));
    if j == 0 {
      PositionsNextFirst(s, from);
    } else {
      PositionsTail(s, from);
      PositionsNext(s, e, j - 1);
      PositionsNextShift(s, from, j);
    }
  }

  lemma PositionsTail(s: string, from: nat)
    requires from <= |s| && 0 < |Positions(s, from)|
    ensures var ps := Positions(s, from);
      ps == [ps[0]] + Positions(s, SplitMatchEnd(s, ps[0])) && ps[0] == FindMarker(s, from)
  {
  }

  lemma {:induction false} PositionsNextFirst(s: string, from: nat)
    requires from <= |s| && 0 < |Positions(s, from)|
    ensures var ps := Positions(s, from); NextStart(s, ps, 0) == FindMarker(s, SplitMatchEnd(s, ps[0]))
  {
    var ps := Positions(s, from);
    var e := SplitMatchEnd(s, FindMarker(s, from));
    assert ps == [ps[0]] + Positions(s, e);
    PositionsFirst(s, e);
  }

  lemma {:induction false} PositionsNextShift(s: string, from: nat, j: nat)
    requires from <= |s| && 0 < j < |Positions(s, from)|
    requires var rest := Positions(s, SplitMatchEnd(s, FindMarker(s, from)));
      NextStart(s, rest, j - 1) == FindMarker(s, SplitMatchEnd(s, rest[j - 1]))
    ensures var ps := Positions(s, from); NextStart(s, ps, j) == FindMarker(s, SplitMatchEnd(s, ps[j]))
  {
    var ps := Positions(s, from);
    var rest := Positions(s, SplitMatchEnd(s, FindMarker(s, from)));
    assert ps == [ps[0]] + rest;
    assert ps[j] == rest[j - 1];
  }

  /** The ids of the non-overlapping `__TABLE(\d+)__` matches at or after
      `from`, left to right: `[int(m) for m in re.findall(...)]`. */
  function MarkerIdsFrom(s: string, from: nat): seq<nat>
    requires from <= |s|
    decreases |s| - from
  {
    var p := FindMarker(s, from);
    if p == |s| then [] else [MarkerId(s, p)] + MarkerIdsFrom(s, MarkerEnd(s, p))
  }

  /** The ids of the markers that start at the given indices. */
  function IdsAt(s: string, ps: seq<nat>): (ids: seq<nat>)
    requires forall j :: 0 <= j < |ps| ==> MarkerAt(s, ps[j])
    ensures |ids| == |ps|
  {
    seq(|ps|, j requires 0 <= j < |ps| => MarkerId(s, ps[j]))
  }

  /** findall (no separator run) and split (with it) find markers at the same
      indices: the ids findall reports are the ids at the split positions. */
  lemma {:induction false} MarkerIdsAtPositions(s: string, from: nat)
    requires from <= |s|
    ensures MarkerIdsFrom(s, from) == IdsAt(s, Positions(s, from))
    decreases |s| - from
  {
    var p := FindMarker(s, from);
    if p < |s| {
      var rest := Positions(s, SplitMatchEnd(s, p));
      assert Positions(s, from) == [p] + rest;
      NoMarkerInSeparators(s, p);
      MarkerIdsAtPositions(s, SplitMatchEnd(s, p));
      MarkerIdsFromSkip(s, MarkerEnd(s, p), SplitMatchEnd(s, p));
      IdsAtCons(s, p, rest);
    }
  }

  lemma IdsAtCons(s: string, p: nat, rest: seq<nat>)
    requires MarkerAt(s, p) && forall j :: 0 <= j < |rest| ==> MarkerAt(s, rest[j])
    ensures IdsAt(s, [p] + rest) == [MarkerId(s, p)] + IdsAt(s, rest)
  {
  }

  lemma MarkerIdsFromSkip(s: string, a: nat, b: nat)
    requires a <= b <= |s|
    requires NoMarkerIn(s, a, b)
    ensures MarkerIdsFrom(s, a) == MarkerIdsFrom(s, b)
  {
    FindMarkerSkip(s, a, b);
  }

  /** A text with no marker from `from` on yields no ids. */
  lemma MarkerIdsNone(s: string, from: nat)
    requires from <= |s| && NoMarkerIn(s, from, |s|)
    ensures MarkerIdsFrom(s, from) == []
  {
    FindMarkerIs(s, from, |s|);
  }

  function Min(a: nat, b: nat): nat {
    if a <= b then a else b
  }

  /** The digit run inside the window s[a..b] is the run in s, cut at b. */
  lemma {:induction false} DigitRunWindow(s: string, a: nat, b: nat, k: nat)
    requires a <= b <= |s| && a + k <= b
    ensures DigitRun(s[a..b], k) == Min(DigitRun(s, a + k), b - a - k)
    decreases b - a - k
  {
    if a + k < b {
      assert s[a..b][k] == s[a + k];
      DigitRunWindow(s, a, b, k + 1);
    }
  }

  /** A marker inside the window s[a..b] is a marker of s that ends inside the
      window, with the same end and the same id. */
  lemma {:induction false} MarkerWindow(s: string, a: nat, b: nat, i: nat)
    requires a <= b <= |s| && a + i <= b
    ensures MarkerAt(s[a..b], i) <==> MarkerAt(s, a + i) && MarkerEnd(s, a + i) <= b
    ensures MarkerAt(s[a..b], i) ==>
              && MarkerEnd(s[a..b], i) == MarkerEnd(s, a + i) - a
              && MarkerId(s[a..b], i) == MarkerId(s, a + i)
  {
    if a + i + 7 <= b {
      HeadWindow(s, a, b, i);
      DigitRunWindow(s, a, b, i + 7);
      if MarkerAt(s[a..b], i) {
        MarkerWindowInside(s, a, b, i);
      }
      if MarkerAt(s, a + i) && MarkerEnd(s, a + i) <= b {
        MarkerWindowOutside(s, a, b, i);
      }
    }
  }

  lemma {:induction false} HeadWindow(s: string, a: nat, b: nat, i: nat)
    requires a <= b <= |s| && a + i + 7 <= b
    ensures HeadAt(s[a..b], i) <==> HeadAt(s, a + i)
  {
    var w := s[a..b];
    assert w[i] == s[a + i] && w[i + 1] == s[a + i + 1] && w[i + 2] == s[a + i + 2];
    assert w[i + 3] == s[a + i + 3] && w[i + 4] == s[a + i + 4] && w[i + 5] == s[a + i + 5];
    assert w[i + 6] == s[a + i + 6];
  }

  lemma {:induction false} MarkerWindowInside(s: string, a: nat, b: nat, i: nat)
    requires a <= b <= |s| && a + i + 7 <= b
    requires HeadAt(s[a..b], i) <==> HeadAt(s, a + i)
    requires DigitRun(s[a..b], i + 7) == Min(DigitRun(s, a + i + 7), b - a - i - 7)
    requires MarkerAt(s[a..b], i)
    ensures MarkerAt(s, a + i) && MarkerEnd(s, a + i) <= b
    ensures MarkerEnd(s[a..b], i) == MarkerEnd(s, a + i) - a
    ensures MarkerId(s[a..b], i) == MarkerId(s, a + i)
  {
    var w := s[a..b];
    var d := DigitRun(w, i + 7);
    assert w[i + 7 + d] == s[a + i + 7 + d];
    assert d == DigitRun(s, a + i + 7);
    assert w[i + 8 + d] == s[a + i + 8 + d];
    var x, y := w[i + 7..i + 7 + d], s[a + i + 7..a + i + 7 + d];
    forall k | 0 <= k < d ensures x[k] == y[k] {
      assert w[i + 7 + k] == s[a + i + 7 + k];
    }
    assert x == y;
  }

  lemma {:induction false} MarkerWindowOutside(s: string, a: nat, b: nat, i: nat)
    requires a <= b <= |s| && a + i + 7 <= b
    requires HeadAt(s[a..b], i) <==> HeadAt(s, a + i)
    requires DigitRun(s[a..b], i + 7) == Min(DigitRun(s, a + i + 7), b - a - i - 7)
    requires MarkerAt(s, a + i) && MarkerEnd(s, a + i) <= b
    ensures MarkerAt(s[a..b], i)
  {
    var w := s[a..b];
    var d := DigitRun(s, a + i + 7);
    assert DigitRun(w, i + 7) == d;
    assert w[i + 7 + d] == s[a + i + 7 + d];
    assert w[i + 8 + d] == s[a + i + 8 + d];
  }

  /** A stretch of s without markers has none inside any window over it. */
  lemma NoMarkerInWindow(s: string, a: nat, b: nat, lo: nat, hi: nat)
    requires a <= b <= |s| && lo <= hi <= b - a
    requires NoMarkerIn(s, a + lo, a + hi)
    ensures NoMarkerIn(s[a..b], lo, hi)
  {
    forall i | lo <= i < hi ensures !MarkerAt(s[a..b], i) {
      MarkerWindow(s, a, b, i);
    }
  }
}
