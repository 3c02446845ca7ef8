/**
 * The chunker that feeds the vector store (backend/markdown2embedding.py).
 *
 * `split_by_tables_combined` cuts a washed document with
 * `re.split(r"(__TABLE\d+__[:\s]*)", text)` and glues every marker to the text
 * that follows it, so that a table summary never ends up in two chunks.
 * `smart_chunking` then keeps every table chunk whole and cuts any other chunk
 * whose token count exceeds the limit into slices of at most that many tokens.
 */
module Chunker {
  import opened Strings
  import opened TableMarkers

  /* ----- re.split with one capturing group ----- */

  /** `re.split(r"(__TABLE\d+__[:\s]*)", s[from..])`: the text before each
      match, the match itself (the captured group), and after the last match
      the rest of the text. */
  function SplitFrom(s: string, from: nat): (parts: seq<string>)
    requires from <= |s|
    ensures |parts| > 0
    decreases |s| - from
  {
    var p := FindMarker(s, from);
    if p == |s| then [s[from..]]
    else
      var e := SplitMatchEnd(s, p);
      [s[from..p], s[p..e]] + SplitFrom(s, e)
  }

  function ReSplit(s: string): (parts: seq<string>)
    ensures |parts| > 0
  {
    SplitFrom(s, 0)
  }

  /** re.split returns one part more than twice the number of matches. */
  lemma {:induction false} SplitFromLength(s: string, from: nat)
    requires from <= |s|
    ensures |SplitFrom(s, from)| == 2 * |Positions(s, from)| + 1
    decreases |s| - from
  {
    var p := FindMarker(s, from);
    if p < |s| {
      SplitFromLength(s, SplitMatchEnd(s, p));
    }
  }

  /** Start of the first match (or the end of the text). */
  function FirstStart(s: string, ps: seq<nat>): nat {
    if ps == [] then |s| else ps[0]
  }

  lemma {:induction false} SplitFromFirst(s: string, from: nat)
    requires from <= |s|
    ensures FirstStart(s, Positions(s, from)) <= |s|
    ensures SplitFrom(s, from)[0] == s[from..FirstStart(s, Positions(s, from))]
  {
    PositionsFirst(s, from);
  }

  lemma {:induction false} SplitFromTail(s: string, from: nat)
    requires from <= |s| && 0 < |Positions(s, from)|
    ensures var p := Positions(s, from)[0]; var e := SplitMatchEnd(s, p);
      from <= p && SplitFrom(s, from) == [s[from..p], s[p..e]] + SplitFrom(s, e)
  {
    PositionsTail(s, from);
  }

  /** Past its first two parts, the split of s[from..] is the split after the first match. */
  lemma {:induction false} SplitFromTailAt(s: string, from: nat, k: nat)
    requires from <= |s| && 0 < |Positions(s, from)|
    requires k < |SplitFrom(s, SplitMatchEnd(s, Positions(s, from)[0]))|
    ensures var rparts := SplitFrom(s, SplitMatchEnd(s, Positions(s, from)[0]));
      |SplitFrom(s, from)| == |rparts| + 2 && SplitFrom(s, from)[k + 2] == rparts[k]
  {
    SplitFromTail(s, from);
  }

  /** Part 2j+1 is the j-th match, separator run included. */
  lemma {:induction false} SplitFromMatch(s: string, from: nat, j: nat)
    requires from <= |s| && j < |Positions(s, from)|
    ensures var ps, parts := Positions(s, from), SplitFrom(s, from);
      2 * j + 1 < |parts| && parts[2 * j + 1] == s[ps[j]..SplitMatchEnd(s, ps[j])]
    decreases j, 1
  {
    if j == 0 {
      SplitFromTail(s, from);
    } else {
      SplitFromMatchStep(s, from, j);
    }
  }

  lemma {:induction false} SplitFromMatchStep(s: string, from: nat, j: nat)
    requires from <= |s| && 0 < j < |Positions(s, from)|
    ensures var ps, parts := Positions(s, from), SplitFrom(s, from);
      2 * j + 1 < |parts| && parts[2 * j + 1] == s[ps[j]..SplitMatchEnd(s, ps[j])]
    decreases j, 0
  {
    var ps := Positions(s, from);
    var rest := Positions(s, SplitMatchEnd(s, ps[0]));
    PositionsTail(s, from);
    SplitFromMatch(s, SplitMatchEnd(s, ps[0]), j - 1);
    ShiftedNext(s, ps, rest, j);
    SplitFromTailAt(s, from, 2 * j - 1);
  }

  /** Part 2j+2 is the text from the end of match j to the next match (or the end of the text). */
  lemma {:induction false} SplitFromGap(s: string, from: nat, j: nat)
    requires from <= |s| && j < |Positions(s, from)|
    ensures var ps, parts := Positions(s, from), SplitFrom(s, from);
      && SplitMatchEnd(s, ps[j]) <= NextStart(s, ps, j) <= |s|
      && 2 * j + 2 < |parts|
      && parts[2 * j + 2] == s[SplitMatchEnd(s, ps[j])..NextStart(s, ps, j)]
    decreases j, 1
  {
    if j == 0 {
      SplitFromGapFirst(s, from);
    } else {
      SplitFromGapStep(s, from, j);
    }
  }

  lemma {:induction false} SplitFromGapFirst(s: string, from: nat)
    requires from <= |s| && 0 < |Positions(s, from)|
    ensures var ps, parts := Positions(s, from), SplitFrom(s, from);
      && SplitMatchEnd(s, ps[0]) <= NextStart(s, ps, 0) <= |s|
      && 2 < |parts|
      && parts[2] == s[SplitMatchEnd(s, ps[0])..NextStart(s, ps, 0)]
  {
    var ps := Positions(s, from);
    var e := SplitMatchEnd(s, ps[0]);
    var rest := Positions(s, e);
    PositionsTail(s, from);
    SplitFromTailAt(s, from, 0);
    SplitFromFirst(s, e);
    ShiftedNext(s, ps, rest, 0);
  }

  /** The gap lemma for match j of s[from..], from the one for match j-1 after the first match. */
  lemma {:induction false} SplitFromGapStep(s: string, from: nat, j: nat)
    requires from <= |s| && 0 < j < |Positions(s, from)|
    ensures var ps, parts := Positions(s, from), SplitFrom(s, from);
      && SplitMatchEnd(s, ps[j]) <= NextStart(s, ps, j) <= |s|
      && 2 * j + 2 < |parts|
      && parts[2 * j + 2] == s[SplitMatchEnd(s, ps[j])..NextStart(s, ps, j)]
    decreases j, 0
  {
    var ps := Positions(s, from);
    var rest := Positions(s, SplitMatchEnd(s, ps[0]));
    PositionsTail(s, from);
    var e := SplitMatchEnd(s, ps[0]);
    SplitFromGap(s, e, j - 1);
    ShiftedNext(s, ps, rest, j);
    SplitFromTailAt(s, from, 2 * j);
    var gap := s[SplitMatchEnd(s, rest[j - 1])..NextStart(s, rest, j - 1)];
    assert SplitFrom(s, e)[2 * j] == gap;
    assert SplitFrom(s, from)[2 * j + 2] == gap;
  }

  /** Dropping the first position shifts every index by one. */
  lemma ShiftedNext(s: string, ps: seq<nat>, rest: seq<nat>, j: nat)
    requires 0 < |ps| && ps == [ps[0]] + rest && j < |ps|
    ensures 0 < j ==> ps[j] == rest[j - 1] && NextStart(s, ps, j) == NextStart(s, rest, j - 1)
    ensures j == 0 ==> NextStart(s, ps, 0) == FirstStart(s, rest)
  {
  }

  /** A match of the split pattern at the start of the text. */
  predicate StartsWithMarker(s: string) {
    MarkerAt(s, 0)
  }

  /** `re.match(pattern, parts[0])` never succeeds: the text before the first
      match holds no marker (when the text starts with a marker it is empty). */
  lemma {:induction false} FirstPartUnmatched(s: string)
    ensures !StartsWithMarker(ReSplit(s)[0])
  {
    var f := FirstStart(s, Positions(s, 0));
    SplitFromFirst(s, 0);
    PositionsFirst(s, 0);
    FindMarkerFirst(s, 0);
    NoMarkerInWindow(s, 0, f, 0, f);
  }

  /* ----- pairing the parts ----- */

  /** The while loop of split_by_tables_combined on a list of parts: every two
      neighbours are concatenated, a last unpaired part is kept as it is. */
  function Pairs(xs: seq<string>): (r: seq<string>)
    ensures |r| == (|xs| + 1) / 2
  {
    seq((|xs| + 1) / 2, j requires 0 <= j < (|xs| + 1) / 2 =>
      if 2 * j + 1 < |xs| then xs[2 * j] + xs[2 * j + 1] else xs[2 * j])
  }

  lemma {:induction false} PairsAt(xs: seq<string>, j: nat)
    requires 2 * j + 1 < |xs|
    ensures j < |Pairs(xs)| && Pairs(xs)[j] == xs[2 * j] + xs[2 * j + 1]
  {
  }

  lemma {:induction false} PairsAppendTwo(xs: seq<string>, a: string, b: string)
    requires |xs| % 2 == 0
    ensures Pairs(xs + [a, b]) == Pairs(xs) + [a + b]
  {
    var ys := xs + [a, b];
    assert ys[|xs|] == a && ys[|xs| + 1] == b;
    forall j | 0 <= j < |xs| / 2 ensures Pairs(ys)[j] == Pairs(xs)[j] {
      assert ys[2 * j] == xs[2 * j] && ys[2 * j + 1] == xs[2 * j + 1];
    }
  }

  lemma {:induction false} PairsAppendOne(xs: seq<string>, a: string)
    requires |xs| % 2 == 0
    ensures Pairs(xs + [a]) == Pairs(xs) + [a]
  {
    var ys := xs + [a];
    assert ys[|xs|] == a;
    forall j | 0 <= j < |xs| / 2 ensures Pairs(ys)[j] == Pairs(xs)[j] {
      assert ys[2 * j] == xs[2 * j] && ys[2 * j + 1] == xs[2 * j + 1];
    }
  }

  /** Appending one element after a concatenation. */
  lemma AppendAssoc<T>(xs: seq<T>, ys: seq<T>, z: T)
    ensures xs + ys + [z] == xs + (ys + [z])
  {
  }

  /** One step of the pairing loop at part i, counted from `start`. */
  lemma {:induction false} PairsSliceStep(parts: seq<string>, start: nat, i: nat)
    requires start <= i < |parts| && (i - start) % 2 == 0
    ensures i + 1 < |parts| ==> Pairs(parts[start..i + 2]) == Pairs(parts[start..i]) + [parts[i] + parts[i + 1]]
    ensures i + 1 == |parts| ==> Pairs(parts[start..i + 1]) == Pairs(parts[start..i]) + [parts[i]]
  {
    if i + 1 < |parts| {
      assert parts[start..i + 2] == parts[start..i] + [parts[i], parts[i + 1]];
      PairsAppendTwo(parts[start..i], parts[i], parts[i + 1]);
    } else {
      assert parts[start..i + 1] == parts[start..i] + [parts[i]];
      PairsAppendOne(parts[start..i], parts[i]);
    }
  }

  /* ----- what split_by_tables_combined returns ----- */

  /** Chunk boundaries: the start of the text, the start of every split-pattern
      match, the end of the text. */
  function Bounds(s: string): (bs: seq<nat>)
    ensures |bs| == |Positions(s, 0)| + 2
  {
    [0] + Positions(s, 0) + [|s|]
  }

  predicate Ascending(bs: seq<nat>, limit: nat) {
    && (forall j :: 0 <= j < |bs| ==> bs[j] <= limit)
    && (forall i, j :: 0 <= i <= j < |bs| ==> bs[i] <= bs[j])
  }

  lemma {:induction false} BoundsAscending(s: string)
    ensures Ascending(Bounds(s), |s|)
  {
    var ps := Positions(s, 0);
    var bs := Bounds(s);
    forall i, j | 0 <= i <= j < |bs| ensures bs[i] <= bs[j] {
      if 0 < i <= j < |bs| - 1 {
        assert bs[i] == ps[i - 1] && bs[j] == ps[j - 1];
      }
    }
  }

  /** The pieces of s between neighbouring boundaries. */
  function Slices(s: string, bs: seq<nat>): (r: seq<string>)
    requires |bs| > 0 && Ascending(bs, |s|)
    ensures |r| == |bs| - 1
  {
    seq(|bs| - 1, j requires 0 <= j < |bs| - 1 => s[bs[j]..bs[j + 1]])
  }

  /** The pieces between ascending boundaries put back together give the text
      between the first and the last boundary. */
  lemma {:induction false} ConcatSlices(s: string, bs: seq<nat>)
    requires |bs| > 0 && Ascending(bs, |s|)
    ensures Concat(Slices(s, bs)) == s[bs[0]..bs[|bs| - 1]]
    decreases |bs|
  {
    if |bs| > 1 {
      var bs' := bs[..|bs| - 1];
      assert Slices(s, bs)[..|bs| - 2] == Slices(s, bs');
      ConcatSlices(s, bs');
      assert s[bs[0]..bs[|bs| - 2]] + s[bs[|bs| - 2]..bs[|bs| - 1]] == s[bs[0]..bs[|bs| - 1]];
    }
  }

  /** What split_by_tables_combined returns: the text before the first marker,
      then one chunk per marker running from that marker to the next one (or to
      the end of the text). */
  function TableAwareChunks(s: string): (chunks: seq<string>)
    ensures |chunks| == |Positions(s, 0)| + 1
  {
    BoundsAscending(s);
    Slices(s, Bounds(s))
  }

  /** Chunking loses and duplicates nothing: the chunks put back together are the text. */
  lemma {:induction false} TableAwareChunksCover(s: string)
    ensures Concat(TableAwareChunks(s)) == s
  {
    BoundsAscending(s);
    ConcatSlices(s, Bounds(s));
  }

  /** There is one chunk more than there are markers `detect_table_markers` finds. */
  lemma {:induction false} TableAwareChunksCount(s: string)
    ensures |TableAwareChunks(s)| == |MarkerIdsFrom(s, 0)| + 1
  {
    MarkerIdsAtPositions(s, 0);
  }

  /** The first chunk, the text before the first marker, holds no marker. */
  lemma {:induction false} FirstChunkPlain(s: string)
    ensures var c := TableAwareChunks(s)[0];
      !StartsWithMarker(c) && MarkerIdsFrom(c, 0) == []
  {
    var f := FirstStart(s, Positions(s, 0));
    PositionsFirst(s, 0);
    BoundsAscending(s);
    assert TableAwareChunks(s)[0] == s[0..f];
    FindMarkerFirst(s, 0);
    NoMarkerInWindow(s, 0, f, 0, f);
    MarkerIdsNone(s[0..f], 0);
  }

  lemma NoMarkerInJoin(s: string, a: nat, b: nat, c: nat)
    requires a <= b <= c
    requires NoMarkerIn(s, a, b) && NoMarkerIn(s, b, c)
    ensures NoMarkerIn(s, a, c)
  {
  }

  /** Every later chunk starts with its marker and holds no other: what
      `detect_table_markers` finds in it is exactly the id of that marker. */
  lemma {:induction false} TableChunkMarker(s: string, k: nat)
    requires 0 < k < |TableAwareChunks(s)|
    ensures var c := TableAwareChunks(s)[k];
      && StartsWithMarker(c)
      && k - 1 < |MarkerIdsFrom(s, 0)|
      && MarkerIdsFrom(c, 0) == [MarkerIdsFrom(s, 0)[k - 1]]
  {
    var ps := Positions(s, 0);
    var p := ps[k - 1];
    var n := NextStart(s, ps, k - 1);
    ChunkAt(s, k);
    var c := s[p..n];
    ChunkOwnMarker(s, k - 1);
    MarkerIdsAtPositions(s, 0);
    assert MarkerIdsFrom(s, 0)[k - 1] == MarkerId(s, p);
  }

  /** The text from match j to the next match, read on its own, reports the id of match j only. */
  lemma {:induction false} ChunkOwnMarker(s: string, j: nat)
    requires j < |Positions(s, 0)|
    ensures var ps := Positions(s, 0); var n := NextStart(s, ps, j);
      && ps[j] <= n <= |s|
      && StartsWithMarker(s[ps[j]..n])
      && MarkerIdsFrom(s[ps[j]..n], 0) == [MarkerId(s, ps[j])]
  {
    var ps := Positions(s, 0);
    var p := ps[j];
    var n := NextStart(s, ps, j);
    var me, se := MarkerEnd(s, p), SplitMatchEnd(s, p);
    PositionsNext(s, 0, j);
    var c := s[p..n];
    MarkerWindow(s, p, n, 0);
    assert MarkerAt(c, 0) && MarkerEnd(c, 0) == me - p && MarkerId(c, 0) == MarkerId(s, p);
    assert NoMarkerIn(c, me - p, n - p) by {
      NoMarkerInSeparators(s, p);
      FindMarkerFirst(s, se);
      NoMarkerInJoin(s, me, se, n);
      NoMarkerInWindow(s, p, n, me - p, n - p);
    }
    MarkerIdsNone(c, me - p);
    FindMarkerIs(c, 0, 0);
  }

  /** What `detect_table_markers` finds in each chunk, put together in chunk
      order, is what it finds in the whole text: no marker is cut, lost or
      repeated by the chunking. */
  lemma {:induction false} ChunkMarkersCover(s: string)
    ensures var chunks := TableAwareChunks(s);
      Concat(seq(|chunks|, k requires 0 <= k < |chunks| => MarkerIdsFrom(chunks[k], 0))) == MarkerIdsFrom(s, 0)
  {
    var chunks := TableAwareChunks(s);
    var ids := MarkerIdsFrom(s, 0);
    var per := seq(|chunks|, k requires 0 <= k < |chunks| => MarkerIdsFrom(chunks[k], 0));
    TableAwareChunksCount(s);
    FirstChunkPlain(s);
    forall j | 0 <= j < |ids| ensures per[j + 1] == [ids[j]] {
      TableChunkMarker(s, j + 1);
    }
    ConcatEmptyThenSingletons(per, ids);
  }

  /** An empty part followed by one singleton per element concatenates to
      the elements. */
  lemma ConcatEmptyThenSingletons<T>(parts: seq<seq<T>>, xs: seq<T>)
    requires |parts| == |xs| + 1 && parts[0] == []
    requires forall j :: 0 <= j < |xs| ==> parts[j + 1] == [xs[j]]
    ensures Concat(parts) == xs
  {
    var singles := parts[1..];
    ConcatSingletons(singles, xs);
    assert parts == [parts[0]] + singles;
    ConcatAppend([parts[0]], singles);
    assert Concat([parts[0]]) == Concat([]) + parts[0];
  }

  /** The pairing of the parts that re.split returns is the chunk list. */
  lemma {:induction false} PairsOfSplit(s: string)
    ensures ReSplit(s)[..1] + Pairs(ReSplit(s)[1..]) == TableAwareChunks(s)
  {
    var parts := ReSplit(s);
    var chunks := TableAwareChunks(s);
    var r := parts[..1] + Pairs(parts[1..]);
    SplitFromLength(s, 0);
    SplitFromFirst(s, 0);
    PositionsFirst(s, 0);
    forall k | 0 <= k < |r| ensures r[k] == chunks[k] {
      if k > 0 {
        PairChunk(s, k - 1);
      }
    }
  }

  /** Match j glued to the text after it is chunk j + 1. */
  lemma {:induction false} PairChunk(s: string, j: nat)
    requires j < |Positions(s, 0)|
    ensures j < |Pairs(ReSplit(s)[1..])| && Pairs(ReSplit(s)[1..])[j] == TableAwareChunks(s)[j + 1]
  {
    PairedMatch(s, j);
    ChunkAt(s, j + 1);
  }

  /** Pairing part 2j+1 (match j) with part 2j+2 gives the text from match j to the next match. */
  lemma {:induction false} PairedMatch(s: string, j: nat)
    requires j < |Positions(s, 0)|
    ensures var ps := Positions(s, 0);
      && j < |Pairs(ReSplit(s)[1..])|
      && ps[j] <= NextStart(s, ps, j) <= |s|
      && Pairs(ReSplit(s)[1..])[j] == s[ps[j]..NextStart(s, ps, j)]
  {
    var parts := ReSplit(s);
    var ps := Positions(s, 0);
    SplitFromMatch(s, 0, j);
    SplitFromGap(s, 0, j);
    var xs := parts[1..];
    assert xs[2 * j] == parts[2 * j + 1] && xs[2 * j + 1] == parts[2 * j + 2];
    PairsAt(xs, j);
    SliceJoin(s, ps[j], SplitMatchEnd(s, ps[j]), NextStart(s, ps, j));
  }

  /** Chunk k + 1 runs from match k to the next match (or the end of the text). */
  lemma {:induction false} ChunkAt(s: string, k: nat)
    requires 0 < k <= |Positions(s, 0)|
    ensures var ps := Positions(s, 0);
      ps[k - 1] <= NextStart(s, ps, k - 1) <= |s| &&
      TableAwareChunks(s)[k] == s[ps[k - 1]..NextStart(s, ps, k - 1)]
  {
    var bs := Bounds(s);
    var ps := Positions(s, 0);
    BoundsAscending(s);
    assert bs[k] == ps[k - 1];
    assert bs[k + 1] == NextStart(s, ps, k - 1);
  }

  /** split_by_tables_combined, with the branches of the source: the first part
      is kept alone unless it starts with a marker, then neighbouring parts are
      paired, and a last unpaired part is kept alone. */
  method SplitByTablesCombined(text: string) returns (chunks: seq<string>)
    ensures chunks == TableAwareChunks(text)
  {
    var parts := ReSplit(text);
    chunks := [];
    var i := 0;
    if |parts| > 0 && !StartsWithMarker(parts[0]) {
      chunks := chunks + [parts[0]];
      i := 1;
    }
    assert i == 1 && chunks == parts[..1] by {
      FirstPartUnmatched(text);
    }
    chunks := AppendPairs(chunks, parts, i);
    PairsOfSplit(text);
  }

  /** The while loop of split_by_tables_combined from part `start` on: the
      pairs of the remaining parts are appended to `chunks`. */
  method AppendPairs(chunks: seq<string>, parts: seq<string>, start: nat) returns (extended: seq<string>)
    requires start <= |parts|
    ensures extended == chunks + Pairs(parts[start..])
  {
    extended := chunks;
    var i := start;
    ghost var paired := 0;
    while i < |parts|
      invariant start <= i <= |parts|
      invariant i == start + 2 * paired || i == |parts|
      invariant extended == chunks + Pairs(parts[start..i])
    {
      PairsSliceStep(parts, start, i);
      if i + 1 < |parts| {
        AppendAssoc(chunks, Pairs(parts[start..i]), parts[i] + parts[i + 1]);
        extended := extended + [parts[i] + parts[i + 1]];
        i := i + 2;
        paired := paired + 1;
      } else {
        AppendAssoc(chunks, Pairs(parts[start..i]), parts[i]);
        extended := extended + [parts[i]];
        i := i + 1;
      }
    }
    assert parts[start..i] == parts[start..];
  }

  /* ----- smart_chunking ----- */

  /** A token id of the embedding model's tokenizer. */
  type Token = int

  /** `[tokens[i:i+m] for i in range(0, len(tokens), m)]`: consecutive slices
      of m tokens, the last one possibly shorter. */
  function TokenSlices(ts: seq<Token>, m: nat): (r: seq<seq<Token>>)
    requires m > 0
    decreases |ts|
  {
    if |ts| == 0 then []
    else if |ts| <= m then [ts]
    else [ts[..m]] + TokenSlices(ts[m..], m)
  }

  /** The slices put back together are the token list. */
  lemma {:induction false} TokenSlicesCover(ts: seq<Token>, m: nat)
    requires m > 0
    ensures Concat(TokenSlices(ts, m)) == ts
    decreases |ts|
  {
    if |ts| > m {
      TokenSlicesCover(ts[m..], m);
      ConcatAppend([ts[..m]], TokenSlices(ts[m..], m));
      assert Concat([ts[..m]]) == Concat([]) + ts[..m];
      assert ts[..m] + ts[m..] == ts;
    } else if |ts| > 0 {
      assert Concat([ts]) == Concat([]) + ts;
    }
  }

  /** Every slice holds between 1 and m tokens, and all but the last exactly m. */
  lemma {:induction false} TokenSlicesSizes(ts: seq<Token>, m: nat)
    requires m > 0
    ensures var r := TokenSlices(ts, m);
      && (forall k :: 0 <= k < |r| ==> 0 < |r[k]| <= m)
      && (forall k :: 0 <= k < |r| - 1 ==> |r[k]| == m)
    decreases |ts|
  {
    if |ts| > m {
      TokenSlicesSizes(ts[m..], m);
      var r := TokenSlices(ts, m);
      forall k | 0 < k < |r| ensures r[k] == TokenSlices(ts[m..], m)[k - 1] {
      }
    }
  }

  /** There are ceil(n / m) slices of n tokens. */
  lemma {:induction false} TokenSlicesCount(ts: seq<Token>, m: nat)
    requires m > 0
    ensures |TokenSlices(ts, m)| * m >= |ts| > (|TokenSlices(ts, m)| - 1) * m
    decreases |ts|
  {
    if |ts| > m {
      TokenSlicesCount(ts[m..], m);
    }
  }

  /** One step of the `range(0, len(tokens), m)` loop: the slice at i, then the slices after it. */
  lemma {:induction false} TokenSlicesStep(ts: seq<Token>, m: nat, i: nat)
    requires m > 0 && i < |ts|
    ensures TokenSlices(ts[i..], m) == [ts[i..Min(i + m, |ts|)]] + TokenSlices(ts[Min(i + m, |ts|)..], m)
  {
    var t := ts[i..];
    if |t| <= m {
      assert ts[Min(i + m, |ts|)..] == [];
      assert t == ts[i..Min(i + m, |ts|)];
    } else {
      assert t[..m] == ts[i..i + m];
      assert t[m..] == ts[i + m..];
    }
  }

  /** `tokenizer.decode` applied to every slice. */
  function Decoded(slices: seq<seq<Token>>, decode: seq<Token> -> string): (r: seq<string>)
    ensures |r| == |slices|
  {
    seq(|slices|, k requires 0 <= k < |slices| => decode(slices[k]))
  }

  /** What smart_chunking makes of one chunk of split_by_tables_combined: a
      table chunk is kept whole, so is a chunk of at most m tokens, and any
      other chunk becomes the decoded slices of its tokens. */
  function Refine(c: string, m: nat, encode: string -> seq<Token>, decode: seq<Token> -> string): (r: seq<string>)
    requires m > 0
  {
    if StartsWithMarker(c) then [c]
    else if |encode(c)| <= m then [c]
    else Decoded(TokenSlices(encode(c), m), decode)
  }

  /** Refine applied to every chunk, results in chunk order. */
  function RefineAll(chunks: seq<string>, m: nat, encode: string -> seq<Token>, decode: seq<Token> -> string): (r: seq<string>)
    requires m > 0
  {
    if chunks == [] then []
    else RefineAll(chunks[..|chunks| - 1], m, encode, decode) + Refine(chunks[|chunks| - 1], m, encode, decode)
  }

  /** smart_chunking: split_by_tables_combined, then the loop over its chunks
      with the inner `range(0, len(tokens), max_tokens)` loop. */
  method SmartChunking(text: string, maxTokens: nat, encode: string -> seq<Token>, decode: seq<Token> -> string)
    returns (finalChunks: seq<string>)
    requires maxTokens > 0
    ensures finalChunks == RefineAll(TableAwareChunks(text), maxTokens, encode, decode)
  {
    var initialChunks := SplitByTablesCombined(text);
    finalChunks := [];
    var j := 0;
    while j < |initialChunks|
      invariant j <= |initialChunks|
      invariant finalChunks == RefineAll(initialChunks[..j], maxTokens, encode, decode)
    {
      finalChunks := AppendRefined(finalChunks, initialChunks[j], maxTokens, encode, decode);
      assert initialChunks[..j + 1][..j] == initialChunks[..j];
      j := j + 1;
    }
    assert initialChunks[..j] == initialChunks;
  }

  /** One pass of the outer loop: the chunk, or the decoded slices of its
      tokens, appended to the final chunks. */
  method AppendRefined(finalChunks: seq<string>, chunk: string, maxTokens: nat,
                       encode: string -> seq<Token>, decode: seq<Token> -> string)
    returns (extended: seq<string>)
    requires maxTokens > 0
    ensures extended == finalChunks + Refine(chunk, maxTokens, encode, decode)
  {
    if StartsWithMarker(chunk) {
      extended := finalChunks + [chunk];
    } else {
      var tokens := encode(chunk);
      if |tokens| <= maxTokens {
        extended := finalChunks + [chunk];
      } else {
        extended := AppendSlices(finalChunks, tokens, maxTokens, decode);
      }
    }
  }

  /** The inner loop: the decoded slices of m tokens, appended in order. */
  method AppendSlices(finalChunks: seq<string>, tokens: seq<Token>, maxTokens: nat, decode: seq<Token> -> string)
    returns (extended: seq<string>)
    requires maxTokens > 0
    ensures extended == finalChunks + Decoded(TokenSlices(tokens, maxTokens), decode)
  {
    extended := finalChunks;
    var i := 0;
    while i < |tokens|
      invariant finalChunks + Decoded(TokenSlices(tokens, maxTokens), decode)
        == extended + Decoded(TokenSlices(tokens[Min(i, |tokens|)..], maxTokens), decode)
      decreases |tokens| - i
    {
      var subTokens := tokens[i..Min(i + maxTokens, |tokens|)];
      var subChunk := decode(subTokens);
      TokenSlicesStep(tokens, maxTokens, i);
      DecodedCons(subTokens, TokenSlices(tokens[Min(i + maxTokens, |tokens|)..], maxTokens), decode);
      extended := extended + [subChunk];
      i := i + maxTokens;
    }
    assert tokens[Min(i, |tokens|)..] == [];
  }

  lemma DecodedCons(x: seq<Token>, rest: seq<seq<Token>>, decode: seq<Token> -> string)
    ensures Decoded([x] + rest, decode) == [decode(x)] + Decoded(rest, decode)
  {
  }

  /** Every chunk that carries a table marker survives smart_chunking whole. */
  lemma {:induction false} TableChunkKept(s: string, k: nat, m: nat, encode: string -> seq<Token>, decode: seq<Token> -> string)
    requires m > 0 && 0 < k < |TableAwareChunks(s)|
    ensures Refine(TableAwareChunks(s)[k], m, encode, decode) == [TableAwareChunks(s)[k]]
  {
    TableChunkMarker(s, k);
  }

  /** A chunk without a leading marker that has at most m tokens is kept whole. */
  lemma ShortChunkKept(c: string, m: nat, encode: string -> seq<Token>, decode: seq<Token> -> string)
    requires m > 0 && |encode(c)| <= m
    ensures Refine(c, m, encode, decode) == [c]
  {
  }

  /** The final chunks are the refinements of the chunks, in chunk order:
      nothing is dropped, reordered or repeated. */
  lemma {:induction false} RefineAllInOrder(chunks: seq<string>, m: nat, encode: string -> seq<Token>, decode: seq<Token> -> string)
    requires m > 0
    ensures RefineAll(chunks, m, encode, decode)
      == Concat(seq(|chunks|, k requires 0 <= k < |chunks| => Refine(chunks[k], m, encode, decode)))
    decreases |chunks|
  {
    if chunks != [] {
      var n := |chunks|;
      var init := chunks[..n - 1];
      var per := seq(n, k requires 0 <= k < n => Refine(chunks[k], m, encode, decode));
      RefineAllInOrder(init, m, encode, decode);
      assert per[..n - 1] == seq(n - 1, k requires 0 <= k < n - 1 => Refine(init[k], m, encode, decode));
    }
  }

  /** A chunk that is cut is cut into pieces of at most m tokens that together
      are its token list. */
  lemma {:induction false} RefinedPiecesBounded(c: string, m: nat, encode: string -> seq<Token>, decode: seq<Token> -> string)
    requires m > 0 && !StartsWithMarker(c) && |encode(c)| > m
    ensures var slices := TokenSlices(encode(c), m);
      && Refine(c, m, encode, decode) == Decoded(slices, decode)
      && Concat(slices) == encode(c)
      && (forall k :: 0 <= k < |slices| ==> 0 < |slices[k]| <= m)
      && |slices| > 1
  {
    TokenSlicesCover(encode(c), m);
    TokenSlicesSizes(encode(c), m);
    TokenSlicesCount(encode(c), m);
  }

  /** A tokenizer whose decode undoes encode and maps a concatenation to a concatenation. */
  ghost predicate Lossless(encode: string -> seq<Token>, decode: seq<Token> -> string) {
    && (forall c :: decode(encode(c)) == c)
    && (forall a, b :: decode(a + b) == decode(a) + decode(b))
  }

  lemma {:induction false} ConcatDecoded(slices: seq<seq<Token>>, decode: seq<Token> -> string)
    requires forall a, b :: decode(a + b) == decode(a) + decode(b)
    ensures Concat(Decoded(slices, decode)) == decode(Concat(slices))
    decreases |slices|
  {
    if slices == [] {
      var e: seq<Token> := [];
      assert e + e == e;
      assert decode(e + e) == decode(e) + decode(e);
    } else {
      var n := |slices|;
      assert Decoded(slices, decode)[..n - 1] == Decoded(slices[..n - 1], decode);
      ConcatDecoded(slices[..n - 1], decode);
      assert decode(Concat(slices[..n - 1]) + slices[n - 1]) == decode(Concat(slices[..n - 1])) + decode(slices[n - 1]);
    }
  }

  /** With a lossless tokenizer, refining a chunk keeps its text. */
  lemma {:induction false} RefineKeepsText(c: string, m: nat, encode: string -> seq<Token>, decode: seq<Token> -> string)
    requires m > 0 && Lossless(encode, decode)
    ensures Concat(Refine(c, m, encode, decode)) == c
  {
    if !StartsWithMarker(c) && |encode(c)| > m {
      TokenSlicesCover(encode(c), m);
      ConcatDecoded(TokenSlices(encode(c), m), decode);
    } else {
      assert Concat([c]) == Concat([]) + c;
    }
  }

  lemma {:induction false} RefineAllKeepsText(chunks: seq<string>, m: nat, encode: string -> seq<Token>, decode: seq<Token> -> string)
    requires m > 0 && Lossless(encode, decode)
    ensures Concat(RefineAll(chunks, m, encode, decode)) == Concat(chunks)
    decreases |chunks|
  {
    if chunks != [] {
      var n := |chunks|;
      RefineAllKeepsText(chunks[..n - 1], m, encode, decode);
      RefineKeepsText(chunks[n - 1], m, encode, decode);
      ConcatAppend(RefineAll(chunks[..n - 1], m, encode, decode), Refine(chunks[n - 1], m, encode, decode));
    }
  }

  /** With a lossless tokenizer the final chunks put back together are the document. */
  lemma {:induction false} SmartChunksCover(text: string, m: nat, encode: string -> seq<Token>, decode: seq<Token> -> string)
    requires m > 0 && Lossless(encode, decode)
    ensures Concat(RefineAll(TableAwareChunks(text), m, encode, decode)) == text
  {
    RefineAllKeepsText(TableAwareChunks(text), m, encode, decode);
    TableAwareChunksCover(text);
  }
}
