/**
 * How a table travels through the pipeline: replace_tables puts
 * `__TABLE<i>__:<summary>` in its place and records it as entry i, and
 * similarity_search finds the marker again and appends the original table.
 */
module TableLifecycle {
  import opened Strings
  import opened Outcomes
  import opened TableMarkers
  import opened Retriever
  import opened Preprocessing

  /** A run of n digits followed by a non-digit has digit run n. */
  lemma {:induction false} DigitRunIs(s: string, p: nat, n: nat)
    requires p + n < |s|
    requires forall i :: p <= i < p + n ==> IsDigit(s[i])
    requires !IsDigit(s[p + n])
    ensures DigitRun(s, p) == n
    decreases n
  {
    if n > 0 {
      DigitRunIs(s, p + 1, n - 1);
    }
  }

  /** The placeholder for table i starts with a marker that names i. */
  lemma {:induction false} PlaceholderMarker(i: nat, summary: string)
    ensures var ph := Placeholder(i, summary);
      && MarkerAt(ph, 0)
      && MarkerEnd(ph, 0) == 9 + |NatToString(i)|
      && MarkerId(ph, 0) == i
  {
    var ph := Placeholder(i, summary);
    var ds := NatToString(i);
    var n := |ds|;
    assert ph == "__TABLE" + ds + "__:" + summary;
    assert ph[..7] == "__TABLE";
    forall k | 7 <= k < 7 + n ensures IsDigit(ph[k]) {
      assert ph[k] == ds[k - 7];
    }
    assert ph[7 + n] == '_';
    DigitRunIs(ph, 7, n);
    assert ph[8 + n] == '_';
    assert MarkerDigits(ph, 0) == ds;
    DecimalValueOfNatToString(i);
  }

  /** A summary without markers leaves exactly one marker in its placeholder. */
  lemma {:induction false} PlaceholderDetected(i: nat, summary: string)
    requires NoMarkerIn(summary, 0, |summary|)
    ensures DetectTableMarkers(Placeholder(i, summary)) == [i]
  {
    var ph := Placeholder(i, summary);
    var n := |NatToString(i)|;
    PlaceholderMarker(i, summary);
    FindMarkerIs(ph, 0, 0);
    var k := 10 + n;
    assert ph[9 + n] == ':';
    assert ph[k..|ph|] == summary;
    forall j | 9 + n <= j < |ph| ensures !MarkerAt(ph, j) {
      if j >= k {
        MarkerWindow(ph, k, |ph|, j - k);
        assert !MarkerAt(ph[k..|ph|], j - k);
      }
    }
    MarkerIdsNone(ph, 9 + n);
  }

  /** End to end: once replace_tables has produced the mapping list, a
      retrieved chunk that is the placeholder of table i comes back with the
      original table appended. */
  lemma {:induction false} PlaceholderRetrievesTable(mdText: string, summarize: string -> string, mappings: seq<TableRecord>, i: nat)
    requires var tables := FindTables(mdText);
      |mappings| == |tables| && forall j :: 0 <= j < |tables| ==> mappings[j] == MappingFor(j, tables[j], summarize)
    requires i < |FindTables(mdText)|
    requires var t := FindTables(mdText)[i]; NoMarkerIn(summarize(t), 0, |summarize(t)|)
    ensures var t := FindTables(mdText)[i];
      var ph := Placeholder(i, summarize(t));
      Reference(ph, mappings) == Returned(ph + " " + t)
  {
    var t := FindTables(mdText)[i];
    var ph := Placeholder(i, summarize(t));
    PlaceholderDetected(i, summarize(t));
    TablesAreMatches(mdText, 0);
    assert IsTableMatch(t);
    assert [i][..0] == [];
    assert TableContents([], mappings) == Returned([]);
    assert LoadAndGetTable(mappings, i) == Returned(Some(t));
    assert IsNonEmptyTable(Some(t)) && [] + [t] == [t];
    assert TableContents([i], mappings) == Returned([t]);
  }

  /** A placeholder whose id is past the end of the mapping list makes the
      retrieval raise. */
  lemma {:induction false} StalePlaceholderRaises(i: nat, summary: string, mappings: seq<TableRecord>)
    requires NoMarkerIn(summary, 0, |summary|) && i >= |mappings|
    ensures Reference(Placeholder(i, summary), mappings).Raised?
  {
    PlaceholderDetected(i, summary);
    assert [i][0] >= |mappings|;
  }
}
