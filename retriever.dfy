/**
 * The retrieval side of the table lifecycle (backend/retriever.py): finding
 * the table markers in a retrieved chunk, looking a table up in the mapping
 * list that preprocessing wrote, and the loop of `similarity_search` that
 * appends the original tables to every retrieved chunk.
 */
module Retriever {
  import opened Strings
  import opened Outcomes
  import opened TableMarkers

  /** One entry of the table mapping file: `{"table_id", "summary", "original_table"}`.
      `.get("original_table")` gives None when the key is absent. */
  datatype TableRecord = TableRecord(tableId: int, summary: string, originalTable: Option<string>)

  /** detect_table_markers: `[int(m) for m in re.findall(r"__TABLE(\d+)__", text)]`. */
  function DetectTableMarkers(text: string): seq<nat> {
    MarkerIdsFrom(text, 0)
  }

  /** The ids are those of the markers at the leftmost non-overlapping match
      positions, in text order, duplicates included. */
  lemma {:induction false} DetectAtPositions(text: string)
    ensures DetectTableMarkers(text) == IdsAt(text, Positions(text, 0))
  {
    MarkerIdsAtPositions(text, 0);
  }

  /** No id is found exactly when no marker occurs anywhere in the text. */
  lemma {:induction false} DetectNone(text: string)
    ensures DetectTableMarkers(text) == [] <==> NoMarkerIn(text, 0, |text|)
  {
    if NoMarkerIn(text, 0, |text|) {
      MarkerIdsNone(text, 0);
    } else {
      FindMarkerFirst(text, 0);
    }
  }

  /** load_and_get_table on the mapping list: the `original_table` field of
      entry `tableId`, or ValueError when the id is out of range. */
  function LoadAndGetTable(mappings: seq<TableRecord>, tableId: int): (r: Outcome<Option<string>>)
    ensures 0 <= tableId < |mappings| <==> r.Returned?
    ensures r.Returned? ==> r.value == mappings[tableId].originalTable
    ensures r.Raised? ==> r.error == ValueError("Table with id " + IntToString(tableId) + " not found")
  {
    if 0 <= tableId < |mappings| then Returned(mappings[tableId].originalTable)
    else Raised(ValueError("Table with id " + IntToString(tableId) + " not found"))
  }

  /** Python truthiness of the looked-up table: None and "" are false. */
  predicate IsNonEmptyTable(t: Option<string>) {
    t.Some? && t.value != ""
  }

  /** The original tables for the given ids, in id order, skipping empty ones;
      the first id that is out of range raises. */
  function TableContents(ids: seq<nat>, mappings: seq<TableRecord>): (r: Outcome<seq<string>>)
    ensures r.Raised? <==> exists k :: 0 <= k < |ids| && ids[k] >= |mappings|
    ensures r.Returned? ==> |r.value| <= |ids|
    ensures r.Returned? ==> forall t :: t in r.value ==>
              t != "" && exists k :: 0 <= k < |ids| && mappings[ids[k]].originalTable == Some(t)
  {
    if ids == [] then Returned([])
    else
      match TableContents(ids[..|ids| - 1], mappings)
      case Raised(e) => Raised(e)
      case Returned(ts) =>
        var last := ids[|ids| - 1];
        match LoadAndGetTable(mappings, last)
        case Raised(e) => Raised(e)
        case Returned(t) => Returned(if IsNonEmptyTable(t) then ts + [t.value] else ts)
  }

  /** The reference built for one retrieved chunk: the chunk, followed by a
      space and the space-joined tables when it names any non-empty table. */
  function Reference(chunk: string, mappings: seq<TableRecord>): (r: Outcome<string>)
  {
    var markers := DetectTableMarkers(chunk);
    if markers == [] then Returned(chunk)
    else
      match TableContents(markers, mappings)
      case Raised(e) => Raised(e)
      case Returned(tables) => Returned(if tables == [] then chunk else chunk + " " + Join(" ", tables))
  }

  /** The references for a list of hits, in hit order; the first failure raises. */
  function References(hits: seq<string>, mappings: seq<TableRecord>): (r: Outcome<seq<string>>)
    ensures r.Returned? ==> |r.value| == |hits|
  {
    if hits == [] then Returned([])
    else
      match References(hits[..|hits| - 1], mappings)
      case Raised(e) => Raised(e)
      case Returned(refs) =>
        match Reference(hits[|hits| - 1], mappings)
        case Raised(e) => Raised(e)
        case Returned(info) => Returned(refs + [info])
  }

  /** The loop of similarity_search over the search hits (the vector-store
      query itself is not modelled: `hits` are the page contents it returned). */
  method SimilaritySearch(hits: seq<string>, mappings: seq<TableRecord>) returns (r: Outcome<seq<string>>)
    ensures r == References(hits, mappings)
  {
    var references: seq<string> := [];
    var i := 0;
    while i < |hits|
      invariant i <= |hits|
      invariant References(hits[..i], mappings) == Returned(references)
    {
      var info := ChunkReference(hits[i], mappings);
      assert hits[..i + 1][..i] == hits[..i];
      if info.Raised? {
        ReferencesRaisedPrefix(hits, mappings, i + 1);
        return Raised(info.error);
      }
      references := references + [info.value];
      i := i + 1;
    }
    assert hits[..i] == hits;
    return Returned(references);
  }

  /** One pass of the loop body: the chunk, extended with its tables when it
      names any non-empty one. */
  method ChunkReference(chunk: string, mappings: seq<TableRecord>) returns (r: Outcome<string>)
    ensures r == Reference(chunk, mappings)
  {
    var markers := DetectTableMarkers(chunk);
    var info := chunk;
    if |markers| > 0 {
      var tableContents := CollectTables(markers, mappings);
      if tableContents.Raised? {
        return Raised(tableContents.error);
      }
      if |tableContents.value| > 0 {
        info := chunk + " " + Join(" ", tableContents.value);
      }
    }
    return Returned(info);
  }

  /** The inner loop: the non-empty original tables of the ids, in order;
      an id out of range raises. */
  method CollectTables(ids: seq<nat>, mappings: seq<TableRecord>) returns (r: Outcome<seq<string>>)
    ensures r == TableContents(ids, mappings)
  {
    var tableContents: seq<string> := [];
    var k := 0;
    while k < |ids|
      invariant k <= |ids|
      invariant TableContents(ids[..k], mappings) == Returned(tableContents)
    {
      var originalTable := LoadAndGetTable(mappings, ids[k]);
      assert ids[..k + 1][..k] == ids[..k];
      if originalTable.Raised? {
        assert TableContents(ids[..k + 1], mappings) == Raised(originalTable.error);
        TableContentsRaisedPrefix(ids, mappings, k + 1);
        return Raised(originalTable.error);
      }
      if IsNonEmptyTable(originalTable.value) {
        tableContents := tableContents + [originalTable.value.value];
      }
      k := k + 1;
    }
    assert ids[..k] == ids;
    return Returned(tableContents);
  }

  /** Once a prefix of the ids raises, the whole list raises the same error. */
  lemma {:induction false} TableContentsRaisedPrefix(ids: seq<nat>, mappings: seq<TableRecord>, k: nat)
    requires k <= |ids| && TableContents(ids[..k], mappings).Raised?
    ensures TableContents(ids, mappings) == TableContents(ids[..k], mappings)
    decreases |ids| - k
  {
    if k < |ids| {
      assert ids[..k + 1][..k] == ids[..k];
      TableContentsRaisedPrefix(ids, mappings, k + 1);
    } else {
      assert ids[..k] == ids;
    }
  }

  /** Once the references for a prefix of the hits raise, so do those for all hits. */
  lemma {:induction false} ReferencesRaisedPrefix(hits: seq<string>, mappings: seq<TableRecord>, k: nat)
    requires k <= |hits| && References(hits[..k], mappings).Raised?
    ensures References(hits, mappings) == References(hits[..k], mappings)
    decreases |hits| - k
  {
    if k < |hits| {
      assert hits[..k + 1][..k] == hits[..k];
      ReferencesRaisedPrefix(hits, mappings, k + 1);
    } else {
      assert hits[..k] == hits;
    }
  }

  /** A chunk without markers is its own reference. */
  lemma {:induction false} ReferenceWithoutMarkers(chunk: string, mappings: seq<TableRecord>)
    requires NoMarkerIn(chunk, 0, |chunk|)
    ensures Reference(chunk, mappings) == Returned(chunk)
  {
    DetectNone(chunk);
  }

  /** The reference of a chunk that names tables: the chunk alone when none
      of the named tables is non-empty, and otherwise the chunk, a space and
      the space-joined tables, which are the non-empty original tables of
      the named ids in marker order, repeats included. */
  lemma {:induction false} ReferenceExtendsChunk(chunk: string, mappings: seq<TableRecord>)
    requires Reference(chunk, mappings).Returned?
    ensures var ids := DetectTableMarkers(chunk);
      var info := Reference(chunk, mappings).value;
      && TableContents(ids, mappings).Returned?
      && var tables := TableContents(ids, mappings).value;
         && (exists idx :: PicksTables(tables, ids, mappings, idx))
         && (tables == [] <==> forall k :: 0 <= k < |ids| ==> !IsNonEmptyTable(mappings[ids[k]].originalTable))
         && (tables == [] ==> info == chunk)
         && (tables != [] ==> info == chunk + " " + Join(" ", tables))
  {
    var ids := DetectTableMarkers(chunk);
    TableContentsPicks(ids, mappings);
    var tables := TableContents(ids, mappings).value;
    var idx: seq<nat> :| PicksTables(tables, ids, mappings, idx);
    if tables != [] {
      assert IsNonEmptyTable(mappings[ids[idx[0]]].originalTable);
    }
  }

  /** `tables` are picked out of the ids' original tables by the strictly
      increasing indices `idx`: each picked table is the non-empty original
      table of its id, and every id whose table is non-empty is picked. */
  predicate PicksTables(tables: seq<string>, ids: seq<nat>, mappings: seq<TableRecord>, idx: seq<nat>) {
    && |idx| == |tables|
    && (forall j :: 0 <= j < |idx| ==>
          && idx[j] < |ids| && ids[idx[j]] < |mappings|
          && mappings[ids[idx[j]]].originalTable == Some(tables[j]) && tables[j] != "")
    && (forall j, l :: 0 <= j < l < |idx| ==> idx[j] < idx[l])
    && (forall k :: 0 <= k < |ids| && ids[k] < |mappings| && IsNonEmptyTable(mappings[ids[k]].originalTable) ==> k in idx)
  }

  /** The tables collected for a list of ids are exactly the non-empty
      original tables of those ids, in id order, one per occurrence. */
  lemma {:induction false} TableContentsPicks(ids: seq<nat>, mappings: seq<TableRecord>)
    requires TableContents(ids, mappings).Returned?
    ensures exists idx :: PicksTables(TableContents(ids, mappings).value, ids, mappings, idx)
    decreases |ids|
  {
    if ids == [] {
      assert PicksTables([], ids, mappings, []);
    } else {
      var n := |ids|;
      var init := ids[..n - 1];
      TableContentsPicks(init, mappings);
      var ts := TableContents(init, mappings).value;
      var idx0: seq<nat> :| PicksTables(ts, init, mappings, idx0);
      var t := mappings[ids[n - 1]].originalTable;
      PicksTablesExtend(ts, ids, mappings, idx0);
      if IsNonEmptyTable(t) {
        assert TableContents(ids, mappings).value == ts + [t.value];
        assert PicksTables(ts + [t.value], ids, mappings, idx0 + [n - 1]);
      } else {
        assert TableContents(ids, mappings).value == ts;
        assert PicksTables(ts, ids, mappings, idx0);
      }
    }
  }

  /** Extending the ids by one in-range id extends the picked tables by its
      table when that table is non-empty. */
  lemma PicksTablesExtend(ts: seq<string>, ids: seq<nat>, mappings: seq<TableRecord>, idx0: seq<nat>)
    requires |ids| > 0 && ids[|ids| - 1] < |mappings|
    requires PicksTables(ts, ids[..|ids| - 1], mappings, idx0)
    ensures var n := |ids|;
      var t := mappings[ids[n - 1]].originalTable;
      && (IsNonEmptyTable(t) ==> PicksTables(ts + [t.value], ids, mappings, idx0 + [n - 1]))
      && (!IsNonEmptyTable(t) ==> PicksTables(ts, ids, mappings, idx0))
  {
    var n := |ids|;
    var init := ids[..n - 1];
    forall j | 0 <= j < |idx0| ensures ids[idx0[j]] == init[idx0[j]] {}
    forall k | 0 <= k < n - 1 ensures ids[k] == init[k] {}
  }

  /** One reference per hit, in hit order, each the reference of its own hit. */
  lemma {:induction false} ReferencesPointwise(hits: seq<string>, mappings: seq<TableRecord>)
    requires References(hits, mappings).Returned?
    ensures var refs := References(hits, mappings).value;
      |refs| == |hits| && forall k :: 0 <= k < |hits| ==> Reference(hits[k], mappings) == Returned(refs[k])
    decreases |hits|
  {
    if hits != [] {
      var n := |hits|;
      ReferencesPointwise(hits[..n - 1], mappings);
    }
  }

  /** The chunk names a table id that the mapping list does not have. */
  predicate NamesMissingTable(chunk: string, mappings: seq<TableRecord>) {
    var ids := DetectTableMarkers(chunk);
    exists j :: 0 <= j < |ids| && ids[j] >= |mappings|
  }

  lemma {:induction false} ReferenceRaiseIff(chunk: string, mappings: seq<TableRecord>)
    ensures Reference(chunk, mappings).Raised? <==> NamesMissingTable(chunk, mappings)
  {
  }

  /** The search fails exactly when some hit names a table id the mapping list does not have. */
  lemma {:induction false} ReferencesRaiseIff(hits: seq<string>, mappings: seq<TableRecord>)
    ensures References(hits, mappings).Raised? <==> exists k :: 0 <= k < |hits| && NamesMissingTable(hits[k], mappings)
    decreases |hits|
  {
    if hits != [] {
      var n := |hits|;
      ReferencesRaiseIff(hits[..n - 1], mappings);
      ReferenceRaiseIff(hits[n - 1], mappings);
      assert forall k :: 0 <= k < n - 1 ==> hits[..n - 1][k] == hits[k];
    }
  }
}
