/**
 * Document washing before embedding (backend/preprocessing.py): every HTML
 * table is replaced by a `__TABLE<i>__:<summary>` placeholder and recorded in
 * the mapping list, and Markdown and HTML images are deleted.
 */
module Preprocessing {
  import opened Strings
  import opened Outcomes
  import opened Retriever

  const TableOpen: string := "<table"
  const TableClose: string := "</table>"

  /* ----- re.compile(r"(<table.*?</table>)", re.DOTALL).findall ----- */

  /** A lazy DOTALL match of `<table.*?</table>`: it opens with `<table` and
      ends at the first `</table>` after that. */
  predicate IsTableMatch(t: string) {
    && |t| >= 14
    && StartsWith(t, TableOpen)
    && OccursAt(t, TableClose, |t| - 8)
    && AbsentIn(t, TableClose, 6, |t| - 8)
  }

  /** The tables of s[from..], left to right, without overlap. When `<table`
      has no `</table>` after it, neither has any later `<table`, so the scan stops. */
  function TablesFrom(s: string, from: nat): (tables: seq<string>)
    requires from <= |s|
    decreases |s| - from
  {
    var p := Find(s, TableOpen, from);
    if p == |s| then []
    else
      var q := Find(s, TableClose, p + 6);
      if q == |s| then [] else [s[p..q + 8]] + TablesFrom(s, q + 8)
  }

  function FindTables(s: string): seq<string> {
    TablesFrom(s, 0)
  }

  lemma {:induction false} WindowOccurs(s: string, pattern: string, a: nat, b: nat, i: nat)
    requires a <= b <= |s| && a + i + |pattern| <= b
    ensures OccursAt(s[a..b], pattern, i) <==> OccursAt(s, pattern, a + i)
  {
    var w, x := s[a..b][i..i + |pattern|], s[a + i..a + i + |pattern|];
    assert |w| == |x|;
    forall k | 0 <= k < |w| ensures w[k] == x[k] {
      assert w[k] == s[a + i + k];
    }
    assert w == x;
  }

  /** The text from an `<table` at p to the end of the first `</table>` after it is a match. */
  lemma {:induction false} TableMatchAt(s: string, p: nat, q: nat)
    requires OccursAt(s, TableOpen, p) && p + 6 <= q && OccursAt(s, TableClose, q)
    requires AbsentIn(s, TableClose, p + 6, q)
    ensures IsTableMatch(s[p..q + 8])
  {
    var t := s[p..q + 8];
    WindowOccurs(s, TableOpen, p, q + 8, 0);
    assert StartsWith(t, TableOpen) by {
      assert t[..6] == t[0..6];
    }
    WindowOccurs(s, TableClose, p, q + 8, q - p);
    forall i | 6 <= i < |t| - 8 ensures !OccursAt(t, TableClose, i) {
      WindowOccurs(s, TableClose, p, q + 8, i);
    }
  }

  /** Every table found is a lazy `<table…</table>` match. */
  lemma {:induction false} TablesAreMatches(s: string, from: nat)
    requires from <= |s|
    ensures forall k :: 0 <= k < |TablesFrom(s, from)| ==> IsTableMatch(TablesFrom(s, from)[k])
    decreases |s| - from
  {
    var p := Find(s, TableOpen, from);
    if p < |s| {
      var q := Find(s, TableClose, p + 6);
      if q < |s| {
        TableMatchAt(s, p, q);
        TablesAreMatches(s, q + 8);
        var rest := TablesFrom(s, q + 8);
        var tables := TablesFrom(s, from);
        assert tables == [s[p..q + 8]] + rest;
        forall k | 0 <= k < |tables| ensures IsTableMatch(tables[k]) {
          if k > 0 {
            assert tables[k] == rest[k - 1];
          }
        }
      }
    }
  }

  /** A text without `<table` has no tables. */
  lemma {:induction false} NoTablesWithoutOpen(s: string)
    requires !Occurs(s, TableOpen)
    ensures FindTables(s) == []
  {
    assert Find(s, TableOpen, 0) == |s|;
  }

  /* ----- replace_tables ----- */

  /** `f"__TABLE{i}__:{summary}"`. */
  function Placeholder(i: nat, summary: string): string {
    "__TABLE" + NatToString(i) + "__:" + summary
  }

  /** The mapping record `LLM_summary_tables` returns for table i. */
  function MappingFor(i: nat, table: string, summarize: string -> string): TableRecord {
    TableRecord(i, summarize(table), Some(table))
  }

  /** The text after the first n tables have been replaced, one `str.replace` per table. */
  function Substituted(md: string, tables: seq<string>, n: nat, summarize: string -> string): string
    requires n <= |tables|
    requires forall k :: 0 <= k < |tables| ==> IsTableMatch(tables[k])
  {
    if n == 0 then md
    else
      var t := tables[n - 1];
      ReplaceAll(Substituted(md, tables, n - 1, summarize), t, Placeholder(n - 1, summarize(t)))
  }

  /** replace_tables without the JSON file write: the substituted text and the
      mapping list it would write. */
  method ReplaceTables(mdText: string, summarize: string -> string)
    returns (modifiedText: string, tableMappings: seq<TableRecord>)
    ensures var tables := FindTables(mdText);
      && |tableMappings| == |tables|
      && (forall i :: 0 <= i < |tables| ==> tableMappings[i] == MappingFor(i, tables[i], summarize))
      && (TablesAreMatches(mdText, 0); modifiedText == Substituted(mdText, tables, |tables|, summarize))
  {
    var tables := FindTables(mdText);
    TablesAreMatches(mdText, 0);
    tableMappings := [];
    modifiedText := mdText;
    var i := 0;
    while i < |tables|
      invariant i <= |tables|
      invariant |tableMappings| == i
      invariant forall k :: 0 <= k < i ==> tableMappings[k] == MappingFor(k, tables[k], summarize)
      invariant modifiedText == Substituted(mdText, tables, i, summarize)
    {
      var table := tables[i];
      var tableInfo := MappingFor(i, table, summarize);
      var placeholder := Placeholder(i, tableInfo.summary);
      tableMappings := tableMappings + [tableInfo];
      modifiedText := ReplaceAll(modifiedText, table, placeholder);
      i := i + 1;
    }
  }

  /** Entry i of the mapping list is table i: looking it up gives back the
      i-th table found, and any other id raises. */
  lemma {:induction false} MappingsLookup(mdText: string, summarize: string -> string, mappings: seq<TableRecord>, id: int)
    requires var tables := FindTables(mdText);
      |mappings| == |tables| && forall i :: 0 <= i < |tables| ==> mappings[i] == MappingFor(i, tables[i], summarize)
    ensures var tables := FindTables(mdText);
      && (0 <= id < |tables| ==> LoadAndGetTable(mappings, id) == Returned(Some(tables[id])))
      && (!(0 <= id < |tables|) ==> LoadAndGetTable(mappings, id).Raised?)
  {
  }

  /** A table that does not occur any more is not replaced again: a duplicate of
      an earlier table leaves the text as it is. */
  lemma {:induction false} SubstitutedSkipsAbsent(md: string, tables: seq<string>, n: nat, summarize: string -> string)
    requires n < |tables|
    requires forall k :: 0 <= k < |tables| ==> IsTableMatch(tables[k])
    requires !Occurs(Substituted(md, tables, n, summarize), tables[n])
    ensures Substituted(md, tables, n + 1, summarize) == Substituted(md, tables, n, summarize)
  {
    var t := tables[n];
    ReplaceAllAbsent(Substituted(md, tables, n, summarize), t, Placeholder(n, summarize(t)));
  }

  /** A placeholder starts with `_` and holds a `<` only if its summary does. */
  lemma PlaceholderChars(i: nat, summary: string)
    ensures |Placeholder(i, summary)| > 0 && Placeholder(i, summary)[0] == '_'
    ensures '<' !in summary ==> '<' !in Placeholder(i, summary)
  {
    var digits := NatToString(i);
    assert '<' !in digits by {
      forall k | 0 <= k < |digits| ensures digits[k] != '<' {
        assert IsDigit(digits[k]);
      }
    }
    assert Placeholder(i, summary) == "__TABLE" + digits + "__:" + summary;
  }

  /** Once table i has been replaced, its text does not come back in later
      steps, provided the table has no `_` (the first character of every
      placeholder) and no later summary has a `<` (the first character of
      every table). */
  lemma {:induction false} ReplacedTableStaysAbsent(md: string, tables: seq<string>, i: nat, n: nat, summarize: string -> string)
    requires i < n <= |tables|
    requires forall k :: 0 <= k < |tables| ==> IsTableMatch(tables[k])
    requires '_' !in tables[i]
    requires forall k :: i <= k < n ==> '<' !in summarize(tables[k])
    ensures !Occurs(Substituted(md, tables, n, summarize), tables[i])
    decreases n
  {
    var t := tables[n - 1];
    var placeholder := Placeholder(n - 1, summarize(t));
    PlaceholderChars(n - 1, summarize(t));
    assert tables[i][..|TableOpen|] == TableOpen;
    assert tables[i][0] == '<';
    assert |t| > 0;
    if n - 1 > i {
      ReplacedTableStaysAbsent(md, tables, i, n - 1, summarize);
    }
    ReplaceAllLeavesNoOccurrence(Substituted(md, tables, n - 1, summarize), t, placeholder, tables[i]);
  }

  /** A table found again later in the text is left alone by its own step:
      the earlier step already replaced every copy of it. */
  lemma DuplicateTableSkipped(md: string, tables: seq<string>, i: nat, j: nat, summarize: string -> string)
    requires i < j < |tables|
    requires forall k :: 0 <= k < |tables| ==> IsTableMatch(tables[k])
    requires tables[j] == tables[i]
    requires '_' !in tables[i]
    requires forall k :: i <= k < j ==> '<' !in summarize(tables[k])
    ensures Substituted(md, tables, j + 1, summarize) == Substituted(md, tables, j, summarize)
  {
    ReplacedTableStaysAbsent(md, tables, i, j, summarize);
    SubstitutedSkipsAbsent(md, tables, j, summarize);
  }

  /* ----- remove_images ----- */

  /** The two image patterns: `!\[.*?\]\(.*?\)` and `<img.*?>` (`.` does not match a newline). */
  datatype ImagePattern = MarkdownImage | HtmlImage

  /** First index j >= i with s[j] == c, if one comes before the next newline. */
  function LineFind(s: string, i: nat, c: char): (r: Option<nat>)
    requires c != '\n'
    ensures r.Some? ==> i <= r.value < |s| && s[r.value] == c
    decreases |s| - i
  {
    if i >= |s| || s[i] == '\n' then None
    else if s[i] == c then Some(i)
    else LineFind(s, i + 1, c)
  }

  /** First index j >= i where `](` starts, if one comes before the next newline. */
  function LinkClose(s: string, i: nat): (r: Option<nat>)
    ensures r.Some? ==> i <= r.value && r.value + 2 <= |s|
    decreases |s| - i
  {
    if i >= |s| || s[i] == '\n' then None
    else if s[i] == ']' && i + 1 < |s| && s[i + 1] == '(' then Some(i)
    else LinkClose(s, i + 1)
  }

  /** Where a match of the pattern that starts at p ends, if one does. The lazy
      groups take the first `](` and the first `)` or `>` on the line; when
      that fails, a longer first group cannot succeed either. */
  function MatchEnd(pat: ImagePattern, s: string, p: nat): (r: Option<nat>)
    ensures r.Some? ==> p < r.value <= |s|
  {
    match pat
    case MarkdownImage =>
      if p + 2 <= |s| && s[p] == '!' && s[p + 1] == '[' then
        match LinkClose(s, p + 2)
        case None => None
        case Some(k) =>
          match LineFind(s, k + 2, ')')
          case None => None
          case Some(m) => Some(m + 1)
      else None
    case HtmlImage =>
      if OccursAt(s, "<img", p) then
        match LineFind(s, p + 4, '>')
        case None => None
        case Some(m) => Some(m + 1)
      else None
  }

  /** `re.sub(pattern, '', s[i..])`: scan left to right, drop every match,
      keep every other character. */
  function DeleteFrom(pat: ImagePattern, s: string, i: nat): (r: string)
    decreases |s| - i
  {
    if i >= |s| then []
    else
      match MatchEnd(pat, s, i)
      case Some(e) => DeleteFrom(pat, s, e)
      case None => [s[i]] + DeleteFrom(pat, s, i + 1)
  }

  /** remove_images: Markdown images first, then `<img>` tags. */
  function RemoveImages(mdText: string): string {
    DeleteFrom(HtmlImage, DeleteFrom(MarkdownImage, mdText, 0), 0)
  }

  lemma {:induction false} DeleteFromShrinks(pat: ImagePattern, s: string, i: nat)
    requires i <= |s|
    ensures |DeleteFrom(pat, s, i)| <= |s| - i
    decreases |s| - i
  {
    if i < |s| {
      match MatchEnd(pat, s, i)
      case Some(e) => DeleteFromShrinks(pat, s, e);
      case None => DeleteFromShrinks(pat, s, i + 1);
    }
  }

  /** The text that starts every match of the pattern. */
  function Opener(pat: ImagePattern): string {
    match pat
    case MarkdownImage => "!["
    case HtmlImage => "<img"
  }

  lemma {:induction false} MatchNeedsOpener(pat: ImagePattern, s: string, p: nat)
    requires MatchEnd(pat, s, p).Some?
    ensures OccursAt(s, Opener(pat), p)
  {
    if pat.MarkdownImage? {
      assert s[p..p + 2] == [s[p], s[p + 1]];
    }
  }

  lemma {:induction false} DeleteFromUnchanged(pat: ImagePattern, s: string, i: nat)
    requires i <= |s| && !Occurs(s, Opener(pat))
    ensures DeleteFrom(pat, s, i) == s[i..]
    decreases |s| - i
  {
    if i < |s| {
      if MatchEnd(pat, s, i).Some? {
        MatchNeedsOpener(pat, s, i);
        assert false;
      }
      DeleteFromUnchanged(pat, s, i + 1);
      assert s[i..] == [s[i]] + s[i + 1..];
    }
  }

  /** remove_images never makes the text longer. */
  lemma {:induction false} RemoveImagesShrinks(mdText: string)
    ensures |RemoveImages(mdText)| <= |mdText|
  {
    DeleteFromShrinks(MarkdownImage, mdText, 0);
    DeleteFromShrinks(HtmlImage, DeleteFrom(MarkdownImage, mdText, 0), 0);
  }

  /** Text with neither `![` nor `<img` comes back unchanged. */
  lemma {:induction false} RemoveImagesUnchanged(mdText: string)
    requires !Occurs(mdText, "![") && !Occurs(mdText, "<img")
    ensures RemoveImages(mdText) == mdText
  {
    DeleteFromUnchanged(MarkdownImage, mdText, 0);
    DeleteFromUnchanged(HtmlImage, mdText, 0);
  }
}
