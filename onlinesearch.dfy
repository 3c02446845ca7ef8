/**
 * Web search summaries (backend/online_search.py). The search client's
 * response and the answering language model are parameters.
 */
module OnlineSearch {
  import opened Strings
  import opened Outcomes
  import opened Chat

  /** One search result; each field may be missing. */
  datatype SearchResult = SearchResult(title: Option<string>, content: Option<string>, url: Option<string>)

  /** How much of a result's content the summary keeps. */
  const ContentLimit: nat := 200

  function OrDefault(o: Option<string>, default: string): string {
    match o
    case Some(s) => s
    case None => default
  }

  /** `s[:200]`. */
  function ContentPrefix(s: string): (r: string)
    ensures |r| <= ContentLimit
    ensures StartsWith(s, r)
    ensures |s| <= ContentLimit ==> r == s
  {
    if |s| <= ContentLimit then s else s[..ContentLimit]
  }

  function Header(query: string): string {
    "Original question: " + query + "\n\nHere are the search results summary:\n\n"
  }

  /** The three f-strings the loop appends for each result. */
  function TitleLine(i: nat, title: string): string {
    NatToString(i) + ". " + title + "\n"
  }

  function LinkLine(url: string): string {
    "   Link: " + url + "\n"
  }

  function ContentLine(content: string): string {
    "   Content summary: " + ContentPrefix(content) + "...\n\n"
  }

  /** What the loop appends for result number i (counting from 1). */
  function EntryText(i: nat, r: SearchResult): string {
    TitleLine(i, OrDefault(r.title, "No title"))
    + LinkLine(OrDefault(r.url, "No link"))
    + ContentLine(OrDefault(r.content, "No content"))
  }

  /** The header followed by the entries of the first n results. */
  function SummaryOf(query: string, results: seq<SearchResult>, n: nat): string
    requires n <= |results|
  {
    Appended(Header(query), Entries(results)[..n])
  }

  /** The entries, numbered from 1 in result order. */
  function Entries(results: seq<SearchResult>): (es: seq<string>)
    ensures |es| == |results|
  {
    seq(|results|, k requires 0 <= k < |results| => EntryText(k + 1, results[k]))
  }

  /** search_online for a response whose "results" list is `response` (None
      when the key is missing): the summary text, and the query unchanged. */
  method SearchOnline(query: string, response: Option<seq<SearchResult>>) returns (summaryText: string, q: string)
    ensures var results := OrEmpty(response); summaryText == SummaryOf(query, results, |results|)
    ensures q == query
  {
    var searchResults := OrEmpty(response);
    summaryText := Header(query);
    var i := 0;
    while i < |searchResults|
      invariant i <= |searchResults|
      invariant summaryText == SummaryOf(query, searchResults, i)
    {
      var result := searchResults[i];
      var title := OrDefault(result.title, "No title");
      var content := OrDefault(result.content, "No content");
      var url := OrDefault(result.url, "No link");
      ghost var before := summaryText;
      summaryText := summaryText + TitleLine(i + 1, title);
      summaryText := summaryText + LinkLine(url);
      summaryText := summaryText + ContentLine(content);
      assert summaryText == before + EntryText(i + 1, result);
      assert Entries(searchResults)[..i + 1][..i] == Entries(searchResults)[..i];
      i := i + 1;
    }
    q := query;
  }

  function OrEmpty(response: Option<seq<SearchResult>>): seq<SearchResult> {
    match response
    case Some(rs) => rs
    case None => []
  }

  /** The summary is the header followed by the entries, in result order. */
  lemma SummaryIsHeaderAndEntries(query: string, results: seq<SearchResult>)
    ensures SummaryOf(query, results, |results|) == Header(query) + Concat(Entries(results))
  {
    assert Entries(results)[..|results|] == Entries(results);
    AppendedIsConcat(Header(query), Entries(results));
  }

  /** No results (or no "results" key) leaves just the header. */
  lemma NoResultsHeaderOnly(query: string, response: Option<seq<SearchResult>>)
    requires response.None? || response == Some([])
    ensures SummaryOf(query, OrEmpty(response), |OrEmpty(response)|) == Header(query)
  {
  }

  /** Entry i of the summary starts with its number and result i's title (or
      "No title"); a result without content shows "No content". */
  lemma EntryShape(i: nat, r: SearchResult)
    ensures StartsWith(EntryText(i, r), NatToString(i) + ". " + OrDefault(r.title, "No title") + "\n")
    ensures r.content.None? ==>
      (EntryText(i, r) == NatToString(i) + ". " + OrDefault(r.title, "No title") + "\n"
         + "   Link: " + OrDefault(r.url, "No link") + "\n" + "   Content summary: No content...\n\n")
  {
    var head := TitleLine(i, OrDefault(r.title, "No title"));
    assert EntryText(i, r)[..|head|] == head;
  }

  /** The prompt online_search sends with the summary. */
  function SearchPrompt(query: string, summaryText: string): string {
    "Question: " + query + "\n\n" + summaryText + "\n\nBased on the search results above, please answer the original question."
  }

  /** online_search: summarize the search results, then ask the model, whose
      reply content is the answer. The search or the model may raise. */
  method OnlineSearchTool(query: string, response: Outcome<Option<seq<SearchResult>>>, instructions: string,
                          llm: seq<Message> -> Outcome<string>)
    returns (answer: Outcome<string>)
    ensures response.Raised? ==> answer == Raised(response.error)
    ensures response.Returned? ==>
      var results := OrEmpty(response.value);
      answer == llm([SystemMessage(instructions), HumanMessage(SearchPrompt(query, SummaryOf(query, results, |results|)))])
  {
    if response.Raised? {
      return Raised(response.error);
    }
    var summaryText, q := SearchOnline(query, response.value);
    var prompt := SearchPrompt(q, summaryText);
    answer := llm([SystemMessage(instructions), HumanMessage(prompt)]);
  }
}
