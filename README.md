# A verified model of the LLM4manufacturing question-answering backend

The backend answers machining questions, such as "what cutting speed for
turning 1.4125 with D10?", in these stages:

1. **Preprocessing** (`backend/preprocessing.py`). Every HTML table of a
   Markdown document is replaced by a `__TABLE<i>__:<summary>` placeholder.
   The original table is kept in a mapping list. Image links are also removed.
2. **Chunking** (`backend/markdown2embedding.py`). The document is split so
   that every table placeholder starts a chunk of its own. Plain chunks that
   are longer than a token budget are then cut into token slices.
3. **Retrieval** (`backend/retriever.py`). Each retrieved chunk gets the
   original table of every placeholder it names appended to it. A
   placeholder that names a missing table raises `ValueError`.
4. **Rating and tool search** (`backend/rater.py`, `backend/tool_extrator.py`).
   One model judges each reference. A second model is asked only when the
   first says "not relevant". The relevant references are kept in order.
5. **Metal lookup** (`backend/metal_extractor.py`). The metal name in the
   query is fuzzy-matched against main names and aliases. The first best
   score wins, subject to a threshold.
6. **Parameter recommendation** (`backend/parameter_recommendator.py`). A
   completeness check runs first, then the metal lookup, an optional read of
   the metal document, the tool search, and finally a structured answer.
7. **Online search** (`backend/online_search.py`). Search results are
   formatted into a summary and answered from.
8. **Orchestration and logging** (`backend/RAG.py`, `backend/result_logger.py`).
   The query is rewritten. Each rewritten query is routed and handled, and
   one record per query is logged into a results dictionary that is saved
   under the timestamp.

Each source file has one Dafny module. The shared modules are:

- `Strings`: the Python string operations used, namely `str.strip`,
  `lower`, `find`, `replace`, `str(int)` and `"".join`.
- `Outcomes`: `Option`, and `Outcome` = returned value | raised exception.
- `PyValues`: the handful of Python values the logger and the router pass
  around, with `str()`/`repr()` and tuple unpacking.
- `TableMarkers`: a scanner for the placeholder patterns `__TABLE\d+__`
  (the one `findall` uses) and `__TABLE\d+__[:\s]*` (the one `re.split` uses).
- `TableLifecycle`: the round trip of placeholders written by preprocessing,
  detected by the retriever and resolved to the original table.

Models, the search service, the tokenizer, the vector store, files and the
clock are function-typed parameters or plain inputs.

Where the code and its own documentation disagree, the model follows the code:

- A placeholder whose id is not in the mapping list makes
  `load_and_get_table` raise `ValueError`, so the whole similarity search
  raises. The id is not skipped. See `Retriever.ReferenceRaiseIff` and
  `TableLifecycle.StalePlaceholderRaises`.
- The example in `split_by_tables_combined`'s docstring shows the text after
  a table as a separate chunk. The code keeps everything up to the next
  placeholder in the table's chunk (`Chunker.ChunkAt`).
- When the metal document file is missing, `parameter_recommendation`
  returns early with a message. It does not go on to the tool search
  (`ParameterRecommender.MissingDocumentStops`).
- The router wraps whatever `parameter_recommendation` returns, including
  `None` and that early message, as `(response, True)`. Such queries are
  therefore logged as successful (`Rag.RecommendationLoggedAsIs`).
- The document-extraction and unknown routes return a bare string, and
  `None` comes back for an unrecognised route. Unpacking them into
  `(workflow_result, is_successful)` raises, and the query is logged as
  failed with the exception text (`Rag.NonPairRoutesFail`).
- Rewritten queries are used as keys of the results dictionary. A query
  repeated later overwrites the earlier record, and a query spelled
  `timestamp` or `model_info` overwrites that entry
  (`ResultLogging.LoggedLastWriteWins`, `Rag.SavedFileName`).

## Model

| member | source | states |
|---|---|---|
| Strings.NatToString | backend/preprocessing.py:57 | the decimal text of a table index is non-empty, all digits, with no leading zero |
| Strings.DecimalValueOfNatToString | backend/retriever.py:28-30 | `int()` of the text `str(i)` writes is `i` again, so a written placeholder id reads back unchanged |
| Strings.Find | backend/preprocessing.py:50-51 | the first occurrence at or after a start: it is in bounds, the pattern occurs there, and it occurs nowhere before |
| Strings.ReplaceAllAbsent | backend/preprocessing.py:59 | `str.replace` of a pattern that does not occur leaves the text unchanged |
| Strings.ReplaceAllCopiesPrefix | backend/preprocessing.py:59 | until the first character of the replacement appears, the output of `str.replace` is a copy of its input |
| Strings.ReplaceAllLeavesNoOccurrence | backend/preprocessing.py:59 | after `str.replace`, the replaced pattern no longer occurs, and an absent pattern stays absent, when the replacement starts with a character the pattern lacks and lacks the pattern's first character |
| Strings.Lower | backend/metal_extractor.py:78 | lower-casing keeps the length and maps each character on its own |
| Strings.StripLeftIsSuffix | backend/metal_extractor.py:78 | left strip removes exactly the leading whitespace run and leaves a suffix that starts with a non-space |
| Strings.StripRightIsPrefix | backend/metal_extractor.py:82 | right strip removes exactly the trailing whitespace run |
| Strings.StripEnds | backend/metal_extractor.py:91 | a stripped string is empty or starts and ends with a non-space |
| Strings.StripUnspaced | backend/metal_extractor.py:91 | strip is the identity on text that neither starts nor ends with whitespace, so it is idempotent |
| Strings.ConcatAppend | backend/online_search.py:18-25 | concatenating two lists of pieces is concatenating their concatenations |
| Strings.AppendedIsConcat | backend/online_search.py:16-25 | appending pieces one by one to a header yields header followed by their concatenation |
| Strings.Join | backend/retriever.py:73 | `" ".join` of no parts is empty and of one part is that part |
| TableMarkers.FindMarker | backend/retriever.py:28 | the scan for a placeholder stops at a position holding `__TABLE<digits>__` or at the end |
| TableMarkers.FindMarkerFirst | backend/retriever.py:28 | no placeholder starts between the scan's start and the position it reports |
| TableMarkers.FindMarkerIs | backend/retriever.py:28 | the leftmost placeholder at or after a start is the one the scan reports |
| TableMarkers.Positions | backend/markdown2embedding.py:23-24 | the placeholder positions `re.split` matches are placeholders, in strictly increasing order |
| TableMarkers.MarkerIdsAtPositions | backend/retriever.py:23-30 | the ids `findall` reports are the ids read at exactly the positions `re.split` splits on |
| TableMarkers.NoMarkerInSeparators | backend/markdown2embedding.py:23 | the `[:\s]*` run after a placeholder never starts another placeholder |
| TableMarkers.MarkerWindow | backend/markdown2embedding.py:30-37 | a placeholder inside a chunk is a placeholder of the whole text that ends inside the chunk, with the same id, and conversely |
| TableMarkers.DigitRunDigits | backend/retriever.py:28 | the digit run read after `__TABLE` is all digits and maximal |
| TableMarkers.SeparatorEndRun | backend/markdown2embedding.py:23 | the separator run after a placeholder is all `:` or whitespace and maximal |
| Chunker.ReSplit | backend/markdown2embedding.py:24 | `re.split` with one capture group always yields at least one part |
| Chunker.SplitFromLength | backend/markdown2embedding.py:24 | `re.split` yields one part more than twice the number of matches |
| Chunker.SplitFromFirst | backend/markdown2embedding.py:24 | the first part is the text before the first placeholder |
| Chunker.SplitFromMatch | backend/markdown2embedding.py:24 | the captured part after gap j is exactly the j-th placeholder with its separators |
| Chunker.SplitFromGap | backend/markdown2embedding.py:24 | the part after the j-th capture is exactly the text up to the next placeholder |
| Chunker.FirstPartUnmatched | backend/markdown2embedding.py:27-29 | the first part never itself starts with a placeholder, so it always becomes a chunk of its own |
| Chunker.Pairs | backend/markdown2embedding.py:30-37 | pairing parts yields one chunk per two parts, rounding up |
| Chunker.PairsAt | backend/markdown2embedding.py:34 | each full pair is a captured placeholder followed by its text |
| Chunker.PairsAppendOne | backend/markdown2embedding.py:36-37 | a trailing unpaired part becomes a chunk on its own |
| Chunker.SplitByTablesCombined | backend/markdown2embedding.py:15-38 | the method returns exactly the table-aware chunks of the text |
| Chunker.AppendPairs | backend/markdown2embedding.py:30-37 | the pairing loop appends the pairs of the remaining parts, in order |
| Chunker.PairsOfSplit | backend/markdown2embedding.py:24-37 | the first part followed by the paired parts is the table-aware chunking |
| Chunker.TableAwareChunks | backend/markdown2embedding.py:15-38 | there is one chunk more than there are placeholders |
| Chunker.TableAwareChunksCover | backend/markdown2embedding.py:15-38 | the chunks concatenate back to the input text, so nothing is lost, duplicated or reordered |
| Chunker.TableAwareChunksCount | backend/markdown2embedding.py:15-38 | the chunk count is one more than the number of placeholders the retriever's `findall` sees |
| Chunker.FirstChunkPlain | backend/markdown2embedding.py:27-29 | the first chunk holds no placeholder |
| Chunker.TableChunkMarker | backend/markdown2embedding.py:30-37 | every later chunk starts with a placeholder and names exactly one table: the k-th id of the text |
| Chunker.ChunkOwnMarker | backend/markdown2embedding.py:30-37 | the text from a placeholder up to the next one starts with that placeholder and contains no other |
| Chunker.ChunkMarkersCover | backend/markdown2embedding.py:15-38 | the ids named by the chunks, taken in order, are exactly the ids of the whole text |
| Chunker.ChunkAt | backend/markdown2embedding.py:30-37 | chunk k is the text from the k-th placeholder up to the next placeholder or the end |
| Chunker.BoundsAscending | backend/markdown2embedding.py:30-37 | the chunk boundaries are ascending and within the text |
| Chunker.ConcatSlices | backend/markdown2embedding.py:30-37 | slicing a text at ascending boundaries and concatenating gives back the spanned text |
| Chunker.TokenSlicesCover | backend/markdown2embedding.py:58-61 | the token slices concatenate back to the chunk's tokens |
| Chunker.TokenSlicesSizes | backend/markdown2embedding.py:58-61 | every slice is non-empty with at most `max_tokens` tokens, and every slice but the last has exactly `max_tokens` |
| Chunker.TokenSlicesCount | backend/markdown2embedding.py:58-61 | the number of slices is the ceiling of token count over `max_tokens` |
| Chunker.SmartChunking | backend/markdown2embedding.py:40-62 | the method returns each table-aware chunk refined in order |
| Chunker.AppendRefined | backend/markdown2embedding.py:49-61 | one loop iteration appends that chunk's refinement |
| Chunker.AppendSlices | backend/markdown2embedding.py:58-61 | the slicing loop appends the decoded token slices in order |
| Chunker.TableChunkKept | backend/markdown2embedding.py:50-51 | a table chunk is emitted whole whatever its length |
| Chunker.ShortChunkKept | backend/markdown2embedding.py:53-55 | a chunk with at most `max_tokens` tokens is emitted whole |
| Chunker.RefineAllInOrder | backend/markdown2embedding.py:48-61 | the output is the per-chunk refinements concatenated in chunk order |
| Chunker.RefinedPiecesBounded | backend/markdown2embedding.py:57-61 | a long plain chunk becomes more than one piece, each decoded from at most `max_tokens` tokens, and the token slices cover its tokens |
| Chunker.ConcatDecoded | backend/markdown2embedding.py:58-61 | for a decoder that respects concatenation, decoding slices one by one and joining equals decoding all tokens |
| Chunker.SmartChunksCover | backend/markdown2embedding.py:40-62 | for a lossless tokenizer the final chunks concatenate back to the input text |
| Preprocessing.TablesAreMatches | backend/preprocessing.py:50-51 | every table found starts with `<table`, ends with `</table>` and has no `</table>` inside (a non-greedy match) |
| Preprocessing.TableMatchAt | backend/preprocessing.py:50-51 | text from a `<table` to the first following `</table>` is a table match |
| Preprocessing.NoTablesWithoutOpen | backend/preprocessing.py:50-51 | a document without `<table` has no tables |
| Preprocessing.ReplaceTables | backend/preprocessing.py:49-63 | mapping i records id i, the summary and table i, in document order, and the returned text is the document with each table replaced by its placeholder |
| Preprocessing.MappingsLookup | backend/preprocessing.py:55-59 | looking up id i in the produced mappings returns table i, and any other id raises |
| Preprocessing.SubstitutedSkipsAbsent | backend/preprocessing.py:59 | a table no longer in the text (a duplicate already replaced) leaves the text unchanged |
| Preprocessing.PlaceholderChars | backend/preprocessing.py:57 | a placeholder starts with `_` and holds `<` only when its summary does |
| Preprocessing.ReplacedTableStaysAbsent | backend/preprocessing.py:55-59 | once table i is replaced it does not reappear in later steps, when it has no `_` and no later summary has `<` |
| Preprocessing.DuplicateTableSkipped | backend/preprocessing.py:55-59 | under the same conditions, the step for a repeated table leaves the text unchanged |
| Preprocessing.LineFind | backend/preprocessing.py:67 | a character found on the current line is at a position holding it |
| Preprocessing.MatchEnd | backend/preprocessing.py:67-68 | an image match starting at p ends after p and within the text |
| Preprocessing.MatchNeedsOpener | backend/preprocessing.py:67-68 | an image match starts with `![` (Markdown) or `<img` (HTML) |
| Preprocessing.DeleteFromShrinks | backend/preprocessing.py:67-68 | deleting matches never lengthens the text |
| Preprocessing.RemoveImagesShrinks | backend/preprocessing.py:65-69 | removing images never lengthens the document |
| Preprocessing.RemoveImagesUnchanged | backend/preprocessing.py:65-69 | a document with neither `![` nor `<img` is unchanged |
| Preprocessing.DeleteFromUnchanged | backend/preprocessing.py:67-68 | text without the pattern's opener is kept as is |
| Retriever.DetectAtPositions | backend/retriever.py:23-30 | the detected ids are the ids at the placeholder positions, in order |
| Retriever.DetectNone | backend/retriever.py:23-30 | no id is detected if and only if the text holds no placeholder |
| Retriever.LoadAndGetTable | backend/retriever.py:11-21 | an id in range returns that record's original table, and an id out of range raises `ValueError("Table with id <id> not found")` |
| Retriever.TableContents | backend/retriever.py:66-73 | collecting tables raises if and only if some named id is out of range, and otherwise yields at most one non-empty table per id |
| Retriever.CollectTables | backend/retriever.py:66-73 | the table-collecting loop computes the table contents of the detected ids |
| Retriever.ChunkReference | backend/retriever.py:56-77 | one iteration of the hit loop computes that hit's reference |
| Retriever.SimilaritySearch | backend/retriever.py:32-77 | the method returns the references of the hits in order, or the first raised error |
| Retriever.References | backend/retriever.py:56-77 | a successful search returns one reference per hit |
| Retriever.ReferencesPointwise | backend/retriever.py:56-77 | reference k of a successful search is the reference of hit k |
| Retriever.ReferenceWithoutMarkers | backend/retriever.py:61-75 | a chunk naming no table is returned unchanged |
| Retriever.ReferenceExtendsChunk | backend/retriever.py:61-75 | a reference is the chunk followed by a space and the space-joined non-empty tables it names (in marker order, repeats kept), or the chunk alone when it names none |
| Retriever.TableContentsPicks | backend/retriever.py:66-73 | the collected tables are exactly the non-empty original tables of the named ids, in id order, one per occurrence |
| Retriever.ReferenceRaiseIff | backend/retriever.py:66-73 | a chunk's lookup raises if and only if it names a table id outside the mappings |
| Retriever.ReferencesRaiseIff | backend/retriever.py:56-77 | the search raises if and only if some hit names a missing table |
| Retriever.TableContentsRaisedPrefix | backend/retriever.py:66-73 | once a lookup raises, later ids do not change the outcome |
| Retriever.ReferencesRaisedPrefix | backend/retriever.py:56-77 | once a hit raises, later hits do not change the outcome |
| TableLifecycle.PlaceholderMarker | backend/preprocessing.py:57 | a written placeholder starts with a well-formed marker whose id is the table index |
| TableLifecycle.PlaceholderDetected | backend/retriever.py:23-30 | the retriever detects exactly the index a placeholder was written with |
| TableLifecycle.PlaceholderRetrievesTable | backend/preprocessing.py:49-63 | a placeholder produced by preprocessing resolves through the mappings to the original table it replaced |
| TableLifecycle.StalePlaceholderRaises | backend/retriever.py:18-21 | a placeholder whose index is past the mappings makes the reference raise |
| MetalExtractor.EntryCandidates | backend/metal_extractor.py:80-96 | each entry is scored on its main name and then on every alias |
| MetalExtractor.ScoreEntry | backend/metal_extractor.py:82-96 | scoring one entry extends the running best over that entry's names, and the best stays where it was or moves to this entry |
| MetalExtractor.ScoreAliases | backend/metal_extractor.py:90-96 | the alias loop extends the running best over the aliases |
| MetalExtractor.ScanTable | backend/metal_extractor.py:80-96 | the table loop computes the best over all names, owned by an entry of the table |
| MetalExtractor.FuzzyMatchMetal | backend/metal_extractor.py:51-102 | the method returns the fuzzy-match result for the query |
| MetalExtractor.ScanIsUpperBound | backend/metal_extractor.py:84 | the best score is non-negative and no candidate scores higher |
| MetalExtractor.ScanPicksFirstBest | backend/metal_extractor.py:84 | a best entry exists if and only if some score is positive, and it is the owner of the first candidate reaching the best score (strict `>`) |
| MetalExtractor.ScanOwnerIff | backend/metal_extractor.py:70-96 | with no positive score there is no match and the best score stays 0 |
| MetalExtractor.MatchIsBest | backend/metal_extractor.py:98-100 | a reported match scores at least the threshold, no name scores higher, and it is the first name reaching that score, with its entry's main name and doc path |
| MetalExtractor.NoMatchIff | backend/metal_extractor.py:98-102 | no match is `(None, None, 0)`, and it happens exactly when nothing scores above 0, the best is under the threshold, or the best entry's main name is empty |
| MetalExtractor.ThresholdMonotone | backend/metal_extractor.py:98 | lowering the threshold keeps a match unchanged |
| MetalExtractor.QueryNormalized | backend/metal_extractor.py:78 | queries equal after strip and lower match identically |
| Rater.Rating | backend/rater.py:16-62 | the first evaluator is always asked first |
| Rater.RatingRaisesIff | backend/rater.py:54-62 | `rating` raises exactly when the first evaluator raises, or it does not judge "relevant" and the second raises, and with that evaluator's exception |
| Rater.RatingIsEitherRelevant | backend/rater.py:54-62 | a reference is rated relevant if and only if the first evaluator judges it relevant, or returns without that judgement and the second judges it relevant |
| Rater.RatingCalls | backend/rater.py:54-62 | the second evaluator is asked only, and always, when the first returns without judging "relevant" |
| Rater.RatingSameMessages | backend/rater.py:45-52 | both evaluators receive the same system rules and the same query and reference |
| Rater.MissingJudgeRejects | backend/rater.py:7-13 | a missing judgement (`None`) from both evaluators counts as not relevant |
| ToolExtractor.TopHits | backend/tool_extrator.py:6-9 | the hits are the first `top_k = 5` chunks of the ranking, all of it when shorter |
| ToolExtractor.RateReferences | backend/tool_extrator.py:10-20 | the loop computes the filtered outcome and the rating runs of the references |
| ToolExtractor.ToolSearch | backend/tool_extrator.py:4-20 | a raising vector store or similarity search propagates before any rating, and otherwise the result is the filtered references of the top hits |
| ToolExtractor.RateStep | backend/tool_extrator.py:10-16 | rating one more reference extends the kept list when rated True, raises when the rating raises, and adds one rating run |
| ToolExtractor.RatedRaisedPrefix | backend/tool_extrator.py:10-11 | once a rating raises, later references are not rated and do not change the outcome |
| ToolExtractor.RatedReturnsIff | backend/tool_extrator.py:10-16 | the loop finishes if and only if no rating raises |
| ToolExtractor.RatedIsKept | backend/tool_extrator.py:10-16 | when the loop finishes, the kept references are those rated True, in order |
| ToolExtractor.RatingsPointwise | backend/tool_extrator.py:10-11 | when the loop finishes, every reference is rated exactly once, in order |
| ToolExtractor.RatedRaisesFirst | backend/tool_extrator.py:10-11 | a raising loop raises the exception of the first rating that raises, and rates nothing after it |
| ToolExtractor.FirstRaiseExists | backend/tool_extrator.py:10-11 | a raising loop has a first rating that raises |
| ToolExtractor.KeptIsOrderedSubsequence | backend/tool_extrator.py:10-16 | the kept references are picked by strictly increasing positions, each accepted, and every position holding an accepted reference is picked |
| ToolExtractor.FilteredBounds | backend/tool_extrator.py:17-20 | the result is None if and only if every rating returns False, raises if and only if some rating raises, and otherwise holds between 1 and all of the references |
| ToolExtractor.ToolSearchAtMostTopK | backend/tool_extrator.py:6-20 | tool_search returns at most five references |
| ToolExtractor.Ratings | backend/tool_extrator.py:10-11 | at most one rating is made per reference |
| OnlineSearch.ContentPrefix | backend/online_search.py:25 | the content summary is a prefix of at most 200 characters, the whole content when short |
| OnlineSearch.SearchOnline | backend/online_search.py:9-27 | the method returns the header followed by the numbered entries of the results, and the query unchanged |
| OnlineSearch.SummaryIsHeaderAndEntries | backend/online_search.py:16-25 | the summary is the header followed by the entries in result order |
| OnlineSearch.NoResultsHeaderOnly | backend/online_search.py:14-16 | with no results (or no `results` key) the summary is the header alone |
| OnlineSearch.EntryShape | backend/online_search.py:19-25 | entry i starts with `i. <title>`, with the title defaulting to "No title", and a missing content gives "No content" |
| OnlineSearch.Entries | backend/online_search.py:18-25 | there is one entry per result |
| OnlineSearch.OnlineSearchTool | backend/online_search.py:29-52 | a raising search propagates, and otherwise the model is asked with the summary prompt and its content returned |
| ResultLogging.Stored | backend/result_logger.py:20-27 | a logged value is stored as a dictionary (`model_dump`) or as a string (`content` or `str`) |
| ResultLogging.ResultLogger.constructor | backend/result_logger.py:7-18 | a new log holds exactly the timestamp and the model's name, id and temperature ("unknown" when missing) |
| ResultLogging.ResultLogger.AddResult | backend/result_logger.py:20-27 | adding a result sets that step's entry and changes nothing else |
| ResultLogging.LoggedKeys | backend/result_logger.py:20-27 | the log's keys are the initial keys plus every step name added |
| ResultLogging.LoggedUntouched | backend/result_logger.py:20-27 | an entry no later step names keeps its value |
| ResultLogging.LoggedLastWriteWins | backend/result_logger.py:20-27 | for a step name added several times, the last value added is kept |
| ResultLogging.FileNameKept | backend/result_logger.py:30-32 | if no step is named "timestamp", the file is named after the creation timestamp |
| ResultLogging.StepNamesConcat | backend/result_logger.py:20-27 | the step names of two runs of steps are the union of their names |
| PyValues.Iterated | backend/RAG.py:141 | exactly the iterable values (strings, lists, tuples, dicts, models) can be unpacked |
| PyValues.Unpack2 | backend/RAG.py:141 | unpacking into two names succeeds if and only if the value iterates to exactly two items, and a pair unpacks to its items |
| ParameterRecommender.AnswerValue | backend/parameter_recommendator.py:71-90 | an answer is logged as an `Answer` model whose first field is the questioned parameter |
| ParameterRecommender.RecommendationValue | backend/parameter_recommendator.py:92-203 | `None`, the missing-reference message tuple, and an `Answer` are told apart by the value returned |
| ParameterRecommender.Evidence | backend/parameter_recommendator.py:121-122 | the references passed to the answer model are the metal document, when non-empty, followed by the tool references |
| ParameterRecommender.ParameterRecommendation | backend/parameter_recommendator.py:92-203 | the method returns the result and the sequence of outside calls of the recommendation run |
| ParameterRecommender.ResolveMetal | backend/parameter_recommendator.py:102-203 | after a complete query, the stages from the metal lookup on are run |
| ParameterRecommender.ReadMetalDocument | backend/parameter_recommendator.py:107-113 | the metal document is read only when the looked-up path is non-empty, and a missing file stops the run |
| ParameterRecommender.SynthesizeAnswer | backend/parameter_recommendator.py:116-203 | the tool search and then the answer model are run |
| ParameterRecommender.AskModel | backend/parameter_recommendator.py:127-203 | the answer model is asked with the instructions, the query and the evidence |
| ParameterRecommender.AnsweringShape | backend/parameter_recommendator.py:116-203 | the answering stage starts with the tool search, calls nothing but the search and the model, and returns only an `Answer` |
| ParameterRecommender.IncompleteQueryStops | backend/parameter_recommendator.py:96-99 | a query the check judges incomplete returns `None` after the check alone |
| ParameterRecommender.ResolverGetsExtractedMetal | backend/parameter_recommendator.py:102-113 | the metal lookup runs on the metal the check extracted, and any document read is the path the lookup returned |
| ParameterRecommender.MissingDocumentStops | backend/parameter_recommendator.py:107-113 | the run returns the "No metal references found for <metal>" tuple exactly when the looked-up document path is non-empty and the file cannot be read, and then no tool search or answer happens |
| ParameterRecommender.NoDocumentNoRead | backend/parameter_recommendator.py:107-118 | with no or an empty document path no file is read and the tool search still runs |
| ParameterRecommender.AnswerUsesEvidence | backend/parameter_recommendator.py:121-203 | a returned answer is the model's reply to the messages built from the evidence, and that call is the last one |
| ParameterRecommender.ToolSearchErrorPropagates | backend/parameter_recommendator.py:116-118 | an error raised by the tool search propagates and no answer is asked for |
| Rag.ProcessQuery | backend/RAG.py:138-159 | one loop iteration computes the record logged for a query |
| Rag.RagRun | backend/RAG.py:127-164 | the log is the initial log plus the original query, the rewritten queries and one record per query in order, and an error from the rewriter escapes before saving |
| Rag.SuccessIff | backend/RAG.py:105-159 | a query is logged as successful exactly when it is routed to parameter recommendation that returns, or to online search that returns |
| Rag.NonPairRoutesFail | backend/RAG.py:115-125 | the document, unknown and unrecognised routes are logged as failures with the unpacking error text |
| Rag.RecommendationLoggedAsIs | backend/RAG.py:111-113 | whatever recommendation returns is logged as successful |
| Rag.SearchOutcomeLogged | backend/RAG.py:118-122 | an online search error is logged as a failure with its message, and a result as a success |
| Rag.RaisedWorkflowContained | backend/RAG.py:153-159 | an exception in the workflow comes only from the router or the recommendation, and is logged with `is_successful` false |
| Rag.QueryStepsAt | backend/RAG.py:138-159 | step k of the query loop logs query k with its record |
| Rag.EveryQueryLogged | backend/RAG.py:130-162 | the saved log has exactly the initial keys, the two query entries and one key per rewritten query, each holding that query's stored record |
| Rag.QueryStepNames | backend/RAG.py:138-159 | the loop's step names are exactly the rewritten queries |
| Rag.SavedFileName | backend/RAG.py:162 | unless a rewritten query is "timestamp", the log is saved as `rag_logs/<timestamp>.json` |

## Left out

- Model calls (the query rewriter, router, factors check, answer model, evaluators and search answer), the Tavily search, the tokenizer and the vector store are parameters. Their prompt texts are parameters too and are not reproduced.
- `fuzz.ratio` is a parameter returning a real. Its own definition (Levenshtein-based, 0 to 100) is not modelled.
- File reads, `json.load`/`json.dump`, `os.makedirs`, `print` and the clock are not modelled. A file read is an `Option` that is `None` when the file is missing, the only error the code handles. `ReplaceTables` returns the mappings instead of writing them as JSON.
- `get_valid_query`, `create_vector_DB`, `backend/battlefield.py` and `backend/experiment.py` are not part of this model.
- The langgraph `@task`/`@entrypoint` plumbing, checkpointing, the `@tool` wrapper of `online_search` and concurrency are not modelled. Tasks are plain calls.
- `Chunker.SmartChunking`: requires `max_tokens > 0`. Python's `range` raises for 0, and a negative budget silently drops the chunk; neither case is modelled.
- `Strings.Lower` and `Strings.IsDigit`: ASCII only. Python's `lower()` and `\d` also cover non-ASCII letters and digits.
- `PyValues.Repr`: string escaping is not modelled — no `\\` for a backslash, no `\n`, `\t` or `\r`, no `\x..`/`\u....` escapes for non-printable characters, no escaping of quotes, and not Python's choice between `'` and `"`; strings are written between single quotes as they are. Dictionary order is the order entries were built in.
- `ResultLogging.Stored`: a model's `model_dump()` is modelled on one level of fields. Nested models are stored as their fields without dumping them further.
- Exceptions raised by the evaluators, the vector-store search, the query rewriter, the router, the factor check, the answer model, the search answer and the Tavily search are outcomes of those parameters and propagate as in the source. Their Python types are collapsed to `ValueError`, `TypeError` or an external error with a message.
- `Preprocessing.ReplaceTables`: the table summariser is a total function; an exception from the summary model, which escapes replace_tables before the mapping file is written, is not modelled.
- `Preprocessing.DuplicateTableSkipped`: proved only for a table without `_` and summaries without `<`; a summary that reproduces a table's text could bring back an occurrence that a later step then replaces, which the model does not exclude in general.
- The model's methods split nested loops into helper methods (`AppendPairs`, `ScoreAliases`, `CollectTables` and so on). The source keeps them inline.
