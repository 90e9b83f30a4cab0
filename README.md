# Agentic chatbot with a hybrid RAG store — a Dafny model

The repository is a LangChain chatbot. Its retrieval store cuts documents into chunks,
mixing a fixed window with sentence boundaries. It indexes them in FAISS and maps search
hits back to the chunk list. Around it sit a set of tools:

- a stock quote tool that finds ticker symbols and picks a history period;
- an account API tool that builds requests and formats the replies;
- a document processor that pulls file paths out of a query;
- a response refiner with tone, format and length guideline tables;
- a query router that lists tools and looks one up by name;
- a search tool that takes context from the chat memory;
- a voice-analysis service that dispatches to sentiment classifiers and applies their
  threshold rules.

A console loop ties it together. It reads lines, stops at `exit`, and handles the
`load documents:` command itself.

The model keeps the shape of each source file.

- **Loops are methods.**
  - `Chunker.ChunkText` is the chunking loop.
  - `DocumentProcessor.ExtractFilePaths` is the path collection.
  - `QueryRouter.FindTool` is the scan with an early exit.
  - `AgenticChatbot.Converse` is the input loop.
  - Each is proved against a recursive specification function, and the properties are
    lemmas about that function.
- **Objects whose fields change are classes.**
  - `Rag.FaissIndex` and `Rag.RagSystem` keep their `index` and `documents` fields.
  - `VoiceAnalysis.Session` keeps the Streamlit `current_model` entry.
- **Everything else is functions.** That covers the tables, the threshold rules, the
  prompt and answer texts, and the dispatch.
- **Prompts go through the template pass.** The tools build each message with an f-string and hand it to `ChatPromptTemplate.from_messages`, which reads the text again as a template. `PromptTemplate.Invoke` renders both messages and calls the model only when both render, so a brace in a query, a context or an instruction text decides whether the model is reached.
- **External pieces are parameters.** The language model, the HTTP API, the embeddings,
  the FAISS search kernel, spaCy's sentence ends, yfinance, the classifiers and the
  clock are all function parameters.

Modules:

| module | file | models |
|---|---|---|
| `Chunker` | chunker.dfy | `HybridChunker.chunk_text` with Python slicing, and `_get_semantic_boundaries` as an input |
| `Rag` | rag.dfy | `FAISSIndex` as an abstract vector store, and `RAGSystem` add/search/save/load |
| `StockInfo` | stock.dfy | `_extract_ticker_symbols`, period selection and the answer of `_run` |
| `AccountApi` | account.dfy | headers, endpoints, `urljoin`, parameters, `_extract_account_id`, `_run` |
| `DocumentProcessor` | doc.dfy | the five path patterns, `_process_document`, `_run` |
| `ResponseRefiner` | refiner.dfy | the guideline tables, the prompts, the fall-back to the content |
| `QueryRouter` | router.dfy | `_get_tool_descriptions`, the tool scan, the answer of `_run` |
| `EnhancedSearch` | search.dfy | the context window, `_optimize_query`, `_mock_search`, `_run` |
| `VoiceAnalysis` | voice.dfy | dispatch, `current_model`, the sign, TextBlob and VADER rules, the `All` table |
| `AgenticChatbot` | chatbot.dfy | the tool list, the command parser, `load_documents`, `process_query`, `main` |
| `PromptTemplate` | template.dfy | the LangChain template pass over each message given as a text, and the model call after it |
| `Text` | text.dfy | the Python string operations used above: `lower`, `strip`, `split`, `join`, `in`, `str(int)` |
| `Wrappers`, `Llm` | wrappers.dfy, llm.dfy | `Option`, the two-message prompt, and raised-or-returned outcomes |

## Model

| member | source | states |
|---|---|---|
| Chunker.SemanticBoundaries | HybridChunker.py:41-61 | the boundary list is `0` followed by the parser's sentence ends, in order |
| Chunker.SliceBound | HybridChunker.py:99 | a slice bound is clamped to `[0, n]`, and a negative bound counts from the end, as in Python |
| Chunker.SliceSpec | HybridChunker.py:99 | `text[a:b]` is the Dafny slice for in-range bounds, the suffix when `b` passes the end, and empty when `b <= a` |
| Chunker.LastInWindowIndex | HybridChunker.py:89-93 | the index of the last listed boundary with `pos < b <= window end`; nothing listed after it is in the window |
| Chunker.ScanBoundaries | HybridChunker.py:83-93 | the scan's result is the window end or an in-window listed boundary, the one the specification picks |
| Chunker.BestIsLargestInWindow | HybridChunker.py:83-93 | for ascending boundaries the chosen boundary is at least every in-window boundary |
| Chunker.StepSpec | HybridChunker.py:83-115 | the next position is exactly `best - overlap`, with `best <= pos + max`; a chunk is emitted iff its stripped text is non-empty, with `{start: pos, end: best}` |
| Chunker.ChunkStep | HybridChunker.py:83-115 | one loop iteration returns the step function's chunk and next position |
| Chunker.ChunkText | HybridChunker.py:65-119 | the loop from position 0 yields the chunks of the fuel-bounded run, and `done` says whether it left the loop |
| Chunker.LoopFromLoop | HybridChunker.py:73-119 | appending from an accumulator equals the accumulator followed by the run's chunks |
| Chunker.AdvancingLoopTerminates | HybridChunker.py:79-119 | if every step moves forward, the loop ends within `len - pos` steps, and chunk starts are at least `pos` and strictly increasing |
| Chunker.AdvancingRunTerminates | HybridChunker.py:65-119 | the same for chunk_text's own step: it finishes, more fuel changes nothing, and starts increase |
| Chunker.NoOverlapAdvances | HybridChunker.py:83-115 | with `max_chunk_size > 0` and `overlap <= 0`, every step moves forward |
| Chunker.FinishedLoopIsStable | HybridChunker.py:79 | once the loop has ended, more fuel gives the same chunks |
| Chunker.LoopChunksFromSteps | HybridChunker.py:101-109 | every chunk of the loop is a chunk some step emitted |
| Chunker.RunChunksWellFormed | HybridChunker.py:99-109 | every chunk has non-empty text with no space at either end; it has span metadata with `end <= start + max`, and `start < end` when `max > 0` |
| Chunker.EndMayExceedText | HybridChunker.py:85-107 | with no boundary in the window, `end` is the raw window end, past the text |
| Chunker.FixedPointLoops | HybridChunker.py:79-115 | a position the step maps to itself never leaves the loop, and re-appends the same chunk on every round |
| Chunker.ShortTextNeverFinishes | HybridChunker.py:47-115 | for a text no longer than the window with `0 < overlap < len`, the boundaries `[0, len]` reach the fixed point `len - overlap` and never finish |
| Chunker.ConcreteNonTermination | HybridChunker.py:65-119 | `"ab"` with overlap 1 yields `"ab"`, then `"b"` once per remaining round, and does not finish |
| Chunker.Repeat | HybridChunker.py:103-109 | the repeated chunk list has one copy per round |
| Rag.NewIndex | HybridChunker.py:145-155 | `L2` and `IVF` make an empty index of the dimension, with flat L2 trained and IVF untrained; any other type makes no index |
| Rag.AddVectors | HybridChunker.py:159-167 | adding keeps the kind and the dimension, and appends the batch after the old vectors in order; a well-trained index is trained afterwards |
| Rag.TrainedOnlyAppends | HybridChunker.py:163-167 | an index that is already trained is not trained again: the add changes nothing but the vectors |
| Rag.AddAllTrainsAndAppends | HybridChunker.py:159-167 | after any batches the kind and dimension stay, the vectors are the old ones followed by every batch, and after one batch the index is trained |
| Rag.FaissIndex.constructor | HybridChunker.py:145-155 | the new index is `NewIndex` of the dimension and type |
| Rag.FaissIndex.AddDocuments | HybridChunker.py:159-167 | only an existing index accepts vectors, and it becomes the index with the batch added |
| Rag.FaissIndex.Search | HybridChunker.py:171-177 | there are results exactly when there is an index, and they are the ids the kernel reports for the stored vectors |
| Rag.FaissIndex.Save | HybridChunker.py:181-185 | the saved blob is the index as it stands |
| Rag.FaissIndex.Load | HybridChunker.py:189-193 | loading replaces the index with the blob |
| Rag.SaveRecords | HybridChunker.py:277-283 | one `{text, metadata}` record per document, in document order |
| Rag.LoadRecords | HybridChunker.py:307-313 | one document per record, in record order, with its text and metadata |
| Rag.LoadSaveRoundTrip | HybridChunker.py:277-313 | loading what was saved gives back the document list |
| Rag.SaveLoadRoundTrip | HybridChunker.py:277-313 | saving what was loaded gives back the record list |
| Rag.ListIndex | HybridChunker.py:257 | Python list indexing: `-n <= idx < n` is valid, and a negative index counts from the end |
| Rag.Lookup | HybridChunker.py:257 | the comprehension has one document per returned index, in index order, and fails iff some index is out of range |
| Rag.AddSpec | HybridChunker.py:213-235 | a missing index is reported only when there is none, and with no index a non-empty list of texts is never fully added; a failure names a text of the batch |
| Rag.AddAppendsInOrder | HybridChunker.py:217-235 | after a complete add, `documents` is the old list followed by the chunks of each text in input order (512/50 parameters) |
| Rag.AddOnlyAppends | HybridChunker.py:217-235 | add only extends `documents` and the index's vectors, and never creates or removes an index |
| Rag.AddContinues | HybridChunker.py:217-235 | once the first text is chunked and encoded, the add goes on with the rest from the extended list and index |
| Rag.FirstTextStops | HybridChunker.py:217-229 | an add that stops at the first text keeps the index, and an encoding failure there leaves exactly that text's chunks without vectors |
| Rag.AddKeepsAlignment | HybridChunker.py:221-235 | with an encoder giving one row per chunk, a complete add keeps documents and vectors the same length; a failed encoding leaves documents longer than the index by that text's chunks |
| Rag.RagSystem.constructor | HybridChunker.py:199-209 | the system starts with no documents and a fresh, empty, trained flat L2 index |
| Rag.RagSystem.AddDocuments | HybridChunker.py:213-235 | the new documents, index and outcome are the add specification applied to the old state |
| Rag.RagSystem.Search | HybridChunker.py:239-257 | any hit needs an index and an encoded query; with both, the answer is the list lookup of the kernel's ids in `documents`, and every returned document is one of `documents` |
| Rag.RagSystem.Save | HybridChunker.py:261-287 | a saved system holds the index and records that load back to `documents` |
| Rag.RagSystem.Load | HybridChunker.py:291-313 | loading installs the saved index and the documents rebuilt from the records, with no length check |
| StockInfo.UpperRun | April29th/stock_info_tool.py:39-40 | the longest run of `A-Z` from a position |
| StockInfo.TickerLengthUnique | April29th/stock_info_tool.py:39-40 | a whole-word match of 1-5 capitals at a position is exactly its capital run |
| StockInfo.FindAll | April29th/stock_info_tool.py:39-40 | every word found is 1-5 upper-case letters |
| StockInfo.FindAllListsEveryOccurrence | April29th/stock_info_tool.py:39-40 | the left-to-right scan lists exactly the whole-word occurrences, in order |
| StockInfo.OccurrenceSound | April29th/stock_info_tool.py:39-40 | each listed word is the text at a whole-word position of the original-case query |
| StockInfo.OccurrenceComplete | April29th/stock_info_tool.py:39-40 | every whole-word occurrence is listed |
| StockInfo.DropCommon | April29th/stock_info_tool.py:43-44 | no common word survives, every survivor comes from the input, and every other word keeps its count, duplicates included |
| StockInfo.DropCommonSingle | April29th/stock_info_tool.py:43-44 | a single word is dropped iff it is a common word |
| StockInfo.DropCommonCons | April29th/stock_info_tool.py:43-44 | the first word is kept iff it is not common, in front of the filtered rest |
| StockInfo.DropCommonAppend | April29th/stock_info_tool.py:43-44 | the filter keeps the order: filtering a concatenation concatenates the filtered parts |
| StockInfo.ExtractTickers | April29th/stock_info_tool.py:28-46 | every extracted ticker is 1-5 capitals and not a common word |
| StockInfo.ExtractedTickerIsWord | April29th/stock_info_tool.py:28-46 | each extracted ticker is not a common word, is 1-5 capitals, and is a whole word of the query |
| StockInfo.ExtractedTickersComplete | April29th/stock_info_tool.py:28-46 | every whole-word capital run of 1-5 that is not a common word is extracted |
| StockInfo.ExampleTickers | April29th/stock_info_tool.py:28-46 | `"I own AAPL"` yields `["AAPL"]`: `I` is found and then dropped as common |
| StockInfo.NeedHistorical | April29th/stock_info_tool.py:156-158 | history is wanted iff some historical keyword is a substring of the lower-cased query |
| StockInfo.FirstRule | April29th/stock_info_tool.py:161-171 | the period is the default when no rule matches, and otherwise the period of the first matching rule |
| StockInfo.PeriodRulesChain | April29th/stock_info_tool.py:161-171 | the rule table is the if/elif chain: year or 12 month, then 6 month, 3 month or quarter, week, day, else `1mo` |
| StockInfo.SelectPeriod | April29th/stock_info_tool.py:161-171 | the chain on the lower-cased query returns the first matching rule's period, which is one of the six yfinance periods |
| StockInfo.PeriodPriority | April29th/stock_info_tool.py:161-171 | `year` always gives `1y`, and `week` beats `day` when no earlier rule matches |
| StockInfo.TickerReport | April29th/stock_info_tool.py:176-215 | a failed fetch gives `Could not retrieve information for <ticker>: <error>`; a found one is stripped, and without history it is the information block stripped |
| StockInfo.ReportUsesHistoryOnlyWhenAsked | April29th/stock_info_tool.py:196-215 | the history matters only when asked for and the information was found; then the report is the information block followed by the history block or its error line, stripped |
| StockInfo.Reports | April29th/stock_info_tool.py:174-215 | one report per ticker, in order, each built from that ticker's own info and history |
| StockInfo.CollectReports | April29th/stock_info_tool.py:174-215 | the loop appends exactly those reports |
| StockInfo.Run | April29th/stock_info_tool.py:137-227 | no ticker gives the fixed message; otherwise the reports for the first three tickers, joined by the separator between `"\n\n"` and the disclaimer |
| StockInfo.AnswerShape | April29th/stock_info_tool.py:176-221 | a found ticker gives 1 to 3 reports in ticker order, and the answer starts with `"\n\n"` and ends with the disclaimer |
| AccountApi.GetHeaders | April29th/account_api_toolv1.1.py:40-50 | JSON Content-Type and Accept always, and `Authorization: Bearer <key>` iff the key is truthy, with no other keys |
| AccountApi.BearerTokenRoundTrip | April29th/account_api_toolv1.1.py:42-50 | the bearer token read back from the headers is the key iff it is truthy |
| AccountApi.EndpointSegments | April29th/account_api_toolv1.1.py:113-164 | the endpoints are `accounts`, `accounts/<id>`, `accounts/<id>/transactions` and `accounts/<id>/balance`, segment by segment |
| AccountApi.UrlJoin | April29th/account_api_toolv1.1.py:67 | `urljoin` keeps the base up to its last `/` and appends the relative endpoint (the merge of RFC 3986 section 5.2.3) |
| AccountApi.UrlJoinDropsVersion | April29th/account_api_toolv1.1.py:67 | against the slash-less base the `v1` segment is replaced, so no request goes under `.../v1/` |
| AccountApi.RequestUrl | April29th/account_api_toolv1.1.py:67 | with the base ending in `/`, the join keeps the versioned base and appends the endpoint |
| AccountApi.RequestsUnderVersionedBase | April29th/account_api_toolv1.1.py:113-164 | with the corrected join, every request of `_run` goes to `accounts` or below it under the versioned base |
| AccountApi.TransactionParams | April29th/account_api_toolv1.1.py:142-151 | `limit` is always present, and `start_date` and `end_date` exactly when truthy |
| AccountApi.TransactionParamsUnique | April29th/account_api_toolv1.1.py:142-151 | the parameter map is determined by the limit and the dates |
| AccountApi.TransactionsRequest | April29th/account_api_toolv1.1.py:126-151 | the transactions request goes to `accounts/<id>/transactions` with the default limit of 50 and the truthy dates |
| AccountApi.MatchAt | April29th/account_api_toolv1.1.py:183-189 | a pattern match at a position captures a non-empty run of digits |
| AccountApi.Search | April29th/account_api_toolv1.1.py:191-196 | `re.search`: the leftmost position where the pattern matches, or none when it matches nowhere |
| AccountApi.ExtractAccountId | April29th/account_api_toolv1.1.py:166-196 | the loop with early return gives the first pattern's first match on the lower-cased query |
| AccountApi.FirstIdSound | April29th/account_api_toolv1.1.py:183-196 | a found id is the leftmost match of some pattern, no earlier pattern matches anywhere, and the id is digits |
| AccountApi.FirstIdNone | April29th/account_api_toolv1.1.py:183-196 | no id iff no pattern matches at any position |
| AccountApi.RouteOrder | April29th/account_api_toolv1.1.py:218-320 | transactions/activity come first, and without an id they ask for one; balance comes next; account information otherwise; fetches use the extracted id |
| AccountApi.AmountText | April29th/account_api_toolv1.1.py:263-266 | a negative amount is written `-$<abs>`, any other `$<amount>` |
| AccountApi.AppendNumbered | April29th/account_api_toolv1.1.py:257-268 | the `+=` loop appends one numbered line per transaction, from 1 |
| AccountApi.FormatTransactions | April29th/account_api_toolv1.1.py:252-273 | the heading, the period when both dates are truthy, at most ten numbered lines, then the remainder note |
| AccountApi.TransactionsShown | April29th/account_api_toolv1.1.py:252-271 | up to ten transactions are all listed after the heading, numbered from 1; with more, the text starts with the heading and the first ten numbered lines |
| AccountApi.TransactionsCounted | April29th/account_api_toolv1.1.py:268-271 | with more than ten, the text ends with `... and N more transactions.`, where N is a decimal numeral and N + 10 is the count |
| AccountApi.TransactionLinesNumbered | April29th/account_api_toolv1.1.py:257-268 | the listing ends with the line of the last transaction, numbered by its position, and is empty iff there are none |
| AccountApi.AppendEntries | April29th/account_api_toolv1.1.py:287-341 | the account loops append one entry per account in order |
| AccountApi.Run | April29th/account_api_toolv1.1.py:198-361 | the reply is the answer for the routed action and the API's replies to exactly the requests that action makes |
| DocumentProcessor.NextQuote | April29th/document_processor_tool.py:53-54 | `[^"]+` ends at the next quote or the end of the query |
| DocumentProcessor.QuotedAt | April29th/document_processor_tool.py:53-54 | a quoted match is between two quotes and contains none |
| DocumentProcessor.QuotedPathAt | April29th/document_processor_tool.py:53-54 | a quoted path ends in one of the document extensions, in any case |
| DocumentProcessor.PathRun | April29th/document_processor_tool.py:57 | the run of word characters, `-`, `.`, `/` and `\` |
| DocumentProcessor.ExtensionAt | April29th/document_processor_tool.py:57 | an extension match is a listed extension in any case, followed by a word boundary |
| DocumentProcessor.BackOff | April29th/document_processor_tool.py:57 | the bare-path match backtracks to a prefix of the path run |
| DocumentProcessor.BarePathAt | April29th/document_processor_tool.py:57 | a bare path is the text at its position |
| DocumentProcessor.NamedAt | April29th/document_processor_tool.py:60-61 | a `file/document/pdf ... called/named` match captures a non-empty quoted name without the quote |
| DocumentProcessor.MatchAt | April29th/document_processor_tool.py:51-62 | every pattern's match ends after its start, within the query |
| DocumentProcessor.ExtractFilePaths | April29th/document_processor_tool.py:34-74 | the nested loops collect the matches pattern by pattern, then match by match |
| DocumentProcessor.PathsAreBlocks | April29th/document_processor_tool.py:64-74 | the path list is the five patterns' `findall` lists, concatenated in pattern order |
| DocumentProcessor.QuotedPdfListedTwice | April29th/document_processor_tool.py:53-72 | `"x.pdf"` is found by the quoted and the bare pattern and listed twice |
| DocumentProcessor.FoundByTwoPatterns | April29th/document_processor_tool.py:64-74 | paths are not deduplicated: a path found by two patterns appears twice |
| DocumentProcessor.NoMatchNoPaths | April29th/document_processor_tool.py:64-74 | a pattern that matches nowhere contributes nothing |
| DocumentProcessor.Basename | April29th/document_processor_tool.py:173 | the base name has no `/` and ends the path |
| DocumentProcessor.ProcessDocument | April29th/document_processor_tool.py:76-100 | a missing file gives `File not found: <path>`, an existing one the processor's result |
| DocumentProcessor.Preview | April29th/document_processor_tool.py:188 | content of at most 500 characters is whole; longer content is its first 500 characters and `...` |
| DocumentProcessor.PreviewBounded | April29th/document_processor_tool.py:188 | a preview is at most 503 characters and starts with the content's first 500 |
| DocumentProcessor.Results | April29th/document_processor_tool.py:167-196 | one result per path, in path order |
| DocumentProcessor.ProcessAll | April29th/document_processor_tool.py:167-196 | the loop appends exactly those results |
| DocumentProcessor.Run | April29th/document_processor_tool.py:139-203 | no path gives the help message; otherwise `"\n\n"` and the results joined by the separator |
| DocumentProcessor.ChooseOperation | April29th/document_processor_tool.py:169-177 | summary iff the lower-cased query holds `summary` or `summarize`; extraction iff it does not and holds one of the extraction phrases; general processing otherwise |
| DocumentProcessor.OneOperationPerQuery | April29th/document_processor_tool.py:169-180 | the operation is chosen once per query, so every result of a summary or extract query is headed that way with its file name |
| ResponseRefiner.Lookup | April29th/response_refiner_tool.py:136 | `dict.get`: no entry iff no key matches, otherwise the matching entry's value |
| ResponseRefiner.LookupFindsEntry | April29th/response_refiner_tool.py:136 | with unique keys, each key finds its own entry |
| ResponseRefiner.ToneIgnoresCase | April29th/response_refiner_tool.py:136 | the tone is lower-cased before the lookup |
| ResponseRefiner.ToneKeys | April29th/response_refiner_tool.py:81-134 | the six tone keys, in order |
| ResponseRefiner.ToneKeysUnique | April29th/response_refiner_tool.py:81-134 | the tone keys are distinct |
| ResponseRefiner.ToneGuideline | April29th/response_refiner_tool.py:71-136 | an unknown lower-cased tone gives the default guideline; a known one gives the bulleted lines of the entry with that key |
| ResponseRefiner.ToneTable | April29th/response_refiner_tool.py:81-136 | a known tone gives its bulleted lines, an unknown one the default guideline |
| ResponseRefiner.FormatKeys | April29th/response_refiner_tool.py:225-266 | the five format keys, in order |
| ResponseRefiner.FormatKeysUnique | April29th/response_refiner_tool.py:225-266 | the format keys are distinct |
| ResponseRefiner.FormatGuideline | April29th/response_refiner_tool.py:215-268 | an unknown lower-cased format gives the default guideline; a known one gives the bulleted lines of the entry with that key |
| ResponseRefiner.FormatTable | April29th/response_refiner_tool.py:225-268 | a known format, in any case, gives its lines, an unknown one the default |
| ResponseRefiner.LengthGuideline | April29th/response_refiner_tool.py:151-157 | a length not listed, compared as given, gets the medium guideline; a listed one its own |
| ResponseRefiner.LengthTable | April29th/response_refiner_tool.py:151-157 | the three lengths; the lookup is case-sensitive, so `Brief` falls back to the medium guideline |
| ResponseRefiner.TonePromptCarriesGuideline | April29th/response_refiner_tool.py:48-60 | the tone prompt carries the tone guideline and ends with the content |
| ResponseRefiner.SummaryPromptCarriesGuideline | April29th/response_refiner_tool.py:157-170 | the summary prompt carries the length guideline and ends with the content |
| ResponseRefiner.FormatPromptCarriesGuideline | April29th/response_refiner_tool.py:193-204 | the format prompt carries the format guideline and ends with the content |
| ResponseRefiner.Refine | April29th/response_refiner_tool.py:62-69 | when rendering the prompt or the call raises, the content comes back; otherwise the reply stripped, with no space at either end |
| ResponseRefiner.AdjustTone | April29th/response_refiner_tool.py:36-69 | the rendered tone prompt goes to the model: its reply stripped, or the content when rendering or the call raises |
| ResponseRefiner.SummarizeContent | April29th/response_refiner_tool.py:138-179 | the rendered summary prompt goes to the model: its reply stripped, or the content when rendering or the call raises |
| ResponseRefiner.FormatContent | April29th/response_refiner_tool.py:181-213 | the rendered format prompt goes to the model: its reply stripped, or the content when rendering or the call raises |
| ResponseRefiner.AdjustToneFallsBack | April29th/response_refiner_tool.py:62-69 | with a prompt that renders, tone adjustment returns the content unchanged when the model raises |
| ResponseRefiner.SummarizeFallsBack | April29th/response_refiner_tool.py:172-179 | summarising returns the content unchanged when the model raises |
| ResponseRefiner.FormatFallsBack | April29th/response_refiner_tool.py:206-213 | formatting returns the content unchanged when the model raises |
| ResponseRefiner.HumanHeadsPlain | April29th/response_refiner_tool.py:59 | the fixed heads of the human messages hold no brace |
| ResponseRefiner.BracedToneFallsBack | April29th/response_refiner_tool.py:48-69 | content that is not a valid template (an unpaired or undoubled brace, as in JSON) never reaches the model, and comes back unchanged |
| ResponseRefiner.BracedSummaryFallsBack | April29th/response_refiner_tool.py:159-179 | content that is not a valid template never reaches the model, and the summary is the content unchanged |
| ResponseRefiner.BracedFormatFallsBack | April29th/response_refiner_tool.py:193-213 | content that is not a valid template never reaches the model, and the formatted text is the content unchanged |
| QueryRouter.DescriptionLines | April29th/query_router_tool.py:50-57 | a line for every tool not named `query_router`, and only for those, at most one line per tool |
| QueryRouter.DescriptionLinesSingle | April29th/query_router_tool.py:53-55 | one tool gives its own line if it is not the router, and no line if it is |
| QueryRouter.DescriptionLinesAppend | April29th/query_router_tool.py:50-57 | the lines of a concatenation are those of the first part followed by those of the second, so the lines keep the tool order |
| QueryRouter.DescriptionLinesCons | April29th/query_router_tool.py:50-57 | the first tool's line, when it has one, is the first line, before the lines of the rest |
| QueryRouter.GetToolDescriptions | April29th/query_router_tool.py:50-57 | the loop appends those lines in tool order, joined by `\n` |
| QueryRouter.RouterNeverDescribed | April29th/query_router_tool.py:28-54 | a router entry at the front or the end of the list adds no line |
| QueryRouter.RouterNeverDescribedAnywhere | April29th/query_router_tool.py:28-54 | a router entry anywhere in the list adds no line and leaves the other lines in order |
| QueryRouter.FirstNamed | April29th/query_router_tool.py:99-103 | no tool iff no name matches, otherwise a tool with the name and no earlier match |
| QueryRouter.FindTool | April29th/query_router_tool.py:99-103 | the scan with `break` finds the first tool with the name |
| QueryRouter.RouterStillSelectable | April29th/query_router_tool.py:99-103 | the router is hidden from the prompt but found by name like any tool |
| QueryRouter.RoutingPrompt | April29th/query_router_tool.py:75-89 | the system text carries the tool descriptions and ends with the format instructions; the human text is `User query: ` and the query |
| QueryRouter.FiveParts | April29th/query_router_tool.py:75-89 | a text of five parts holds the second and ends with the last two |
| QueryRouter.RoutingTextsPlain | April29th/query_router_tool.py:76-88 | the fixed parts of the routing prompt hold no brace |
| QueryRouter.Answer | April29th/query_router_tool.py:95-123 | a parse failure gives `Error parsing tool selection: <error>`, and a name no tool has gets `Tool '<name>' not found...` |
| QueryRouter.Run | April29th/query_router_tool.py:59-127 | the answer is the routed outcome of the model call made through the template pass: the routing error for any exception, otherwise the answer for the parsed reply |
| QueryRouter.RouterAlwaysFails | April29th/query_router_tool.py:75-92 | format instructions that are not a valid template and do not start with a brace make the call raise before the model, so every query gets `Error routing query: ` and the template error |
| QueryRouter.SchemaExampleRaises | April29th/query_router_tool.py:86 | instructions holding a JSON object after a space are not a valid template, and do not start with a brace |
| QueryRouter.PydanticRouterAlwaysFails | April29th/query_router_tool.py:75-127 | with the Pydantic parser's instructions, every query, tool list and model give the routing error |
| QueryRouter.IntendedRouterKeepsInstructions | April29th/query_router_tool.py:75-92 | with the instructions passed as a partial variable, they cannot make the call fail, and they reach the model verbatim at the end of the system text |
| QueryRouter.IntendedRouterReachesModel | April29th/query_router_tool.py:75-123 | when the query and the descriptions hold no brace, the intended router shows the model exactly the written prompt and answers from its reply |
| QueryRouter.AnswerParsed | April29th/query_router_tool.py:95-123 | after parsing: the parse error, the not-found message, or the recommendation, as `Answer` says |
| QueryRouter.AnswerNamesListedTool | April29th/query_router_tool.py:99-119 | otherwise the recommendation describes the first listed tool with that name |
| EnhancedSearch.SearchToolName | April29th/enhanced_search_tool.py:50-63 | `google_search` iff the lower-cased engine name is `google`, and `mock_search` otherwise |
| EnhancedSearch.MockSearch | April29th/enhanced_search_tool.py:65-77 | the mock result starts `Mock search results for: <query>` and a blank line, and ends with the placeholder |
| EnhancedSearch.LastMessages | April29th/enhanced_search_tool.py:138 | `messages[-6:]`: the last six messages, or all of them when fewer |
| EnhancedSearch.MessageLines | April29th/enhanced_search_tool.py:140 | one `<type>: <content>` line per message, in order |
| EnhancedSearch.ConversationContext | April29th/enhanced_search_tool.py:120-145 | a context needs a loaded memory holding `chat_history`, and joins the window's lines with `\n` |
| EnhancedSearch.ContextWindowed | April29th/enhanced_search_tool.py:127-141 | a context exists iff the memory loaded and has a history, and then it covers at most the last six messages |
| EnhancedSearch.EmptyHistoryEmptyContext | April29th/enhanced_search_tool.py:134-141 | an empty history gives the empty context, not none |
| EnhancedSearch.OptimizeQuery | April29th/enhanced_search_tool.py:79-118 | when rendering the prompt or the call raises, the query comes back unchanged; otherwise the reply stripped |
| EnhancedSearch.LabelsPlain | April29th/enhanced_search_tool.py:93-106 | the context and query labels hold no brace |
| EnhancedSearch.BracedQueryFallsBack | April29th/enhanced_search_tool.py:95-118 | a query that is not a valid template never reaches the model and is searched as it is |
| EnhancedSearch.BracedContextFallsBack | April29th/enhanced_search_tool.py:91-118 | so is the query when the conversation context is not a valid template |
| EnhancedSearch.ContextLineRaises | April29th/enhanced_search_tool.py:93-105 | a context that raises makes the system text raise, whatever precedes the context line |
| EnhancedSearch.EmptyContextIgnored | April29th/enhanced_search_tool.py:91-93 | an empty context and no context give the same prompt, without the context line |
| EnhancedSearch.RunAsWritten | April29th/enhanced_search_tool.py:162-197 | the answer is always `Error performing search: name 'response' is not defined` |
| EnhancedSearch.RunAlwaysFails | April29th/enhanced_search_tool.py:162-197 | as written, every query, memory and model give the same answer, which starts with `Error performing search: ` |
| EnhancedSearch.RunIntended | April29th/enhanced_search_tool.py:162-197 | with `response` built, a failing search gives `Error performing search: ` and its error |
| EnhancedSearch.IntendedRunReportsResults | April29th/enhanced_search_tool.py:162-197 | with `response` built, the answer reports the search for the optimised query, or for the query itself when the model fails |
| VoiceAnalysis.CachedOrLoaded | receipts/transfers/voiceAnalysisServices.py:220-225 | a well-formed cache yields the model for the key, cached or loaded |
| VoiceAnalysis.SamLoweCacheUsesSavani | receipts/transfers/voiceAnalysisServices.py:220-222 | with `sam_lowe` cached, the savani model runs, or the lookup raises |
| VoiceAnalysis.SamLoweAlwaysSamLowe | receipts/transfers/voiceAnalysisServices.py:217-234 | the corrected lookup always runs the sam_lowe model, and agrees with the code when nothing is cached |
| VoiceAnalysis.SignRule | receipts/transfers/voiceAnalysisServices.py:98-99 | the score is kept or negated, it is positive iff the label is exactly `POSITIVE`, and `Positive` is negated |
| VoiceAnalysis.TextBlobRule | receipts/transfers/voiceAnalysisServices.py:267-272 | NEGATIVE iff polarity < -0.02 with subjectivity > 0; NEUTRAL iff -0.02 <= polarity <= 0.02; otherwise POSITIVE; the score is the polarity |
| VoiceAnalysis.TextBlobPositive | receipts/transfers/voiceAnalysisServices.py:267-272 | POSITIVE iff polarity > 0.02, or negative polarity with no subjectivity |
| VoiceAnalysis.TextBlobMonotone | receipts/transfers/voiceAnalysisServices.py:267-272 | with subjectivity, higher polarity never gives a worse label |
| VoiceAnalysis.TextBlobObjectiveNegative | receipts/transfers/voiceAnalysisServices.py:267-272 | polarity -0.5 with subjectivity 0 is labelled POSITIVE |
| VoiceAnalysis.TextBlobSentiments | receipts/transfers/voiceAnalysisServices.py:260-276 | an empty text gives nothing, any other the rule applied to TextBlob's scores |
| VoiceAnalysis.UsingTextBlob | receipts/transfers/voiceAnalysisServices.py:123-132 | unpacking nothing is caught as an error, and otherwise the rule's result |
| VoiceAnalysis.VaderRule | receipts/transfers/voiceAnalysisServices.py:361-374 | an empty score dict gives `bad_data` |
| VoiceAnalysis.VaderBands | receipts/transfers/voiceAnalysisServices.py:363-374 | compound >= 0.05 gives (Positive, pos), <= -0.05 (Negative, neg), otherwise (Neutral, neu) |
| VoiceAnalysis.VaderMonotone | receipts/transfers/voiceAnalysisServices.py:363-374 | a higher compound score never gives a worse label |
| VoiceAnalysis.VaderNeedsCompound | receipts/transfers/voiceAnalysisServices.py:363 | a non-empty dict without `compound` raises `KeyError` |
| VoiceAnalysis.FlairPair | receipts/transfers/voiceAnalysisServices.py:95-106 | a raised prediction is caught as an error pair |
| VoiceAnalysis.FlairPairSigned | receipts/transfers/voiceAnalysisServices.py:95-102 | flair's label is kept, and its score is negated unless the label is `POSITIVE` |
| VoiceAnalysis.UsingFlair | receipts/transfers/voiceAnalysisServices.py:73-106 | `return_all` gives the whole sentence, otherwise the signed pair |
| VoiceAnalysis.DistilbertPair | receipts/transfers/voiceAnalysisServices.py:150-162 | a raised call is caught as an error pair, and otherwise the first list's top entry gives the label and signed score |
| VoiceAnalysis.UsingDistilbert | receipts/transfers/voiceAnalysisServices.py:134-162 | `return_all` with some list gives the first list whole, and anything else the pair |
| VoiceAnalysis.DistilbertCases | receipts/transfers/voiceAnalysisServices.py:134-162 | errors and an empty reply are caught; an empty entry list gives the entries or `bad_data` |
| VoiceAnalysis.FirstEntry | receipts/transfers/voiceAnalysisServices.py:227-234 | `results[0]`, whole or as a label-score pair, and an uncaught error without one |
| VoiceAnalysis.UsingSamLowe | receipts/transfers/voiceAnalysisServices.py:217-234 | as written: with nothing cached under `sam_lowe` a freshly loaded sam_lowe model classifies; with `sam_lowe` and `savani` cached the savani model does; with `sam_lowe` alone the lookup raises `KeyError('savani')` |
| VoiceAnalysis.UsingSamLoweIntended | receipts/transfers/voiceAnalysisServices.py:217-234 | the corrected lookup: with a well-formed cache, the sam_lowe model classifies |
| VoiceAnalysis.SamLoweByCache | receipts/transfers/voiceAnalysisServices.py:217-234 | for each state of the cache, the as-written handler is the intended one, the savani handler, or the `KeyError` |
| VoiceAnalysis.UsingSavani | receipts/transfers/voiceAnalysisServices.py:194-215 | with a well-formed cache, the first entry of the savani model's output |
| VoiceAnalysis.ClassifyRows | receipts/transfers/voiceAnalysisServices.py:175 | every row's classifier output, in row order, iff no row raises; otherwise the exception of the first row that raises |
| VoiceAnalysis.FirstEntries | receipts/transfers/voiceAnalysisServices.py:176 | the first entry of every output iff none is empty; otherwise `list index out of range` |
| VoiceAnalysis.FrameRows | receipts/transfers/voiceAnalysisServices.py:175-177 | one row per text, in order, holding that text's first entry. Every row is classified before any entry is taken, so the first row whose classifier raises decides the error, and an empty output gives the index error only when no row raises |
| VoiceAnalysis.LaterErrorWins | receipts/transfers/voiceAnalysisServices.py:175-176 | with an empty output on the first row and a raising classifier on the second, the second row's exception escapes |
| VoiceAnalysis.UsingSavaniFrame | receipts/transfers/voiceAnalysisServices.py:164-191 | an empty frame cannot be sampled. Otherwise it gives the rows' error, or a frame whose row k is the first label and score of text k |
| VoiceAnalysis.AllScores | receipts/transfers/voiceAnalysisServices.py:108-121 | a table has the five keys, VADER's pair under `vader` and the sam_lowe handler's pair under `roberta` |
| VoiceAnalysis.AllKeys | receipts/transfers/voiceAnalysisServices.py:108-121 | the `All` table has exactly the keys textblob, flair, vader, roberta and distilbert, each with its handler's pair |
| VoiceAnalysis.AllFailsOnlyUncaught | receipts/transfers/voiceAnalysisServices.py:108-121 | the table fails iff the vader or the sam_lowe handler raises, since those two catch nothing |
| VoiceAnalysis.AllFailsWithoutSavani | receipts/transfers/voiceAnalysisServices.py:108-121 | with `sam_lowe` cached but not `savani`, the table fails with `KeyError('savani')` once VADER has scored |
| VoiceAnalysis.PerformAll | receipts/transfers/voiceAnalysisServices.py:108-121 | filling the dictionary step by step gives that table |
| VoiceAnalysis.Dispatch | receipts/transfers/voiceAnalysisServices.py:70-71 | any name not listed falls back to flair with the caller's `return_all` |
| VoiceAnalysis.DispatchExact | receipts/transfers/voiceAnalysisServices.py:36-71 | names match exactly: `all`, `Vader` and the empty name get flair, and roberta forces `return_all` |
| VoiceAnalysis.OnlySavaniLooksAtType | receipts/transfers/voiceAnalysisServices.py:54-60 | only the savani branch depends on the input's type |
| VoiceAnalysis.NextModel | receipts/transfers/voiceAnalysisServices.py:32-71 | `current_model` is set when absent, overwritten by every named branch, and kept by the fallback |
| VoiceAnalysis.LastNamedWins | receipts/transfers/voiceAnalysisServices.py:32-71 | after a session, the current model is the last named model asked for |
| VoiceAnalysis.FallbacksKeep | receipts/transfers/voiceAnalysisServices.py:70-71 | calls for unknown names keep a model already set |
| VoiceAnalysis.FirstUnknownStays | receipts/transfers/voiceAnalysisServices.py:32-34 | with only unknown names, the first name asked for stays current |
| VoiceAnalysis.Session.constructor | receipts/transfers/voiceAnalysisServices.py:32 | a new session has no current model |
| VoiceAnalysis.Session.PerformSentimentAnalysis | receipts/transfers/voiceAnalysisServices.py:31-71 | the call updates `current_model` as above and answers with the dispatched handler |
| AgenticChatbot.InitializeTools | April29th/main_implementation.py:76-106 | the router over the five specialised tools, those five in order, then `llm-math` |
| AgenticChatbot.RouterCoversSpecialised | April29th/main_implementation.py:87-104 | the router routes to tools 1-5 and not to `llm-math`, and every listed tool is the router, one it routes to, or `llm-math` |
| AgenticChatbot.ExitAnyCase | April29th/main_implementation.py:211 | `exit` in any case ends the loop |
| AgenticChatbot.ExitWholeWord | April29th/main_implementation.py:211 | only the whole word does: spaces or other words do not |
| AgenticChatbot.CommandsDisjoint | April29th/main_implementation.py:211-215 | no line is both the exit and the load command |
| AgenticChatbot.AfterPrefix | April29th/main_implementation.py:216 | the text after the 15-character prefix, or nothing for a shorter line |
| AgenticChatbot.StripEach | April29th/main_implementation.py:217 | every entry is stripped, and the count is kept |
| AgenticChatbot.ParsePaths | April29th/main_implementation.py:216-217 | there is one path per comma of the stripped rest of the line, plus one |
| AgenticChatbot.PathsAreClean | April29th/main_implementation.py:216-217 | no path holds a comma or starts or ends with a space |
| AgenticChatbot.StripEachClean | April29th/main_implementation.py:217 | stripping comma-free pieces leaves them comma-free, with no space at either end |
| AgenticChatbot.BarePrefixOneEmptyPath | April29th/main_implementation.py:216-217 | a bare prefix, in any case, gives `['']` |
| AgenticChatbot.PathsTrimmed | April29th/main_implementation.py:216-217 | `load documents: a.pdf ,b` gives `a.pdf` and `b` |
| AgenticChatbot.EmptyEntryKept | April29th/main_implementation.py:216-217 | empty entries between commas are kept |
| AgenticChatbot.LoadDocuments | April29th/main_implementation.py:186-201 | an exception gives `Error loading documents: <error>`, and success the `Successfully loaded ... documents into the knowledge base.` message |
| AgenticChatbot.LoadReportsCount | April29th/main_implementation.py:186-201 | success reports the number of paths in decimal, and an exception becomes `Error loading documents: ...` |
| AgenticChatbot.LoadIgnoresResult | April29th/main_implementation.py:197-198 | the message does not depend on what the manager returned |
| AgenticChatbot.ProcessQuery | April29th/main_implementation.py:160-184 | the agent answers the enhanced query, and any exception becomes the error message |
| AgenticChatbot.AnswerLine | April29th/main_implementation.py:213-223 | a line that is not `exit` is answered by the loader for a load command and by the agent otherwise, as the transcript's reply function says |
| AgenticChatbot.Converse | April29th/main_implementation.py:203-223 | the loop's replies and exit are the transcript of the input lines |
| AgenticChatbot.TalkExitedIffStop | April29th/main_implementation.py:209-212 | the loop ends by `break` iff some line is the stop line |
| AgenticChatbot.TalkAnswersInOrder | April29th/main_implementation.py:209-223 | every reply answers its own line, given the lines before it |
| AgenticChatbot.TalkStops | April29th/main_implementation.py:209-223 | replies stop at the first stop line, or at the end of input |
| AgenticChatbot.ExitedIffExitLine | April29th/main_implementation.py:209-212 | the chat ends early iff some line is `exit` in some case |
| AgenticChatbot.RepliesInOrder | April29th/main_implementation.py:213-223 | reply k answers line k, which is not `exit`, with the earlier lines as history |
| AgenticChatbot.RepliesStopAtExit | April29th/main_implementation.py:209-223 | one reply per line before the first `exit`, or per line when there is none |
| AgenticChatbot.LoadCommandBypassesAgent | April29th/main_implementation.py:215-220 | a load command is answered by the loader alone, whatever the agent does |
| PromptTemplate.Render | April29th/response_refiner_tool.py:48-62 | whenever the template pass raises, it raises the one template error |
| PromptTemplate.Escape | April29th/response_refiner_tool.py:48-62 | escaping every brace never shortens a text |
| PromptTemplate.RenderEscape | April29th/response_refiner_tool.py:48-62 | rendering undoes escaping: an escaped text reaches the model as the original |
| PromptTemplate.RenderPlain | April29th/response_refiner_tool.py:48-62 | a text without braces reaches the model as it is |
| PromptTemplate.RenderAppend | April29th/response_refiner_tool.py:48-62 | a text that renders is consumed whole, so what follows is rendered on its own and appended |
| PromptTemplate.PrependAssoc | April29th/response_refiner_tool.py:48-62 | a character in front of a prefixed rendering is the longer prefix |
| PromptTemplate.LoneBraceRaises | April29th/query_router_tool.py:75-92 | a brace that is not doubled, after a text that renders, makes the whole text raise |
| PromptTemplate.RaisesBeforePlain | April29th/query_router_tool.py:75-92 | a text that raises still raises with a suffix that does not start with a brace |
| PromptTemplate.RaisesAfterAnything | April29th/query_router_tool.py:75-92 | a text that raises and does not start with a brace raises after any prefix |
| PromptTemplate.NoBracesAppend | April29th/query_router_tool.py:75-89 | texts without braces put together hold none |
| PromptTemplate.RenderPrompt | April29th/response_refiner_tool.py:48-62 | the prompt renders iff both texts do, and then holds both rendered texts |
| PromptTemplate.InvokeSpec | April29th/response_refiner_tool.py:62 | a prompt that raises never reaches the model, whatever it is; one that renders sends the model the rendered texts |
| PromptTemplate.PlainPromptVerbatim | April29th/response_refiner_tool.py:48-62 | texts without braces reach the model verbatim |
| PromptTemplate.HumanPartRaises | April29th/response_refiner_tool.py:59-62 | a human message whose variable part raises, after a head without braces, makes the call raise before the model |
| Text.Lower | April29th/main_implementation.py:211 | `lower()` keeps the length and lowers each ASCII capital |
| Text.LowerIdempotent | April29th/main_implementation.py:211 | lowering twice is lowering once |
| Text.StripInfix | HybridChunker.py:99 | `strip()` is a slice of the text, with only whitespace cut from either side |
| Text.StripEnds | HybridChunker.py:99 | a non-empty stripped text starts and ends with a non-space |
| Text.StripEmpty | HybridChunker.py:101 | the stripped text is empty iff the text is all whitespace |
| Text.Split | April29th/main_implementation.py:216 | `split(',')` gives at least one piece, none holding a comma, and rejoining gives the text |
| Text.SplitCount | April29th/main_implementation.py:216 | one piece per separator plus one |
| Text.SplitJoin | April29th/main_implementation.py:216 | splitting a join of comma-free pieces gives the pieces back |
| Text.JoinAppend | April29th/stock_info_tool.py:218 | joining one more part appends the separator and the part |
| Text.NatToStringValue | April29th/main_implementation.py:198 | the decimal text of a count reads back as the count |
| Text.ContainsAnySpec | April29th/stock_info_tool.py:157-158 | `any(k in q for k in keys)` holds iff some key is a substring |

## Left out

- SentenceTransformer encoding and the FAISS L2/IVF distance kernel are left out; each is a function parameter. FAISS padding a short result with `-1` is covered only through Python's negative indexing in `Rag.ListIndex`.
- spaCy parsing: the sentence ends of `_get_semantic_boundaries` are an input sequence.
- JSON and file persistence, `os.makedirs`, `faiss.write_index`/`read_index`: saving and loading are the identity on the index value and the record list.
- Rag.FaissIndex.Save: returns the index value as it stands, because the file write is modelled as the identity; its contract says no more than that.
- The nearest-neighbour order of search hits belongs to the FAISS kernel, which is a parameter: `Rag.RagSystem.Search` says which ids are looked up, not that they are the nearest.
- FAISS's own exceptions are left out: an IVF index trained on fewer points than its 100 lists (HybridChunker.py:155, 163-165) and a vector of the wrong dimension both make FAISS raise, and the model accepts them.
- Language model calls (`invoke`, `agent.run`), HTTP `requests`, yfinance, speech recognition and the classifier pipelines are function parameters returning raised-or-returned outcomes.
- `LoadModules` loading, and the Streamlit page, are left out; the model cache is a map of classifiers keyed by name.
- `_get_stock_info`, `_get_historical_data` and the rewriting of `basic_info` entries are left out: they are yfinance calls and number formatting. The two f-strings in `_run` that render the info card and the history block (April29th/stock_info_tool.py:184-194, 203-213) are not modelled either. The two blocks come in as rendered text: `info` and `history` return `Found(block)` holding the rendered card or history block, or `Failed(error)` holding the `error` entry.
- `datetime.now()` is left out: the last-month and last-week ranges are fields of a clock parameter.
- Float formatting (`:.2f`, billions, percents) is a function parameter. Scores and amounts are `real`, with no claim about float rounding.
- `lower()`, `\w` and `\d` are ASCII only. `strip()` uses Python's `isspace` set.
- The Python regex engine in general is left out. The patterns of the ticker, account-id and file-path searches are hand-coded.
- `urljoin` is modelled only for relative references without dot segments, query or fragment (the only ones the tool passes).
- The LangChain library is not part of this model. Of `ChatPromptTemplate`, only the pass that reads each message text as an f-string template is modelled. Every exception that pass can raise (`KeyError`, `ValueError`, `IndexError`) is one `TemplateError` message.
- The exact text of the Pydantic parser's format instructions comes from the library. Only its opening, up to the first `{"`, is modelled, and the rest is a parameter.
- `create_react_agent` requires the prompt variables `tools`, `tool_names` and `agent_scratchpad` (April29th/main_implementation.py:135-148), so the chatbot probably raises when the agent is built. Agent construction is not modelled: `agent.run` is a parameter.
- AccountApi.Run: each field of the API's reply is an `Option`, and `None` stands for a missing key, for which `dict.get` returns its default. A JSON `null` is not modelled: `dict.get` returns `None` for it, not the default. In the source, a `null` id, name, type, status, currency, open date, date or description is printed as `None` (April29th/account_api_toolv1.1.py:258-259, 289-293, 308, 331-334, 355-359). A `null` amount, balance or available balance makes `amount < 0` or `:.2f` raise TypeError (April29th/account_api_toolv1.1.py:263, 296, 311-312, 358). A reply body that is not a JSON object makes `.get` raise AttributeError. Both exceptions end in the outer `except`, which answers `Error processing account request: ...`. The model covers replies that are JSON objects without `null` fields.
- AccountApi.UrlJoin: a base that has an authority but no path would get a `/` inserted by `urljoin`; that case is not modelled, since the tool's base always has a path.
- VoiceAnalysis.UsingSavaniFrame: the exact message of the empty-sample error depends on the pandas version; the model uses one fixed text.
- `re.IGNORECASE` folds Unicode case in the document patterns; the model folds ASCII letters only.
- DocumentProcessor.ProcessedReport: the `content`, `metadata` and metadata fields of a processed document are `Option`s, and `None` stands for a missing key. A JSON `null` is not modelled. In the source, a `null` `content` makes `len(None)` raise TypeError (April29th/document_processor_tool.py:188). A `null` `metadata` makes `.get` raise AttributeError (lines 190-192). Both exceptions end in the outer `except` (lines 201-203), which answers `Error processing document request: ...`. A `null` metadata field is printed as `None`.
- The print, banner and logging output is left out. `process_query`'s `enhance_query` receives the earlier input lines in place of the LangChain memory object.
- Chunker.ChunkText: the loop runs under a fuel bound. `done` false means the fuel ran out while Python would still be looping, and the non-termination lemmas state that case.
- VoiceAnalysis.Session.PerformSentimentAnalysis: requires that a DataFrame goes only to the savani branch. The other handlers would fail on a frame in ways the libraries decide.
- VoiceAnalysis.UsingSavaniFrame: the caller's DataFrame is changed in place (receipts/transfers/voiceAnalysisServices.py:175-179). It gains a `result` column, then `label` and `score` columns, and then `result` is dropped, so after the call the caller's frame still carries `label` and `score`. The model does not represent the caller's frame after the call. It returns only the new frame that the handler builds from `label` and `score` as its `sentiment` and `polarity` columns (lines 183-185), as a sequence of rows.
- The `bad_data` branch of the old savani path (receipts/transfers/voiceAnalysisServices.py:213-215) is not modelled separately; it is the same first-entry rule.
- April29th/account_api_tool.py is identical to April29th/account_api_toolv1.1.py up to its last line (230). It ends inside `_run`'s `try` block and does not parse. The v1.1 file is the model, and its rows cover the same lines of the earlier copy.
- The outer `except` of the account tool's `_run` (April29th/account_api_toolv1.1.py:363-365) is not modelled. Request errors come back as `error` replies, which the model covers. The handler is reached only on the replies the model does not represent, as listed under AccountApi.Run above.
- April29th/response_refiner_tool.py ends inside a docstring at line 278. `_parse_refinement_parameters` and `_run`, which come after it, are not part of this model.

## Findings

| source | as written | input that shows it | evidently intended | confidence | as-written member | corrected member |
|---|---|---|---|---|---|---|
| April29th/account_api_toolv1.1.py:67 | `urljoin(base_url, endpoint)` with a base that does not end in `/` | endpoint `accounts` gives `http://localhost:8080/api/account/accounts` | `http://localhost:8080/api/account/v1/accounts` | not executed | AccountApi.UrlJoinDropsVersion | AccountApi.RequestUrl |
| April29th/enhanced_search_tool.py:193 | `return response`, with the lines that built `response` commented out | any query: the name lookup raises and the answer is `Error performing search: name 'response' is not defined` | the search results for the optimised query | not executed | EnhancedSearch.RunAlwaysFails | EnhancedSearch.IntendedRunReportsResults |
| receipts/transfers/voiceAnalysisServices.py:222 | the cached-`sam_lowe` branch fetches `all_modules['savani']` | a cache holding both `sam_lowe` and `savani` runs the savani classifier for `roberta`, and one holding `sam_lowe` alone raises `KeyError('savani')` | the cached `sam_lowe` classifier | not executed | VoiceAnalysis.UsingSamLowe | VoiceAnalysis.UsingSamLoweIntended |
| April29th/query_router_tool.py:75-92 | the parser's format instructions interpolated into the f-string system text, which `from_messages` then reads as a template | any query: the Pydantic instructions hold `{"properties"`, an undoubled brace, so formatting raises and the answer is `Error routing query: ...` | the instructions passed as a partial variable, reaching the model verbatim | not executed | QueryRouter.PydanticRouterAlwaysFails | QueryRouter.IntendedRouterKeepsInstructions |
