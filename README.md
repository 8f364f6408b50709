# open_deep_research helpers, modelled in Dafny

This project models the helper code around the `open_deep_research`
example agent of smolagents, in five parts:

- **`JsonBlob`** (`json_blob.dfy`): the tolerant action parser
  `parse_json_blob`. If the blob has no double quote, every single quote
  becomes a double quote. The parser then cuts the text from the first `{`
  through the last `}`, decodes it, and returns the value together with the
  text before the first `{`. On a decode failure it raises "multiple tool
  calls" when the characters around the failure offset are `},\n`, and a
  generic error otherwise. It does not lift a function-call envelope
  around the parsed value; it returns the decoded value as it is.
- **`WebSearch`** (`web_search.dfy`): the search tool pipeline of
  `scripts/web_search.py`. It covers the DuckDuckGo and Google engines,
  including Google's HuggingFace post-filter that removes links from the
  list it is iterating over. It also covers the crawler's dict-or-string
  result, the collection of the dict pages, and `LLMExtractor.run`: the
  numbered context, the single completion call and the "No web content
  found." sentinel. On top of these sit `search_web`, `SearchWebTool` and
  `GetContentTool`. The search APIs, the crawler's fetch and the chat
  completion call are parameters.
- **`JudgeScore`** (`judge_score.dfy`): `parse_score` of the LLM-judge
  evaluation. It picks the first fenced block, decodes it and takes
  `score`. On any failure it returns the text it extracted.
- **`TokenStats`**, **`TokenLog`** (`token_stats.dfy`, `token_log.dfy`):
  the token-usage log parser `parse_log.py`. This covers:
  - `find_number_after_keyword`;
  - the JSON-lines scan over `intermediate_steps` and the text-log scan
    over response, VLM and search-web lines;
  - the entire-output list;
  - `get_median_and_max`, which sorts the list in place;
  - the final totals.
- **`VisionLog`** (`vision_log.dfy`): `parse_log_vision_browser.py`. It
  reads the question count from the header line, collects the prompt and
  completion token lines, counts the steps and sums the tokens.

`PyStr` (`py_str.dfy`) defines the Python string and list operations the
code relies on. These are `str.find` with a start, slicing with negative
and clamped bounds, `strip`, `split`, `[-1]`, `replace`, `startswith`,
`endswith`, `int()` on decimal text and `sum`. `Json` (`json.dfy`) is the
decoded JSON value. `json.loads` is a parameter of type `Decoder`. It
returns a value, or a decode error with its message and character offset.

Python exceptions are modelled as `Failure` values of a `Result`. Each
module names the exceptions its code can raise, and the scripts stop at
the first one, as Python does.

The web-search code does not reformulate queries or fall back to another
engine, and it has no fetch cache of its own. The crawler's run
configuration switches crawl4ai's cache on (`scripts/web_search.py:57`),
and the model records that setting, but the cache's behaviour is not
modelled. The model follows the code, so none of these appear in it.

## Model

| member | source | states |
|---|---|---|
| JsonBlob.ParseJsonBlob | examples/open_deep_research/test_json_parser.py:5-25 | On success the preamble is a prefix of the normalised blob and holds no `{`. A generic decode error carries the whole normalised blob and a window of at most nine characters. |
| JsonBlob.NormalizeQuotesSpec | examples/open_deep_research/test_json_parser.py:8-9 | Without a `"`, every `'` becomes `"`, nothing else changes and no `'` remains. With a `"`, the blob is left exactly as it is. The length is kept, and normalising twice equals normalising once. |
| JsonBlob.NormalizeKeepsBraces | examples/open_deep_research/test_json_parser.py:8-11 | Normalisation leaves every brace in place, so a `}` exists afterwards iff it existed before. |
| JsonBlob.CandidateIsBraceSpan | examples/open_deep_research/test_json_parser.py:10-12 | When the first `{` comes at or before the last `}`, the text handed to the decoder is exactly the span from that `{` through that `}`, inclusive. |
| JsonBlob.CandidateEdgeCases | examples/open_deep_research/test_json_parser.py:10-12 | With no `{`, `find` gives -1 and the slice starts at -1, so the candidate is `}` when the blob ends with `}` and empty otherwise. A first `{` after the last `}` gives an empty candidate. |
| JsonBlob.PreambleOnSuccess | examples/open_deep_research/test_json_parser.py:12-14 | On success the value is the decoder's result on the candidate. The second result is the text before the first `{`, and preamble plus candidate is a prefix of the normalised blob. |
| JsonBlob.NoClosingBraceIff | examples/open_deep_research/test_json_parser.py:11 | The uncaught IndexError of `[...][-1]` happens exactly when the blob has no `}`. |
| JsonBlob.MultipleToolCallsIff | examples/open_deep_research/test_json_parser.py:15-20 | The "multiple tool calls" error is raised iff decoding fails at offset `p` and the normalised blob's slice `[p-1:p+2]` is `},\n`. |
| JsonBlob.InvalidJsonOtherwise | examples/open_deep_research/test_json_parser.py:21-25 | Any other decode failure raises the generic error. It carries the decoder's message, the whole normalised blob and the window `[p-4:p+5]`. |
| JsonBlob.InvalidJsonMessage | examples/open_deep_research/test_json_parser.py:21-25 | The generic error's text contains the blob. |
| JsonBlob.MultipleToolCallsWithoutPreamble | examples/open_deep_research/test_json_parser.py:13-20 | When the blob starts with `{`, the failure offset indexes the candidate, so a `},\n` at the failure point is reported as multiple tool calls. |
| JsonBlob.SecondCallDetected | examples/open_deep_research/test_json_parser.py:15-20 | Two calls separated by `},\n` with no preamble raise the "multiple tool calls" error. |
| JsonBlob.SecondCallMissedBehindPreamble | examples/open_deep_research/test_json_parser.py:13-24 | The same two calls behind `Action:\n` raise the generic error instead. The decoder's offset is relative to the candidate but is used to index the whole blob. |
| JsonBlob.NormalizeDictText | examples/open_deep_research/test_json_parser.py:8-9 | A single-quoted two-entry dict whose words hold no quotes normalises to its double-quoted form. |
| JsonBlob.ToolCallExample | examples/open_deep_research/test_json_parser.py:28-31 | The module's example parses to the decoded two-entry mapping with an empty preamble. |
| WebSearch.SearchResults | examples/open_deep_research/scripts/web_search.py:18-39 | An API error passes through unchanged. With the API answering, the only failure is KeyError(`link`) for Google or KeyError(`href`) for DuckDuckGo. DuckDuckGo gives one URL per hit, and Google never more than it got. |
| WebSearch.GoogleFilter | examples/open_deep_research/scripts/web_search.py:31-35 | The filtered list is a subsequence of the links, so it is never longer. |
| WebSearch.Urls | examples/open_deep_research/scripts/web_search.py:22 | `[r[key] for r in results]` succeeds iff every result has the key. It then gives one URL per result, in order. Otherwise it raises KeyError(key). |
| WebSearch.GooglePostFilter | examples/open_deep_research/scripts/web_search.py:32-35 | The loop that removes links from the list it iterates computes `GoogleFilter`, cursor semantics included. |
| WebSearch.PerformSearch | examples/open_deep_research/scripts/web_search.py:18-39 | Either engine's `perform_search` computes `SearchResults`. |
| WebSearch.DuckDuckGoSearch | examples/open_deep_research/scripts/web_search.py:18-24 | An API error passes through. Otherwise the result is exactly the `href` of each hit, in order, and a hit without `href` raises KeyError. |
| WebSearch.GoogleFilterSpec | examples/open_deep_research/scripts/web_search.py:32-35 | The filtered list is a subsequence of the links. Its non-HuggingFace links are exactly those of the input, so no other link is ever removed. |
| WebSearch.GoogleFilterNoHuggingFace | examples/open_deep_research/scripts/web_search.py:32-35 | Without HuggingFace links the filter changes nothing. |
| WebSearch.HeadSurvives | examples/open_deep_research/scripts/web_search.py:32-35 | Once the cursor is past the head, a head that occurs nowhere else is never removed. |
| WebSearch.ConsecutiveHuggingFaceSkipped | examples/open_deep_research/scripts/web_search.py:32-35 | Of two consecutive HuggingFace links, the second is never examined and ends up first in the output. |
| WebSearch.GoogleSearch | examples/open_deep_research/scripts/web_search.py:27-39 | API errors and missing `link` keys pass through. Otherwise the result is the filtered link list, a subsequence of the links. |
| WebSearch.NewWebCrawler | examples/open_deep_research/scripts/web_search.py:42-60 | Given configurations are kept. A missing one becomes a verbose browser config or the default run config: threshold 10, `form`/`header` excluded, external links excluded, iframes processed, overlays removed, cache enabled. |
| WebSearch.Crawl | examples/open_deep_research/scripts/web_search.py:62-87 | The result is a dict iff the fetch succeeds, and the dict holds the URL and the markdown. Otherwise it is the failure text ending in the URL. |
| WebSearch.CrawlAll | examples/open_deep_research/scripts/web_search.py:169-171 | One crawl per URL, in order. |
| WebSearch.Pages | examples/open_deep_research/scripts/web_search.py:172-173 | Only dicts are kept, and no more entries than were given. |
| WebSearch.CollectPages | examples/open_deep_research/scripts/web_search.py:201-206 | The crawl loop returns the dict results of crawling every URL, in order. |
| WebSearch.CollectedPages | examples/open_deep_research/scripts/web_search.py:168-173 | The collected pages are exactly the successfully crawled URLs with their markdown, in result order. Those URLs form a subsequence of the results. |
| WebSearch.ContextSplit | examples/open_deep_research/scripts/web_search.py:117-124 | The context of a concatenation is the two contexts joined, with the second numbered from the length of the first. |
| WebSearch.ContextAppend | examples/open_deep_research/scripts/web_search.py:117-124 | Appending a page appends its entry, numbered by its position in the whole list. |
| WebSearch.ContextEmptyIff | examples/open_deep_research/scripts/web_search.py:117-124 | The context is empty iff no entry is a dict. |
| WebSearch.SkippedEntryUsesIndex | examples/open_deep_research/scripts/web_search.py:117-124 | A non-dict entry still uses up its index, so a page after a failed crawl is numbered `[1]`. |
| WebSearch.NewClient | examples/open_deep_research/scripts/web_search.py:98-103 | The client is built iff an explicit key or `OPENAI_API_KEY` is present. An explicit key wins over the environment one. It always has timeout 180, 3 retries and the given URL, and a missing key raises the client's missing-key error. |
| WebSearch.DefaultExtractor | examples/open_deep_research/scripts/web_search.py:91 | `LLMExtractor()` with no arguments talks to Together with the 70B default model, and exists iff some API key is set. |
| WebSearch.NewLLMExtractor | examples/open_deep_research/scripts/web_search.py:90-111 | Any provider other than "together" raises ValueError with the provider's name. For "together", construction succeeds iff `TOGETHER_API_KEY` or `OPENAI_API_KEY` is set, and otherwise the client raises. On success the client has timeout 180, 3 retries and the Together URL, uses the Together key when one is set, and the extractor holds the given model. |
| WebSearch.ToolExtractorIsTogether | examples/open_deep_research/scripts/web_search.py:175 | The tools' extractor exists iff some API key is set. It is then the Together extractor with the 8B model, and otherwise its construction raises the missing-key error. |
| WebSearch.UserMessage | examples/open_deep_research/scripts/web_search.py:128-134 | The prompt contains the context and ends with the question line. |
| WebSearch.Run | examples/open_deep_research/scripts/web_search.py:113-151 | The context loop and the completion call compute `Synthesize`. |
| WebSearch.Synthesize | examples/open_deep_research/scripts/web_search.py:137-151 | At most one completion request is sent. With none the reply is the sentinel with 0/0 tokens. A request sent uses the extractor's model, 2048 max tokens and temperature 0.2. |
| WebSearch.SynthesizeSpec | examples/open_deep_research/scripts/web_search.py:137-151 | With no dict page there is no completion call, and the reply is the sentinel with 0/0 tokens. Otherwise there is exactly one call: the extractor's model, the context in the user message, 2048 max tokens, temperature 0.2. The answer and token counts then come from the reply, or its error passes through. |
| WebSearch.SelectEngine | examples/open_deep_research/scripts/web_search.py:190-193 | Google iff the name is "google", DuckDuckGo otherwise. |
| WebSearch.NewSearchWebTool | examples/open_deep_research/scripts/web_search.py:187-195 | The tool exists iff its extractor can be built, and its construction raises the missing-key error otherwise. Its engine is Google iff the name is "google". It holds a default crawler and the Together 8B extractor. |
| WebSearch.DefaultSearchWebTool | examples/open_deep_research/scripts/web_search.py:187-195 | `SearchWebTool()` with no argument uses Google and the 8B model, and exists iff its extractor can be built. |
| WebSearch.NewGetContentTool | examples/open_deep_research/scripts/web_search.py:232-235 | The tool exists iff its extractor can be built, and raises the missing-key error otherwise. It holds a default crawler and the Together 8B extractor. |
| WebSearch.SearchPipeline | examples/open_deep_research/scripts/web_search.py:197-212 | Search, crawl, collect and synthesize, in that order, compute `SearchSession`. |
| WebSearch.SearchWebForward | examples/open_deep_research/scripts/web_search.py:197-212 | `SearchWebTool.forward` is the pipeline with the tool's engine, crawler and extractor. |
| WebSearch.SearchWeb | examples/open_deep_research/scripts/web_search.py:154-180 | `search_web` computes its session: DuckDuckGo results, a default crawler, then the 8B extractor, built only after every crawl. |
| WebSearch.SearchWebIsDuckDuckGoTool | examples/open_deep_research/scripts/web_search.py:162-176 | When its extractor can be built, `search_web` behaves as the search tool built with any engine name other than "google". |
| WebSearch.SearchWebWithoutKey | examples/open_deep_research/scripts/web_search.py:162-176 | Without any API key, a failed search still raises its own error. A successful search is crawled and then raises the missing-key error, before any completion request is sent. |
| WebSearch.SearchSessionSpec | examples/open_deep_research/scripts/web_search.py:197-212 | A failed search raises before any crawl or request. Otherwise every result is crawled in order and at most one request is sent. With no successful crawl the answer is the sentinel and no request is sent. |
| WebSearch.GetContentForward | examples/open_deep_research/scripts/web_search.py:237-243 | `GetContentTool.forward` crawls the one URL and runs the extractor on the one-element list. |
| WebSearch.ContentCrawlFailed | examples/open_deep_research/scripts/web_search.py:237-243 | A failed crawl gives the sentinel answer and sends no request. |
| WebSearch.ContentCrawlSucceeded | examples/open_deep_research/scripts/web_search.py:237-243 | A successful crawl sends exactly one request, whose context is entry `[0]` with the URL and the markdown. |
| WebSearch.SecondCrawlFails | examples/open_deep_research/scripts/web_search.py:201-206 | When the second of three crawls fails, the kept pages are the first and third, numbered 0 and 1. |
| JudgeScore.ScoreCandidate | examples/open_deep_research/eval_llm_judge.py:55-58 | Without a fence the reply is kept as it is. With a fence the extracted text holds no fence and neither starts nor ends with whitespace. |
| JudgeScore.ParseScore | examples/open_deep_research/eval_llm_judge.py:54-64 | A decoded score means the extracted text decoded. A text score is the extracted text: the reply itself without a fence, and a text without a fence otherwise. |
| JudgeScore.JsonFenceCandidate | examples/open_deep_research/eval_llm_judge.py:55-56 | With a ```` ```json ```` fence, the candidate is the text after the first such fence, cut at the next ```` ```json ```` and then at the first ```` ``` ````, stripped. |
| JudgeScore.PlainFenceCandidate | examples/open_deep_research/eval_llm_judge.py:57-58 | With only plain fences, the candidate is the text between the first and second fence (or the end), stripped. |
| JudgeScore.NoFenceCandidate | examples/open_deep_research/eval_llm_judge.py:55-58 | Without a fence the reply is decoded as it is, unstripped. |
| JudgeScore.FencedJsonBlock | examples/open_deep_research/eval_llm_judge.py:55-56 | For a usual reply (preamble, ```` ```json ```` body, closing fence, tail) the candidate is the stripped body. |
| JudgeScore.ParseScoreSpec | examples/open_deep_research/eval_llm_judge.py:59-64 | The score is the decoded `score` entry iff the candidate decodes to a mapping with that key. Otherwise it is the candidate text, and `parse_score` never raises. |
| TokenStats.SortSeq | examples/open_deep_research/parse_log.py:90 | The order `list.sort()` leaves: sorted and a permutation of the input. |
| TokenStats.MaxOf | examples/open_deep_research/parse_log.py:92 | `max` is a member of the list and no smaller than any member. |
| TokenStats.Max | examples/open_deep_research/parse_log.py:92 | The scan that `max` performs returns `MaxOf` of the list: a member no smaller than any other. |
| TokenStats.MedianAndMax | examples/open_deep_research/parse_log.py:83-93 | An empty list gives (0, 0). Otherwise both results are members, the median is the sorted list's element at `len // 2`, and it never exceeds the maximum, which bounds every element. |
| TokenStats.GetMedianAndMax | examples/open_deep_research/parse_log.py:83-93 | Returns `MedianAndMax` of the original contents. A non-empty array is left sorted in place, and an empty one is untouched. |
| TokenLog.FindNumberAfterKeyword | examples/open_deep_research/parse_log.py:13-15 | The extracted text holds no comma and neither starts nor ends with whitespace. |
| PyStr.ParseIntDigits | examples/open_deep_research/parse_log.py:37-38 | `int()` of optional whitespace, an optional sign and decimal digits, then optional whitespace, is the signed value of the digits. |
| PyStr.ParseIntRejects | examples/open_deep_research/parse_log.py:37-38 | `int()` raises on blank text, on a lone sign, on a first character that is neither a digit nor a sign, and on a later character that is not a digit. |
| TokenLog.NumberBeforeComma | examples/open_deep_research/parse_log.py:13-15 | With the keyword present and a comma after it, the result is the stripped text between the keyword and that comma. |
| TokenLog.NumberAtEndOfLine | examples/open_deep_research/parse_log.py:13-15 | With no comma after the keyword, `find` gives -1 and the slice drops the line's last character. |
| TokenLog.MissingKeywordStart | examples/open_deep_research/parse_log.py:13-15 | A missing keyword makes the slice start at `len(keyword) - 1`. |
| TokenLog.CountRoundTrip | examples/open_deep_research/parse_log.py:13-15 | `int(find_number_after_keyword(pre + keyword + str(n) + "," + rest))` is `n`. |
| TokenLog.CountIf | examples/open_deep_research/parse_log.py:63-66 | A line with the prefix adds one count, and any other line adds none. |
| TokenLog.LineCounts | examples/open_deep_research/parse_log.py:47-66 | One text line adds the same number of input and output counts and of VLM input and output counts, and no reasoning count. |
| TokenLog.TextScan | examples/open_deep_research/parse_log.py:46-66 | The text-log loop only appends to its lists and never touches the reasoning list. It can only raise the ValueError of `int()`. |
| TokenLog.ScanTextLog | examples/open_deep_research/parse_log.py:46-66 | The text-log loop computes `TextScan` from empty lists. |
| TokenLog.TextScanCollects | examples/open_deep_research/parse_log.py:46-66 | The scan succeeds iff the list-by-list reference definition does, and then extends the lists by it. Each list is the counts of exactly the lines with its prefix, in line order. |
| TokenLog.TextScanAligned | examples/open_deep_research/parse_log.py:47-62 | A text log keeps input/output and VLM input/output aligned and adds no reasoning counts. |
| TokenLog.JsonStep | examples/open_deep_research/parse_log.py:33-34 | A string step without `completion_tokens` is skipped. |
| TokenLog.CountedStep | examples/open_deep_research/parse_log.py:34-42 | A counted step appends its prompt and completion counts, and its reasoning count only for a reasoner log. It leaves every other list as it was. |
| TokenLog.RecordSteps | examples/open_deep_research/parse_log.py:32-33 | A decode error, a non-mapping record and a missing `intermediate_steps` key each raise their own exception. Otherwise an array gives its items in order and a string gives its one-character strings, one per character. A mapping raises (see "## Left out"), and any other value is not iterable. |
| TokenLog.JsonlScan | examples/open_deep_research/parse_log.py:29-42 | The JSON-lines loop only appends to its lists and leaves the VLM and search lists as they were. |
| TokenLog.ScanJsonlLog | examples/open_deep_research/parse_log.py:29-42 | The nested JSON-lines loops compute `JsonlScan` from empty lists. |
| TokenLog.JsonlScanShaped | examples/open_deep_research/parse_log.py:29-42 | A JSON-lines log gives aligned input/output lists and a reasoning list aligned with them for a reasoner log (empty otherwise). No VLM or search counts are added. |
| TokenLog.StringStepsSkipped | examples/open_deep_research/parse_log.py:32-34 | Steps given as a string are iterated character by character and never counted. |
| TokenLog.ParseLogShape | examples/open_deep_research/parse_log.py:28-66 | A `.jsonl` path takes the JSON-lines branch, with the reasoner flag from the path. Any other path takes the text branch, which succeeds iff the reference definition does. Input and output stay aligned. |
| TokenLog.EntireOutputTokens | examples/open_deep_research/parse_log.py:76-79 | The loop computes `EntireOutput`. |
| TokenLog.EntireOutputTotal | examples/open_deep_research/parse_log.py:76-79 | With aligned lists it never raises. No reasoning gives an empty list; otherwise the entire-output total is the output total plus the reasoning total. |
| TokenLog.MedianAndMaxOfList | examples/open_deep_research/parse_log.py:95-101 | Calling `get_median_and_max` on a list returns its `MedianAndMax` and leaves a permutation of it. |
| TokenLog.Summarize | examples/open_deep_research/parse_log.py:95-119 | The statistics block computes `SummaryOf`. |
| TokenLog.LogReport | examples/open_deep_research/parse_log.py:25-119 | The script reports iff reading the log succeeds: the statistics never raise. When reading fails, its exception is the script's. |
| TokenLog.ParseLogScript | examples/open_deep_research/parse_log.py:25-119 | The whole script computes `LogReport`. |
| TokenLog.ReportAfterParse | examples/open_deep_research/parse_log.py:76-119 | A parsed log always reports. The step count equals the input and output list lengths, and the totals are the sums of those lists. The entire-output statistics are (0, 0) without reasoning; otherwise the entire-output total is the output total plus the reasoning total. |
| VisionLog.NumQuestionsReads | examples/open_deep_research/parse_log_vision_browser.py:9 | With the last `Loaded` of the first line followed by a count text and then `questions`, the question count is `int()` of that text, stripped. Anything before that `Loaded` and any later lines do not matter. |
| PyStr.LastPartAfter | examples/open_deep_research/parse_log_vision_browser.py:9 | For a separator whose first character does not recur in it, `split(sep)[-1]` is the text after its last occurrence. |
| VisionLog.HeaderRoundTrip | examples/open_deep_research/parse_log_vision_browser.py:9 | A header `pre + "Loaded " + str(n) + " questions" + rest` gives `n`. |
| VisionLog.TokenText | examples/open_deep_research/parse_log_vision_browser.py:13 | Taking `split(":")[1]` raises iff the line has no colon. |
| VisionLog.TokenTextBetweenColons | examples/open_deep_research/parse_log_vision_browser.py:13 | The token text is the stripped text between the first and second colon, or to the end of the line. |
| VisionLog.TokenLineText | examples/open_deep_research/parse_log_vision_browser.py:12-14 | A line `name:count` with one colon gives the stripped `count`. |
| VisionLog.TokenStep | examples/open_deep_research/parse_log_vision_browser.py:12-17 | A line mentioning neither marker changes nothing. A marked line appends at most one token, and it raises only for a missing colon. |
| VisionLog.TokenScan | examples/open_deep_research/parse_log_vision_browser.py:11-17 | The loop only appends, at most one token per line, and it can only raise for a missing colon. |
| VisionLog.CollectTokens | examples/open_deep_research/parse_log_vision_browser.py:11-17 | The token loop computes `TokenScan` from empty lists. |
| VisionLog.TokenScanCounts | examples/open_deep_research/parse_log_vision_browser.py:11-19 | The prompt list gets one entry per prompt line. The completion list gets one entry per completion line that is not also a prompt line. |
| VisionLog.TokenScanContents | examples/open_deep_research/parse_log_vision_browser.py:11-17 | The two lists are exactly the token texts of their marked lines, in order. |
| VisionLog.TokenScanFails | examples/open_deep_research/parse_log_vision_browser.py:11-17 | The loop raises iff some marked line has no colon. |
| VisionLog.Parses | examples/open_deep_research/parse_log_vision_browser.py:24 | The converted list holds the integer value of every token, in order. |
| VisionLog.IntTotal | examples/open_deep_research/parse_log_vision_browser.py:24 | The sum can only raise the ValueError of `int()`. |
| VisionLog.IntTotalIsSum | examples/open_deep_research/parse_log_vision_browser.py:24 | The total exists iff every token is a decimal integer, and is then the sum of their values. Otherwise it raises on a token that is not one. |
| VisionLog.IntTotalValue | examples/open_deep_research/parse_log_vision_browser.py:24 | A total that exists means every token parsed, and it is the sum of their values. |
| VisionLog.IntTotalOfCounts | examples/open_deep_research/parse_log_vision_browser.py:29 | Counts written as `str(n)` add up to their sum. |
| VisionLog.VisionReport | examples/open_deep_research/parse_log_vision_browser.py:7-31 | An empty log raises. A report has a non-zero question count and no more steps than lines. Every collected token is then a number, and the two printed totals are the sums of the prompt and the completion values. ZeroDivisionError comes only from a header count of 0, and a missing colon only from the token loop. |
| VisionLog.VisionScript | examples/open_deep_research/parse_log_vision_browser.py:7-31 | The whole script computes `VisionReport`. |
| VisionLog.VisionReportSpec | examples/open_deep_research/parse_log_vision_browser.py:9-29 | An empty log raises. A report exists only for a non-zero question count, and its step count is the number of prompt lines. Its totals are the sums of the parsed prompt and completion tokens. A zero count raises ZeroDivisionError once the token loop has run. |

## Left out

- File reading, `print`, `time.sleep`, `asyncio.run` and the smolagents `Tool` metadata (name, description, inputs) are not modelled. The logs are given as a list of lines and the printed numbers as a result record.
- The JSON grammar is not modelled. `json.loads` (and `strict=False`) is a parameter that returns a value or an error with its offset.
- The DuckDuckGo and Google APIs, the crawl4ai fetch and the OpenAI-compatible chat call are parameters. Their own retries, timeouts, rate limits and `CacheMode` behaviour are not modelled. The crawler's printed error message is dropped.
- `TOGETHER_API_KEY` and `OPENAI_API_KEY` are the `ApiKeys` parameter. The OpenAI client's own fallback to `OPENAI_API_KEY` is modelled, but its other environment settings are not. `WORKDIR` is left out, and `DATAPATH` is unused by the modelled code.
- The web-search code has no query reformulation, no fallback between engines, no fetch cache of its own and no function-envelope lifting of parsed blobs. None of these are modelled, because the code does not do them.
- The floating-point averages are not modelled: `parse_log.py:120-122` (division by 15) and `parse_log_vision_browser.py:21-31`. For the vision log only the ZeroDivisionError of a zero question count is modelled.
- TokenLog.RecordSteps: an `intermediate_steps` value that is a JSON object (iterated over its keys in Python) is modelled as an error. Key order is not part of the JSON model.
- `int()` accepting `_` separators and non-ASCII digits is not modelled. Only a sign and ASCII digits, with surrounding whitespace, are accepted.
- A crash part-way through a text line in `parse_log.py` can leave earlier appends of that line behind. The model does not capture this, because the script stops there and the partial lists are never printed.
- `load_data` and the judging loop of `eval_llm_judge.py`, the other files of the example (`vision_web_browser.py`, `text_inspector_tool.py`, `test_web_agent.py`, `test_helium.py`) and `web_search.py` after line 244 are not part of this model.
