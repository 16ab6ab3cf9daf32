# Risk-register pipeline: a Dafny model

This project models the discrete logic of a pipeline that turns a company's
10-K filings or news headlines into a scored, classified risk register:

- **Chunking and list recovery** (`models/risk_extraction/utils.py`). The
  tokenizer's token sequence is cut into consecutive windows of at most
  `max_tokens` (default 10000). A language-model reply is parsed as JSON. When
  that fails, the parser falls back to the lazy `[...]` span.
- **Extraction drivers** (`models/risk_extraction/final.py`,
  `models/risk_extraction/10K-trial_extractor.py`):
  - filing discovery with a bounded download retry;
  - filing texts concatenated in order;
  - an exit on whitespace-only text;
  - a prompt fill with the first 4000 characters of each chunk;
  - per-chunk risk accumulation, in which failing chunks add nothing;
  - in `final.py`, a selection of 50 evenly spaced chunks.
- **Band-constrained batch scorer** (`risk-extraction/risk_matrix_generator.py`):
  - 70 % / 28 % / remainder band counts;
  - a shuffled label list;
  - one scoring prompt per risk, naming the band's range;
  - the JSON taken from a ```json fence or from the whole reply;
  - the fallback `{likelihood: 1, impact: 1}` for a failed item;
  - the first 200 risks paired with their scores by position;
  - the CSV rows.
- **Retrying scorer** (`models/risk_extraction/risk_matrix_generator.py`):
  - the validation chain of `score_risk`;
  - `safe_score_risk`, which makes `retries + 1` attempts and sleeps only between attempts;
  - `main`, which drops the risks that could not be scored.
- **3T classification** (`risk-extraction/prepare_3T_from_ticker.py`):
  - column names are stripped and lower-cased;
  - `risk_score = likelihood * impact`;
  - the score maps to Transfer (65 and above), Treat (40 to 64) or Tolerate;
  - the Treat rows are written to their own file.
- **News prompt** (`risk-extraction/extractor.py`):
  - the query has every space replaced by `+`;
  - the first 15 headlines become `- title` lines;
  - `{COMPANY_NAME}` is substituted before `{HEADLINES}`;
  - the output file name has spaces replaced by `_`.
- **Risk selection page** (`frontend/src/pages/Simulator.jsx`):
  - the selection toggle;
  - the loop that posts one simulation request per selected risk and keeps the successful results in selection order.

Everything outside the program becomes a parameter (an oracle) of type
function: the language model, the tokenizer, `json.loads`, the random source
of the shuffle, the file system, the filing downloader, the HTML text
extractor, the RSS reader and the simulation service. Pure code is written as
functions and lemmas. The loops are methods with invariants, each proved
against a specification function. The in-place shuffle works on an `array`.
The DataFrame and the page state are classes whose methods update their fields.

Files:
- `wrappers.dfy`: `Option`, `Result`.
- `text.dfy`: Python's `strip` (full `str.isspace` set), `upper` and `lower` (ASCII letters), `replace`, `join` and decimal formatting.
- `json.dfy`: JSON values, dict lookup, Python's `in`, `extend` and truthiness.
- `chunker.dfy`, `risk_list_parser.dfy`, `fence.dfy`: the two parsers and the chunker.
- `risk_matrix.dfy`: shared matrix-stage definitions (ticker, paths, CSV, cap of 200).
- `band_scorer.dfy`: the batch scorer.
- `retry_scorer.dfy`: the retrying scorer.
- `three_t.dfy`: the 3T stage.
- `filings.dfy`, `extraction.dfy`: the extraction drivers.
- `news.dfy`: the news prompt.
- `simulator_page.dfy`: the page.

## Intent versus code

Two places where the code does something other than what its own docstring or
check evidently means. Each is modelled both ways, as the Findings table lists.

- **Band counts.** The docstring of `batched_score_risks`
  (risk-extraction/risk_matrix_generator.py:40-43) gives the split as 70 % low,
  28 % medium and 2 % high. The code computes `int(0.70 * total)` in binary
  floating point (lines 46-47). At N = 90 this gives one low fewer and one high
  more than 70 % (`BandScorer.FloatBandCounts`, `BandScorer.FloatCountsAtNinety`).
  The label list, the shuffle and the batch scorer use the exact 70 % floor
  (`BandScorer.BandCounts`).
- **Key check of the retrying scorer.** The check at
  models/risk_extraction/risk_matrix_generator.py:97 uses Python's `in`, which
  also accepts a list or a string that merely contains the key names
  (`RetryScorer.KeyCheckAsWritten`, `RetryScorer.KeyNamesInAListPass`). The
  rest of the retrying scorer's model uses the corrected check, which accepts
  only a dict holding both keys (`RetryScorer.KeyCheck`). The two checks agree
  on every dict (`RetryScorer.KeyChecksAgreeOnObjects`).

Two further points hold in the code as written:

- **Failed scores.** The batch scorer never retries and substitutes
  `{likelihood: 1, impact: 1}` (lines 80-82). The retrying scorer retries and
  then drops the risk (models/risk_extraction/risk_matrix_generator.py:203-211).
- **Score range.** Neither scorer checks that scores lie in 1..10
  (`BandScorer.NoRangeCheck`).

## Model

| member | source | states |
|---|---|---|
| Chunker.ChunkText | models/risk_extraction/utils.py:34-40 | the chunks are the decoded token windows of the encoded text, one per window, in order |
| Chunker.WindowsConcatenate | models/risk_extraction/utils.py:36-37 | concatenating the windows gives back exactly the token sequence: no overlap, no gap, no reordering |
| Chunker.WindowsCount | models/risk_extraction/utils.py:36 | there are ceil(n / max_tokens) windows, so none for an empty text |
| Chunker.WindowsSizes | models/risk_extraction/utils.py:36-37 | every window but the last holds exactly max_tokens tokens; the last holds between 1 and max_tokens |
| Chunker.ChunksReassemble | models/risk_extraction/utils.py:34-38 | for a decoder that respects concatenation, joining the chunks gives decode(encode(text)) |
| RiskListParser.BracketSpan | models/risk_extraction/utils.py:65 | a found span starts at a `[` with no `[` before it and ends at a `]` after it |
| RiskListParser.BracketSpanExists | models/risk_extraction/utils.py:65-66 | a span is found exactly when some `]` follows the first `[` |
| RiskListParser.BracketSpanLeftmostShortest | models/risk_extraction/utils.py:65 | no match starts earlier, and the span has no `]` inside it: the regex is lazy |
| RiskListParser.LeftmostBracketWins | models/risk_extraction/utils.py:65-70 | the span starts at the first `[` even when a later one would parse: `x[[1]` gives the span `[[1]` and the "cleaned JSON" error |
| RiskListParser.ParseRisksJson | models/risk_extraction/utils.py:55-72 | a reply that parses whole is returned unchanged, with no list check; "no array" is raised exactly when the reply does not parse and has no bracket pair; otherwise the result is the parsed span, or the "cleaned JSON" error when the span does not parse |
| RiskListParser.ProseAroundList | models/risk_extraction/utils.py:60-68 | a list after a line of prose is recovered from its exact span |
| RiskListParser.NoBrackets | models/risk_extraction/utils.py:71-72 | unparseable text without brackets raises "no JSON array" |
| RiskListParser.LazySpanStopsAtFirstBracket | models/risk_extraction/utils.py:65 | a `]` inside a quoted item cuts the span short |
| Fence.FenceGroup | risk-extraction/risk_matrix_generator.py:33 | a captured group starts with `{` and ends with `}` |
| Fence.FenceGroupIsLeftmostGreedy | risk-extraction/risk_matrix_generator.py:33 | a group is found exactly when the regex can match somewhere; it runs from the leftmost fence opening to the last `}` followed by a closing fence |
| Fence.JsonText | risk-extraction/risk_matrix_generator.py:33-34 | the JSON text taken from a non-empty reply is never empty |
| Fence.FencedExample | risk-extraction/risk_matrix_generator.py:33 | the object inside a ```json fence is extracted |
| BandScorer.BandCounts | risk-extraction/risk_matrix_generator.py:45-48 | the three band counts sum to N; low is floor(70 % of N), medium floor(28 % of N) |
| BandScorer.HighBandShare | risk-extraction/risk_matrix_generator.py:48 | the high band gets at least 2 % of N and fewer than 2 % of N plus 2 |
| BandScorer.BandCountsOfTen | risk-extraction/risk_matrix_generator.py:45-48 | ten risks give 7 low, 2 medium, 1 high |
| BandScorer.BandLabelsCounts | risk-extraction/risk_matrix_generator.py:50 | the label list has N labels: exactly the counts of low, medium and high |
| BandScorer.Shuffle | risk-extraction/risk_matrix_generator.py:51 | the in-place shuffle permutes the array: same multiset of labels |
| BandScorer.DrawBands | risk-extraction/risk_matrix_generator.py:50-51 | the shuffled labels are N labels with the band counts |
| BandScorer.ShuffledBandsKeepCounts | risk-extraction/risk_matrix_generator.py:50-51 | any permutation of the labels keeps the counts of each band |
| BandScorer.BandRange | risk-extraction/risk_matrix_generator.py:58-62 | each band's range lies within 1..10 |
| BandScorer.BandRangesPartitionScale | risk-extraction/risk_matrix_generator.py:58-62 | every score in 1..10 lies in exactly one band's range |
| BandScorer.BandInstructionStatesRange | risk-extraction/risk_matrix_generator.py:58-62 | each band's instruction names that band's range |
| BandScorer.ScoringPromptMentions | risk-extraction/risk_matrix_generator.py:64-75 | the prompt contains the band's instruction and the risk text |
| BandScorer.ScoreRiskDecodes | risk-extraction/risk_matrix_generator.py:26-36 | the score is the decoded fence group when the regex matches, else the decoded stripped reply |
| BandScorer.FailureGivesUsableFallback | risk-extraction/risk_matrix_generator.py:80-82 | an item whose reply does not decode gets the fallback, whose likelihood and impact are both 1 |
| BandScorer.NoRangeCheck | risk-extraction/risk_matrix_generator.py:31-36 | any decoded likelihood and impact are kept, however far outside 1..10 |
| BandScorer.ScorePrompts | risk-extraction/risk_matrix_generator.py:55-83 | one score per prompt, at its own position, whether the call succeeds or fails |
| BandScorer.BatchedScoreRisks | risk-extraction/risk_matrix_generator.py:38-84 | output length and order equal the input's; the bands are a permutation of the labels; item i is scored with its own band's prompt |
| BandScorer.AllCallsFail | risk-extraction/risk_matrix_generator.py:77-82 | when every call fails, every item gets the fallback |
| BandScorer.PairScores | risk-extraction/risk_matrix_generator.py:131-137 | the rows pair each risk with its score by position, up to the shorter list; a score lacking a key stops the run at the first such index |
| BandScorer.ScoreFirstRisks | risk-extraction/risk_matrix_generator.py:128-137 | the scores are the batch scorer's output for the first min(N, 200) risks; pairing succeeds exactly when every score has both keys, and then row k holds risk k with score k's likelihood and impact; otherwise it stops at the first score lacking a key |
| BandScorer.ScoreTickerRisks | risk-extraction/risk_matrix_generator.py:109-139 | a missing API key, a missing file and unparseable JSON each end the run exactly when they occur; otherwise the first min(N, 200) risks are batch-scored, the run fails on a missing key exactly when some score lacks one (at the first such index); the matrix is saved exactly when the key is present, the file loads and every score has both keys, and row k then pairs risk k with score k |
| BandScorer.FloatBandCounts | risk-extraction/risk_matrix_generator.py:46-48 | the counts computed with binary floating point still sum to N, and n_high is never negative |
| BandScorer.RoundUpBound | risk-extraction/risk_matrix_generator.py:46-47 | rounding an exact product to the nearest double raises it by at most a 2^-52 fraction |
| BandScorer.ShareBound | risk-extraction/risk_matrix_generator.py:46-47 | `int(c * total)` is at most the exact product times (2^52 + 1) / 2^104 |
| BandScorer.FloatCountsFit | risk-extraction/risk_matrix_generator.py:46-48 | the floating-point low and medium counts together never exceed N |
| BandScorer.FloatCountsAtNinety | risk-extraction/risk_matrix_generator.py:46-47 | at N = 90 the floating-point low count is 62, while 70 % of 90 is 63 |
| RiskMatrix.CsvLinesAppend | risk-extraction/risk_matrix_generator.py:104-105 | the CSV body is one line per item, in item order |
| RiskMatrix.LineHasOneBreak | risk-extraction/risk_matrix_generator.py:105 | a row with integer scores and a one-line risk is exactly one line |
| RiskMatrix.CsvLineBreaks | risk-extraction/risk_matrix_generator.py:102-105 | such a matrix gives a header plus one line per item |
| RiskMatrix.UnescapedQuotesAreAmbiguous | risk-extraction/risk_matrix_generator.py:105 | because embedded quotes are not escaped, two different matrices can give the same CSV |
| RiskMatrix.FirstRisks | risk-extraction/risk_matrix_generator.py:128 | the subset is the first min(N, 200) risks |
| RetryScorer.RaisedAs | models/risk_extraction/risk_matrix_generator.py:103-121 | only a decoding failure escapes as ValueError; every other failure is re-raised as RuntimeError |
| RetryScorer.KeyCheck | models/risk_extraction/risk_matrix_generator.py:97-101 | corrected: the check passes exactly when the value is an object with both keys, and returns it unchanged |
| RetryScorer.KeyChecksAgreeOnObjects | models/risk_extraction/risk_matrix_generator.py:97 | on objects the corrected and written checks agree; whatever the corrected check accepts, the written one accepts |
| RetryScorer.KeyNamesInAListPass | models/risk_extraction/risk_matrix_generator.py:97 | the written check accepts the list ["likelihood", "impact"], which has neither key |
| RetryScorer.ScoreRiskSucceeds | models/risk_extraction/risk_matrix_generator.py:51-101 | with the corrected key check: scoring succeeds exactly when the reply has candidates, readable non-empty text, a decodable extracted string and a dict holding both keys; the result is that decoded value |
| RetryScorer.ScoreRiskEarlyFailures | models/risk_extraction/risk_matrix_generator.py:53-76 | a raising call, no candidates, an unreadable text and an empty stripped text each raise at their own step |
| RetryScorer.EmptyJsonCheckIsDead | models/risk_extraction/risk_matrix_generator.py:80-91 | the empty-extraction check can never fire |
| RetryScorer.MissingKeyRejected | models/risk_extraction/risk_matrix_generator.py:96-101 | an object lacking a key is rejected by both checks |
| RetryScorer.Attempts | models/risk_extraction/risk_matrix_generator.py:127 | there are retries + 1 attempts |
| RetryScorer.FirstOk | models/risk_extraction/risk_matrix_generator.py:127-129 | finds the first successful attempt; every earlier one failed, and none means all failed |
| RetryScorer.SafeScoreRisk | models/risk_extraction/risk_matrix_generator.py:123-134 | with the corrected key check: returns the first success or None; makes 1 to retries + 1 calls, stopping at the first success; sleeps once fewer than it calls |
| RetryScorer.TryOnce | models/risk_extraction/risk_matrix_generator.py:128-129 | one attempt gives that attempt's result |
| RetryScorer.DefaultAttemptBound | models/risk_extraction/risk_matrix_generator.py:123 | with the defaults, at most 3 calls and 4 seconds of sleep |
| RetryScorer.SafeScoreAccepted | models/risk_extraction/risk_matrix_generator.py:127-129 | with the corrected key check: a returned score has both keys and is truthy, so `main` keeps it |
| RetryScorer.Kept | models/risk_extraction/risk_matrix_generator.py:197-211 | the matrix has at most one row per risk |
| RetryScorer.Scored | models/risk_extraction/risk_matrix_generator.py:200-208 | every listed index is below the count and its score came back with both keys |
| RetryScorer.ScoredIncreasing | models/risk_extraction/risk_matrix_generator.py:200-208 | the listed indices are strictly increasing: risk order is kept |
| RetryScorer.ScoredComplete | models/risk_extraction/risk_matrix_generator.py:200-208 | every risk whose score came back with both keys is listed |
| RetryScorer.KeptIsSubsequence | models/risk_extraction/risk_matrix_generator.py:200-211 | row j is the row for the j-th scored risk: the matrix is the order-preserving subsequence of scored risks |
| RetryScorer.AllScoredKeepsAll | models/risk_extraction/risk_matrix_generator.py:203-208 | when every risk is scored, row k is risk k |
| RetryScorer.NoneScoredKeepsNone | models/risk_extraction/risk_matrix_generator.py:210-211 | when every risk fails, the matrix is empty |
| RetryScorer.SubsetScores | models/risk_extraction/risk_matrix_generator.py:200-202 | one score per risk; each returned score has both keys |
| RetryScorer.ScoreSubset | models/risk_extraction/risk_matrix_generator.py:197-211 | the matrix is the kept rows; each risk costs 1 to 3 calls |
| RetryScorer.ScoreTickerRisks | models/risk_extraction/risk_matrix_generator.py:169-214 | with the corrected key check: no key, missing file and bad JSON end the run exactly when they occur; otherwise the kept rows of the first 200 risks are saved; never more than 600 calls |
| ThreeT.Classify | risk-extraction/prepare_3T_from_ticker.py:29-35 | Transfer exactly when the score is 65 or more, Treat exactly for 40 to 64, Tolerate exactly below 40 |
| ThreeT.ClassifyMonotone | risk-extraction/prepare_3T_from_ticker.py:29-35 | a higher score never gives a milder action |
| ThreeT.ActionNamesDistinct | risk-extraction/prepare_3T_from_ticker.py:31-35 | the three labels are distinct |
| ThreeT.ActionOf | risk-extraction/prepare_3T_from_ticker.py:37 | a number is classified by value; a missing score (NaN) fails every comparison and gives Tolerate |
| ThreeT.Times | risk-extraction/prepare_3T_from_ticker.py:26 | the product of two numbers; a missing operand gives a missing score; a non-numeric operand fails |
| ThreeT.NormaliseAll | risk-extraction/prepare_3T_from_ticker.py:25 | one normalised name per column |
| ThreeT.NormaliseIdempotent | risk-extraction/prepare_3T_from_ticker.py:25 | normalising twice is normalising once |
| ThreeT.Find | risk-extraction/prepare_3T_from_ticker.py:26 | the first column with that name, or none exactly when it is absent |
| ThreeT.RecordColumns | risk-extraction/prepare_3T_from_ticker.py:22 | the columns are the keys of some record, each once |
| ThreeT.FromRecords | risk-extraction/prepare_3T_from_ticker.py:22 | one well-shaped row per record |
| ThreeT.SetColumnReadsBack | risk-extraction/prepare_3T_from_ticker.py:26-37 | an assigned column reads back the values, row by row |
| ThreeT.SetColumnKeepsOther | risk-extraction/prepare_3T_from_ticker.py:26-37 | a column with another name keeps its position and every cell |
| ThreeT.SetColumnKeepsColumns | risk-extraction/prepare_3T_from_ticker.py:26-37 | the existing column names stay a prefix, and every cell of a differently named column is unchanged |
| ThreeT.RiskScores | risk-extraction/prepare_3T_from_ticker.py:26 | each row's score is likelihood times impact; failure exactly when some row's product fails |
| ThreeT.Actions | risk-extraction/prepare_3T_from_ticker.py:37 | each row's action is the label of its score's class |
| ThreeT.ScoreThenClassify | risk-extraction/prepare_3T_from_ticker.py:26-37 | after scoring, every row's risk_score is its likelihood times impact, and its action classifies that score |
| ThreeT.ScoringKeepsColumns | risk-extraction/prepare_3T_from_ticker.py:26-37 | scoring keeps the existing columns, in place, and their cells |
| ThreeT.ScoredRows | risk-extraction/prepare_3T_from_ticker.py:22-37 | a scored table has one row per record, with a score equal to the product and an action classifying it |
| ThreeT.MissingColumns | risk-extraction/prepare_3T_from_ticker.py:26 | the run stops on a missing likelihood or impact column exactly when it is missing after normalisation |
| ThreeT.TreatRowsMembership | risk-extraction/prepare_3T_from_ticker.py:44 | a row is in the Treat file exactly when it is a row whose action is Treat |
| ThreeT.TreatRowsAppend | risk-extraction/prepare_3T_from_ticker.py:44 | the filter works row by row, so the original order is kept |
| ThreeT.Frame.constructor | risk-extraction/prepare_3T_from_ticker.py:22 | the frame holds the table built from the records |
| ThreeT.Frame.NormaliseColumns | risk-extraction/prepare_3T_from_ticker.py:25 | the column names are normalised and the rows are unchanged |
| ThreeT.Frame.Assign | risk-extraction/prepare_3T_from_ticker.py:26-37 | the column is overwritten, or appended when new |
| ThreeT.ScoreFrame | risk-extraction/prepare_3T_from_ticker.py:22-37 | the in-place steps give the scored table, with an action column |
| ThreeT.Prepare3T | risk-extraction/prepare_3T_from_ticker.py:5-44 | a missing input ends the run with nothing written, exactly when the file is missing; the run stops exactly when the file exists and scoring fails; otherwise it writes the full table and its Treat rows under the ticker's paths |
| Filings.SubmissionsSpec | models/risk_extraction/10K-trial_extractor.py:24-31 | the collected paths are exactly the submission files of listed sub-directories |
| Filings.ListSubmissions | models/risk_extraction/10K-trial_extractor.py:25-29 | the loop collects those paths in listing order |
| Filings.EnsureFilingsExist | models/risk_extraction/10K-trial_extractor.py:19-47 | the recursion returns what the bounded search describes |
| Filings.ExistingFilesShortCircuit | models/risk_extraction/10K-trial_extractor.py:24-31 | files already on disk are returned with no download |
| Filings.DownloadBound | models/risk_extraction/final.py:21-46 | at most max_attempts - attempts + 1 downloads; past the limit with nothing on disk, the result is empty |
| Filings.DefaultDownloadBound | models/risk_extraction/10K-trial_extractor.py:19 | with the defaults, at most 3 downloads |
| Filings.DownloadErrorStops | models/risk_extraction/10K-trial_extractor.py:42-44 | a download that raises ends the search with no files and no further download |
| Filings.ResultIsFound | models/risk_extraction/final.py:21-46 | any returned files are what the disk showed after the downloads made |
| Extraction.ExcerptIsPrefix | models/risk_extraction/final.py:57 | the excerpt is the first min(length, 4000) characters of the chunk |
| Extraction.FillPromptReplacesEach | models/risk_extraction/10K-trial_extractor.py:56 | each placeholder is replaced by the excerpt; a template without one is unchanged |
| Extraction.ListReplyContributesItems | models/risk_extraction/final.py:92-94 | a reply that parses as a list contributes its items |
| Extraction.AccumulatedAppend | models/risk_extraction/final.py:89-96 | the risks are the per-chunk results concatenated in chunk order |
| Extraction.FailedChunkSkipped | models/risk_extraction/final.py:95-96 | a failing chunk adds nothing and does not stop the run |
| Extraction.AccumulatedSingle | models/risk_extraction/final.py:91-94 | one chunk contributes its own parse result |
| Extraction.Replies | models/risk_extraction/10K-trial_extractor.py:82-85 | one reply per chunk |
| Extraction.AccumulateRisks | models/risk_extraction/10K-trial_extractor.py:79-89 | the loop gives the accumulated risks of the chunks' replies |
| Extraction.FilingsTextAppend | models/risk_extraction/final.py:71-74 | the text is the filings' texts concatenated in filing order |
| Extraction.ConcatFilings | models/risk_extraction/final.py:71-74 | the loop builds that text |
| Extraction.LinspaceSpec | models/risk_extraction/final.py:85 | 50 indices, non-decreasing, within the chunks, the first 0 and the last n - 1 |
| Extraction.Selection | models/risk_extraction/final.py:85 | exactly 50 chunks are selected, whatever the chunk count |
| Extraction.SelectionEnds | models/risk_extraction/final.py:85 | the selection starts at the first chunk and ends at the last |
| Extraction.GatherText | models/risk_extraction/10K-trial_extractor.py:64-72 | no filings ends the run; otherwise the concatenated text |
| Extraction.RunTrialPipeline | models/risk_extraction/10K-trial_extractor.py:60-95 | no filings and blank text end the run exactly when they occur; otherwise every chunk is sent once and the risks accumulate in chunk order |
| Extraction.RunFinalPipeline | models/risk_extraction/final.py:62-102 | the same exits; then exactly 50 requests over the selection, or an index failure when there are no chunks |
| Extraction.ChunksExist | models/risk_extraction/final.py:81-85 | a text with tokens has at least one chunk |
| News.QuerySpec | risk-extraction/extractor.py:12 | the query is the name with every space, and only spaces, replaced by `+` |
| News.FetchHeadlines | risk-extraction/extractor.py:11-16 | the first min(n, 15) titles in feed order |
| News.HeadlineTextLines | risk-extraction/extractor.py:20 | the lines are joined by single line breaks and start with `- ` |
| News.HeadlineTextEnd | risk-extraction/extractor.py:20 | the block ends with the last bullet, with no trailing line break |
| News.NameSubstitutedFirst | risk-extraction/extractor.py:21 | the name is substituted first, so a name reading `{HEADLINES}` is itself replaced |
| News.HeadlinesInsertedAsTheyAre | risk-extraction/extractor.py:21 | the headlines are inserted last and never searched for the name placeholder |
| News.OutputPathSpec | risk-extraction/extractor.py:40 | the file name carries the company name with every space replaced by `_` |
| News.ExtractRisksForCompany | risk-extraction/extractor.py:28-42 | no headlines ends the run exactly when the feed is empty; otherwise the reply is saved exactly when the model call returns, and the run fails exactly when it raises; a saved reply is the model's answer to the filled prompt, at the output path |
| SimulatorPage.Remove | frontend/src/pages/Simulator.jsx:28 | the filter drops the name and keeps every other name |
| SimulatorPage.RemoveAppend | frontend/src/pages/Simulator.jsx:28 | the filter works element by element, so the others keep their relative order |
| SimulatorPage.RemoveAbsent | frontend/src/pages/Simulator.jsx:28 | filtering out an absent name changes nothing |
| SimulatorPage.ToggleSpec | frontend/src/pages/Simulator.jsx:25-31 | the toggled name's membership flips and every other name's is unchanged; an absent name is appended and the length grows by one |
| SimulatorPage.ToggleTwiceRestores | frontend/src/pages/Simulator.jsx:27-29 | toggling an absent name twice restores the selection |
| SimulatorPage.ToggleTwiceMovesToEnd | frontend/src/pages/Simulator.jsx:27-29 | toggling a present name twice drops its copies and appends one |
| SimulatorPage.OneRequestPerRisk | frontend/src/pages/Simulator.jsx:43-56 | one request per selected risk, in selection order, with the fixed parameters |
| SimulatorPage.ResultsAndFailuresCount | frontend/src/pages/Simulator.jsx:43-68 | each risk gives either a result or an alert |
| SimulatorPage.AllSucceed | frontend/src/pages/Simulator.jsx:63-64 | when every request succeeds, result i is the response for risk i |
| SimulatorPage.Page.constructor | frontend/src/pages/Simulator.jsx:6-8 | empty selection and results; not loading |
| SimulatorPage.Page.ToggleRiskSelection | frontend/src/pages/Simulator.jsx:25-31 | the selection becomes its toggle; nothing else changes |
| SimulatorPage.Page.FetchSimulations | frontend/src/pages/Simulator.jsx:34-72 | an empty selection only alerts; otherwise loading is switched on, each risk is requested, the successes become the results in selection order, and loading is switched off |
| SimulatorPage.Page.RunRequests | frontend/src/pages/Simulator.jsx:43-68 | the loop keeps the successful responses in order, while loading stays on |
| Text.StripSpec | risk-extraction/risk_matrix_generator.py:115 | with whitespace as Python's `str.isspace` defines it: the stripped text is empty exactly when the input is all whitespace; otherwise it is the middle of the input, with no whitespace at either end |
| Text.ReplaceLength | models/risk_extraction/final.py:57 | each occurrence is replaced: the length changes by the count times the size difference |
| Text.ReplaceChar | risk-extraction/extractor.py:12 | replacing one character changes exactly the positions holding it |
| Text.JoinCount | risk-extraction/extractor.py:20 | joining puts one separator between consecutive parts |
| Text.DigitsRoundTrip | risk-extraction/risk_matrix_generator.py:105 | the decimal digits written for a score read back as that score |
| Json.FieldValue | risk-extraction/risk_matrix_generator.py:135-136 | a key's value is its last occurrence's, as `json.loads` keeps the last duplicate |
| Json.Index | risk-extraction/risk_matrix_generator.py:135-136 | indexing succeeds exactly on a dict with the key |
| Json.DictKeys | risk-extraction/prepare_3T_from_ticker.py:22 | the keys of a dict, each once |
| Json.ExtendItems | models/risk_extraction/final.py:94 | `extend` adds a list's items, a string's characters or a dict's keys (each once); it fails on null, booleans and numbers |
| Json.ContainsImpliesTruthy | models/risk_extraction/risk_matrix_generator.py:203 | a value that passed the key check is truthy |

## Left out

- **Oracles.** The language model, the tokenizer, `json.loads`, the RNG of
  `random.shuffle`, `os.listdir`/`os.path.isfile`, the SEC downloader,
  BeautifulSoup text extraction (`extract_text_from_filing`), feedparser, the
  prompt template files and the simulation service are all parameters. Their
  behaviour is not modelled.
- **File I/O.** `save_json`, `load_prompt_template`, `load_risks`, the JSON
  and CSV writes and `os.makedirs` are reduced to the paths and the data they
  would write.
- **Effects.** `print`, the `alert` dialogs themselves (only their messages are recorded), `time.sleep` (counted
  as a number of sleeps, not timed) and React rendering are not modelled.
- **JSON numbers.** JSON numbers are integers; floating-point scores are not modelled.
- **Risk files.** Risk files are taken to hold a list of strings.
- Chunker.ChunkText: requires `max_tokens >= 1`. Python's `range` raises on a
  step of 0 and gives nothing for a negative step; neither case occurs with
  the default of 10000.
- Extraction.Selection: `np.linspace(..., dtype=int)` truncates floats. The
  model uses the exact `(k*(n-1))/49`. The two can differ by one for some
  chunk counts (for example 120); the proved properties (50 indices, ordered,
  in range, first and last) hold for both.
- ThreeT.Times: multiplying a string by an integer (pandas repetition) and
  floating-point cells are not modelled. A non-numeric cell stops the run.
- ThreeT.Find: when two columns normalise to the same name, pandas returns
  both; the model takes the first.
- ThreeT.FromRecords: the DataFrame is built only from a list of dicts.
  Other JSON shapes are not modelled.
- The order in which a React state update becomes visible is not modelled.
  `SimulatorPage.Page` applies each setter at once and records the page's
  effects in an event log.
- Text.Upper, Text.Lower: only the ASCII letters are mapped. Python also maps
  other cased letters (for example `é` to `É`); the pipeline applies them to
  tickers and column names.
- Json.QuotedRepr, Json.Show: a string is always printed in single quotes,
  with no escaping, where Python's `repr` switches to double quotes or escapes
  when the text holds a quote or a control character. A dict with a
  duplicated key is printed with every copy, where the Python dict keeps only
  the last. These texts reach the output only when a CSV cell holds a list or
  a dict instead of a number.
- `montecarlo/`, the Flask API, the sign-up and loading pages and
  `extract_risk_section` are not part of this model.

## Findings

| source | as written | input that shows it | evidently intended | confidence | as-written member | corrected member |
|---|---|---|---|---|---|---|
| risk-extraction/risk_matrix_generator.py:46-47 | `int(0.70 * total)` computed in binary floating point | 90 risks: 0.70 * 90 is 62.999…, so n_low = 62 and n_high = 3 | 70 % rounded down: n_low = 63, n_high = 2 | not executed | BandScorer.FloatCountsAtNinety | BandScorer.BandCounts |
| models/risk_extraction/risk_matrix_generator.py:97 | `"likelihood" in parsed and "impact" in parsed` with Python's `in`, which also searches lists and strings | a reply `["likelihood", "impact"]` passes the check, and then `score["likelihood"]` at line 206 raises TypeError outside any handler | accept only a dict holding both keys | not executed | RetryScorer.KeyNamesInAListPass | RetryScorer.KeyCheck |
