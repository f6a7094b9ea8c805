# ai-repo-supervisor, modelled in Dafny

The AI Repo Supervisor reviews pull requests. A GitHub Action lints the diff locally for forbidden patterns and posts the pull request's numbers to a backend. The backend assesses the change, using rule tables or a language model. It updates a per-repository health summary and returns risks, suggestions, scores and a health delta. The Action then renders these as a review comment, and the dashboard turns the same answer into a pull-request card.

This project models the decision logic of that system and proves what it promises:

- **Persistence service** (`backend/backend-db/src/main.py`):
  - payload coercion and validation;
  - the three-condition rules;
  - the in-memory summary store, as a `class` updated in place, with a capped history log;
  - the upserting summary pipeline of the document store, as a pure step;
  - the history and summary queries.
- **Review service** (`backend/backend-ai/src/main.py`):
  - extraction of the JSON object from the model's answer;
  - score clamping and coercion of `risks`;
  - how the pull request is recorded and its `overall_health` chosen;
  - the deterministic fallback;
  - the review comment.
- **Heuristic analysers** (`backend/backend-api/src/ai/analyze_pull_request.py` and the simpler `backend/src/ai/analyze_pull_request.py`):
  - changed-file extraction and the count of added conditionals, as loops;
  - the structural, semantic, synthesis, risk, suggestion and score passes.
- **Smaller API services**:
  - the weighted risk score of `backend/src/main.py`;
  - the DEMO_MODE post-processing and the recorded score of `backend/backend-api/src/main.py`;
  - the health card of `backend/src/analyze-pr.js`.
- **JavaScript request handlers** (`backend/src/https-server.js`, `backend/api/analyze-pr.js`): bearer-token checks, body validation with JavaScript truthiness, and the shared rules.
- **Dashboard adapter** (`frontend/ai-repo-supervisor/src/adapters/prAdapter.ts`): label thresholds and fallbacks.
- **GitHub Action scripts** (`backend/backend-api/src/index.js`, `backend/src/index.js`, `backend/src/monitor.js`): the forbidden-pattern linter, payload defaults and the rendering of the comment.

The modules are:

- `Wrappers` and `Text`: the Option type and the string builtins the sources call (`split`, `strip`, `splitlines`, `index`, `str(int)`, `int(str)`, slicing).
- `Json`: decoded JSON values, Python and JavaScript truthiness, and `int()`.
- `Formatting`: bullet lists, signed numbers and `_t` truncation.
- `Sorting`: `sorted(set(...))` over strings.
- `HealthModel`: the event folded into a summary, and the running sums.
- `MemoryStore`, `SummaryPipeline` and `DbService`: the persistence service.
- `BasicRules`: the three-condition rules shared by four handlers.
- `AiService`: the review service.
- `DiffAnalysis`: the rich analyser.
- `RuleTable`: an ordered table of rules with the messages of the rules that fired. It is the reference definition for the simple rule lists.
- `SimpleAnalysis`, `ScoreService`, `DemoService` and `HealthCard`: the smaller services.
- `JsRequest`, `MockServer` and `ServerlessHandler`: the JavaScript handlers.
- `PrAdapter`: the dashboard adapter.
- `ActionComment`: the Action scripts.

Where the source mutates state, the model does too:

- `MemoryStore.Store` is a class whose methods change its summaries map and history log. A ghost record of the arrivals per repository states the summary invariants the class keeps.
- The loops become methods with invariants, each proved against a specification function: coercion of the payload, extraction of changed files, counting of conditionals, and the linter.
- The straight-line handlers are methods whose `ensures` tie their results to the rule functions. Lemmas then prove what those functions mean.

Clocks are string parameters. Failures of the database are parameters (`StoreFault`, `insertFails`). The model's answer is a parameter: the decoded object, or None when the call failed.

## Model

| member | source | states |
|---|---|---|
| Text.IndexOf | backend/backend-ai/src/main.py:241 | `raw.index("{")`: None exactly when the character is absent (where Python raises), otherwise the first position holding it |
| Text.LastIndexOf | backend/backend-ai/src/main.py:242 | `raw.rindex("}")`: None exactly when absent, otherwise the last position holding it |
| Text.SplitJoin | backend/backend-ai/src/main.py:352 | `split(",")` loses nothing: joining the parts with the separator gives the text back |
| Text.SplitPartsFree | backend/backend-ai/src/main.py:352 | no part of `split(",")` holds the separator |
| Text.JoinSplit | backend/backend-ai/src/main.py:365 | joining separator-free parts with "," and splitting again returns the same parts |
| Text.TrimLeftExact | backend/backend-ai/src/main.py:352 | `lstrip` removes exactly the leading run of whitespace: the result is a suffix, every removed character is whitespace, and the first kept one is not |
| Text.TrimRightExact | backend/backend-ai/src/main.py:352 | `rstrip` removes exactly the trailing run of whitespace: the result is a prefix, every removed character is whitespace, and the last kept one is not |
| Text.StripEnds | backend/backend-ai/src/main.py:352 | `strip` returns a contiguous slice of the text; everything before and after that slice is whitespace, and the slice neither starts nor ends with whitespace |
| Text.StripUntouched | frontend/ai-repo-supervisor/src/adapters/prAdapter.ts:48 | a text whose ends are not whitespace is its own trim |
| Text.Fields | backend/backend-api/src/ai/analyze_pull_request.py:7 | `line.split()` yields only non-empty fields that contain no whitespace |
| Text.FieldsSqueeze | backend/backend-api/src/ai/analyze_pull_request.py:7 | `split()` loses only whitespace: the fields concatenated are the text with every whitespace character removed |
| Text.FieldsOfJoin | backend/backend-api/src/ai/analyze_pull_request.py:7 | whitespace-free words joined by single spaces split back into the same words |
| Text.SplitLines | backend/backend-api/src/ai/analyze_pull_request.py:5 | `splitlines()` yields lines that contain no line-boundary character |
| Text.SplitLinesTerminated | backend/backend-api/src/ai/analyze_pull_request.py:5 | lines free of line breaks, each ended by "\n" or each by "\r\n", come back from `splitlines()` unchanged |
| Text.ContainsElifHasIf | backend/backend-api/src/ai/analyze_pull_request.py:30 | every text containing "elif " contains "if " |
| Text.IntToStringRoundTrip | backend/backend-db/src/main.py:181 | `int(str(n)) == n` for every integer |
| Text.SliceTo | backend/backend-db/src/main.py:346 | Python `[:limit]` is a prefix of length min(limit, n) for a non-negative limit, and drops the last -limit elements for a negative one |
| Json.PyIntAcceptsRenderings | backend/backend-db/src/main.py:178-184 | `int()` accepts every decimal rendering of an integer and is the identity on integers |
| Formatting.Bullets | backend/src/index.js:139 | one line per item, each the prefix followed by the item |
| Formatting.ListLines | backend/backend-api/src/index.js:179-192 | a list renders as the default line when empty; otherwise its newline-separated lines are exactly "prefix + item", one per item |
| Formatting.SignedIff | backend/src/index.js:159-161 | the "+" is there exactly for positive numbers, and the number reads back after it |
| Formatting.Truncate | backend/backend-ai/src/main.py:527-531 | `_t`: None gives "", a text within the limit is kept, and a longer one is exactly its first `limit` characters followed by the truncation mark |
| Sorting.Insert | backend/backend-api/src/ai/analyze_pull_request.py:45 | inserting into an increasing list keeps it increasing and adds exactly the new element |
| Sorting.SortedSet | backend/backend-api/src/ai/analyze_pull_request.py:45-46 | `sorted(set(xs))` is increasing and holds exactly the elements of xs |
| Sorting.IncreasingDistinct | backend/backend-api/src/ai/analyze_pull_request.py:45-46 | a sorted set holds no element twice |
| Sorting.IncreasingUnique | backend/backend-api/src/ai/analyze_pull_request.py:45-46 | two increasing lists with the same elements are equal, so the sorted set is determined by the elements |
| HealthModel.SliceToPrepend | backend/backend-db/src/main.py:141-145 | prepending to a window cut at n and cutting again equals cutting the whole prepended list once |
| HealthModel.SumsAppend | backend/backend-db/src/main.py:84-89 | a new event adds exactly its score to the cumulative score and its delta to the health |
| MemoryStore.MemItems | backend/backend-db/src/main.py:92 | one `recent` entry per event, newest first |
| MemoryStore.FirstUpdate | backend/backend-db/src/main.py:67-92 | an unseen repository starts from 0/0/100/[]; after its first pull request: 1 PR, its score, average = score, health 100 + delta, one entry |
| MemoryStore.StepCounters | backend/backend-db/src/main.py:84-94 | one update: total_prs + 1, cumulative + score, health + delta, average = cumulative/total, the new entry first carrying the new health, the window never above 20 and otherwise the old window |
| MemoryStore.StepAccounts | backend/backend-db/src/main.py:65-95 | one update keeps the summary invariants (counts, sums, health, exact average, window of min(total, 20) newest entries), with the event appended to the arrivals |
| MemoryStore.ReplayAccounts | backend/backend-db/src/main.py:65-95 | for any sequence of arrivals, the summary exists iff an event arrived, and it satisfies the invariants |
| MemoryStore.NewestDocs | backend/backend-db/src/main.py:345 | the filtered reversed history is no longer than the log |
| MemoryStore.NewestDocsFrom | backend/backend-db/src/main.py:345 | every returned document is in the log |
| MemoryStore.NewestDocsOrder | backend/backend-db/src/main.py:345 | exactly the documents of the repository are returned, and each sits at the position given by how many of that repository's documents arrived after it (newest first) |
| MemoryStore.HistoryQueryBounds | backend/backend-db/src/main.py:336-346 | `health_history` from memory returns at most `limit` rows for limit ≥ 0, only rows of that repository, newest first |
| MemoryStore.HistoryQueryNegativeLimit | backend/backend-db/src/main.py:346 | a negative limit drops the last -limit matching rows, as Python slicing does |
| MemoryStore.AppendCapped | backend/backend-db/src/main.py:284-290 | the log never exceeds 1000 documents; the new one is last and the oldest is dropped first |
| MemoryStore.SummaryOf | backend/backend-db/src/main.py:374-385 | the stored summary itself is returned exactly when the repository has one; a synthesised one names the repository, has the initial health, an average of its cumulative score over its PR count, and `last` is the head of `recent` or None when `recent` is empty |
| MemoryStore.SummaryOfMeaning | backend/backend-db/src/main.py:378-382 | a synthesised summary counts one PR per logged document of the repository, sums their scores in log order, and its window holds the newest min(n, 20) of them, the document at log index k at position "number of the repository's documents logged after k" |
| MemoryStore.UnseenRepoIsZero | backend/backend-db/src/main.py:376-384 | an unseen repository with nothing in the log reads as 0 PRs, cumulative 0, average 0, health 100, no last entry, empty window |
| MemoryStore.StoreStep | backend/backend-db/src/main.py:65-95 | one update of the whole store keeps every repository's summary accounting for its own arrivals |
| MemoryStore.ApplyDoc | backend/backend-db/src/main.py:65-95 | the field-by-field in-place update computes exactly the summary step |
| MemoryStore.Store.constructor | backend/backend-db/src/main.py:26-27 | the store starts with no summaries and an empty log |
| MemoryStore.Store.UpdateSummaryWithDoc | backend/backend-db/src/main.py:65-95 | the event's repository gets the stepped summary (the fresh default first when unseen); other repositories and the log are untouched; the invariants are kept |
| MemoryStore.Store.AppendHistory | backend/backend-db/src/main.py:284-290 | the log becomes the capped append; the summaries are untouched |
| MemoryStore.Store.HealthHistory | backend/backend-db/src/main.py:335-347 | the rows are HistoryQuery over the object's log: at most `limit` rows for limit ≥ 0, no more than the repository's documents, and row i is the i-th newest document of the repository |
| SummaryPipeline.UpdateRepoSummary | backend/backend-db/src/main.py:97-172 | None exactly when the collection is not configured or an operation fails. Other repositories' documents are unchanged. A returned document is the stored one, with avg_score = cumulative/total (0 when total is 0). A failed update leaves the collection as it was; a failed avg_score write leaves the old average; a failed re-read leaves both writes in place |
| SummaryPipeline.ReReadLosesOnlyReply | backend/backend-db/src/main.py:160-166 | when only the final re-read fails, both writes have landed: the collection is as after a success, but nothing is returned |
| SummaryPipeline.FirstEventDefaults | backend/backend-db/src/main.py:124-146 | absent fields default to 0, 0, 100 and [] before adding: the first event gives 1 PR, its score, 100 + delta and a one-entry window |
| SummaryPipeline.StepEffect | backend/backend-ai/src/main.py:277-297 | one `$set` step: total_prs + 1, cumulative + score, health + delta, the new item heads a window of 1..20 entries and then the old window |
| SummaryPipeline.PipeItems | backend/backend-db/src/main.py:141-145 | one window entry per event, newest first |
| SummaryPipeline.PipeStepAccounts | backend/backend-db/src/main.py:124-164 | one pipeline step, with or without the avg_score write, keeps the summary invariants |
| SummaryPipeline.PipeReplayAccounts | backend/backend-db/src/main.py:124-167 | from an absent document, any arrival sequence gives total = number of events, exact sums, a window of min(total, 20) and avg_score = cumulative/total |
| SummaryPipeline.MemItemsAt | backend/backend-db/src/main.py:92 | the in-memory entry at position i is the i-th newest event, with the health after it |
| SummaryPipeline.PipeItemsAt | backend/backend-db/src/main.py:114-120 | the pipeline entry at position i is built from the i-th newest event |
| SummaryPipeline.PathsAgree | backend/backend-db/src/main.py:84-146 | the in-memory and pipeline summaries of the same arrivals agree on counts, sums, health, average and window; consecutive in-memory healths differ by the pipeline entry's delta |
| SummaryPipeline.RepoSummaryFromStore | backend/backend-db/src/main.py:358-370 | a stored document is returned as it is, with avg_score filled in only when missing |
| SummaryPipeline.UnseenRepoDefaults | backend/backend-db/src/main.py:361-362 | an unseen repository reads as 0 PRs, cumulative 0, average 0, health 100 and an empty window |
| SummaryPipeline.TwoEventExample | backend/backend-db/src/main.py:124-164 | scores 10 then 0 with deltas +2 then -5 give 2 PRs, cumulative 10, average 5.0, health 97, newest first |
| DbService.Coerced | backend/backend-db/src/main.py:174-192 | the keys are unchanged and no key is added. Parseable int keys become ints and the rest are kept as given. A string lint_passed is true iff its lower case is in {"1","true","yes","y","t"}, and any other value goes by truthiness. Other keys are unchanged |
| DbService.CoercePayload | backend/backend-db/src/main.py:174-192 | the key-by-key loop over a copy computes exactly the coerced payload |
| DbService.CoerceIdempotent | backend/backend-db/src/main.py:174-192 | coercing an already coerced payload changes nothing |
| DbService.ParseRequest | backend/backend-db/src/main.py:51-62 | `repo` is required; author defaults to "unknown" and lint_passed to true; the parsed fields are the payload's |
| DbService.CoercionAccepts | backend/backend-db/src/main.py:208-210 | after coercion, counts sent as decimal strings validate to those numbers |
| DbService.ParseAccepts | backend/backend-db/src/main.py:51-62 | a payload whose fields have acceptable kinds validates to exactly those values |
| DbService.CoercedIntKey | backend/backend-db/src/main.py:178-181 | a count sent as its decimal string reads as that integer after coercion |
| DbService.AnalyzeValid | backend/backend-db/src/main.py:216-301 | the three rules; pr_score 10/0 and delta 0/-5. In memory mode, the summary is stepped in place, overall_health is the new health = 100 + all deltas, and the document goes to the capped log. In store mode, the health comes from the returned summary, else memory, else 100, and a failed insert falls back to the log |
| DbService.AnalyzePr | backend/backend-db/src/main.py:196-305 | 400 for a missing or non-object body or a failed validation, with nothing changed; otherwise, for the coerced and validated request, everything `AnalyzeValid` promises: the rules' risks, suggestions, score, delta and summary, the in-memory or document-store update, the recorded health and the history entry |
| BasicRules.Assess | backend/backend-db/src/main.py:218-230 | the appends compute exactly the rule lists |
| BasicRules.RisksExact | backend/backend-db/src/main.py:218-224 | each risk is present iff its condition holds (lint failed, diff > 5000, additions − deletions > 500), there is nothing else, and the count is the number of conditions that hold |
| BasicRules.CleanIff | backend/backend-db/src/main.py:226-236 | score 10 and delta 0 iff no condition holds, else 0 and -5; the tests suggestion iff clean; the lint suggestion iff lint failed |
| AiService.ExtractJsonCandidate | backend/backend-ai/src/main.py:240-245 | the answer unchanged when '{' or '}' is missing; otherwise a text that opens with '{' and closes with '}', or "" |
| AiService.ExtractFramed | backend/backend-ai/src/main.py:240-245 | an object between text without '{' before it and without '}' after it (a Markdown fence) is extracted exactly |
| AiService.ExtractReversed | backend/backend-ai/src/main.py:240-245 | when the last '}' precedes the first '{', the slice is empty |
| AiService.ClampScores | backend/backend-ai/src/main.py:338-347 | pr_score in [0,10] and health_delta in [-5,5]; values in range unchanged, others pinned to the nearer bound |
| AiService.StrippedPartsClean | backend/backend-ai/src/main.py:352 | the kept parts are non-empty and stripped |
| AiService.StrippedPartsNoComma | backend/backend-ai/src/main.py:352 | parts split on "," contain no comma, and stripping keeps it so |
| AiService.CoerceRisks | backend/backend-ai/src/main.py:348-354 | a list is kept; a string gives stripped, non-empty, comma-free parts, no more of them than there are comma-separated pieces; anything else, or nothing, gives [] |
| AiService.CoerceRisksKeeps | backend/backend-ai/src/main.py:352 | from a string, every comma-separated part that is not blank once stripped is kept, stripped, and nothing else is |
| AiService.StrippedPartsAppend | backend/backend-ai/src/main.py:352 | the comprehension works piece by piece: on two runs of parts it keeps the first run's results followed by the second's |
| AiService.StrippedPartsKeeps | backend/backend-ai/src/main.py:352 | every part that is not blank once stripped is among the kept ones |
| AiService.StrippedPartsSources | backend/backend-ai/src/main.py:352 | every kept item is some part, stripped |
| AiService.RisksRoundTrip | backend/backend-ai/src/main.py:348-354 | comma-joined stripped risk names come back as the same list |
| AiService.AllStrings | backend/backend-ai/src/main.py:535-536 | `", ".join` succeeds exactly when every item is a string |
| AiService.SuggestionBullets | backend/backend-ai/src/main.py:539-541 | min(n, 10) lines, the i-th being "- " and the i-th suggestion |
| AiService.SuggestionsCapped | backend/backend-ai/src/main.py:541 | suggestions after the tenth never reach the comment |
| AiService.CommentLayout | backend/backend-ai/src/main.py:549-569 | the title first, the score line third, the footer last; the fifth line is the post-PR health line exactly when the document has `overall_health` |
| AiService.CommentHealthLineOnly | backend/backend-ai/src/main.py:554-555 | with and without a health, the comments differ by that one line |
| AiService.FormatComment | backend/backend-ai/src/main.py:522-569 | the appends build exactly the comment text (the comment lines joined by newlines); None exactly where joining the risks raises |
| AiService.Record | backend/backend-ai/src/main.py:379-407 | the store's summaries become the pipeline outcome, the document is inserted unless the insert fails, and overall_health is 100 + delta whenever something fails or there is no store |
| AiService.RecordedHealth | backend/backend-ai/src/main.py:381-407 | with no failure, overall_health is 100 plus every delta so far, this one included; on a failure it is 100 + delta |
| AiService.AnalyzeWithModel | backend/backend-ai/src/main.py:334-426 | the step-by-step model path answers exactly what `ModelAnswer` describes, and leaves the store untouched when it raises |
| AiService.ModelAnswerMeaning | backend/backend-ai/src/main.py:334-426 | an unreadable score or delta hands over to the fallback; otherwise scores clamped to [0,10] and [-5,5] (in-range values unchanged), risks coerced and all strings, the reason defaulting to the risks joined by ", ", summary and suggestions as the model gave them (defaults "" and []), the comment rendered from the answer without a health line, and the store's summaries stepped by the pipeline with the clamped event |
| AiService.ModelCommentAsWritten | backend/backend-ai/src/main.py:376-377 | the comment input built before recording carries no health |
| AiService.AsWrittenOmitsHealth | backend/backend-ai/src/main.py:376-377 | as written, the model path's fifth comment line is blank: the post-PR health is never shown |
| AiService.CorrectedShowsHealth | backend/backend-ai/src/main.py:547-555 | built after recording, the fifth line shows the recorded health |
| AiService.AnalyzeFallback | backend/backend-ai/src/main.py:431-519 | the three rules with "Lint failures detected", score 10/0, delta 0/-5, reason = comma-joined risks and the "Fallback analysis" summary; the store is kept when present and its summaries take one pipeline step with that event; the reply is exactly `FallbackAnswer` |
| AiService.AllStringsOf | backend/backend-ai/src/main.py:535-536 | a list of strings always joins, giving back the same strings |
| AiService.FallbackCommentLayout | backend/backend-ai/src/main.py:505 | the fallback comment always renders, and its fifth line shows the health exactly when one is given |
| AiService.FallbackHealthLine | backend/backend-ai/src/main.py:463-505 | the fallback comment is given a health (the recorded one) exactly when the store is configured |
| AiService.AnalyzePr | backend/backend-ai/src/main.py:321-519 | the model path's answer when the model is on, answered and the model path did not raise; the fallback's answer otherwise; the score is always in [0,10] and the delta in [-5,5] |
| DiffAnalysis.LinePath | backend/backend-api/src/ai/analyze_pull_request.py:5-13 | only header lines name a path; a "+++ b/" line names its remainder; a git header names one iff it has at least 4 fields |
| DiffAnalysis.HeaderFields | backend/backend-api/src/ai/analyze_pull_request.py:7 | a git header's fields are "diff", "--git" and the two marked paths |
| DiffAnalysis.GitHeaderPath | backend/backend-api/src/ai/analyze_pull_request.py:6-11 | a git header names its b-path without "b/", or the a-path when the b-path is empty |
| DiffAnalysis.LinePathOfFields | backend/backend-api/src/ai/analyze_pull_request.py:8-11 | the path of a four-field header, with the "a/" and "b/" prefixes removed |
| DiffAnalysis.NamedPathsFrom | backend/backend-api/src/ai/analyze_pull_request.py:5-13 | every collected path comes from a line that names it |
| DiffAnalysis.FirstOccurrences | backend/backend-api/src/ai/analyze_pull_request.py:14-21 | the result holds exactly the non-empty collected paths |
| DiffAnalysis.FirstOccurrencesOrder | backend/backend-api/src/ai/analyze_pull_request.py:14-21 | no duplicates, in first-occurrence order |
| DiffAnalysis.ExtractChangedFiles | backend/backend-api/src/ai/analyze_pull_request.py:3-21 | the two loops compute exactly the de-duplicated paths of the header lines |
| DiffAnalysis.ConditionalCount | backend/backend-api/src/ai/analyze_pull_request.py:24-32 | never more than the number of lines |
| DiffAnalysis.ConditionalCountZero | backend/backend-api/src/ai/analyze_pull_request.py:24-32 | the count is zero iff no line is an added conditional |
| DiffAnalysis.ElifRedundant | backend/backend-api/src/ai/analyze_pull_request.py:30 | dropping the "elif " test changes nothing |
| DiffAnalysis.CountAddedConditionals | backend/backend-api/src/ai/analyze_pull_request.py:24-32 | the loop computes exactly the count of added lines (not "+++") holding "if ", "elif " or "switch" |
| DiffAnalysis.HeadsMembers | backend/backend-api/src/ai/analyze_pull_request.py:45 | exactly the first directories of the paths that hold a slash |
| DiffAnalysis.SuffixesMembers | backend/backend-api/src/ai/analyze_pull_request.py:46 | exactly the suffixes of the paths that hold a dot |
| DiffAnalysis.DirsAndTypes | backend/backend-api/src/ai/analyze_pull_request.py:45-46 | top_dirs and extensions are sorted and duplicate-free, and hold exactly those directories and suffixes |
| DiffAnalysis.AnyKeywordIff | backend/backend-api/src/ai/analyze_pull_request.py:52-59 | `any(k in text ...)` holds iff some keyword of the list occurs in the text |
| DiffAnalysis.SummaryBySize | backend/backend-api/src/ai/analyze_pull_request.py:143-147 | the large sentence iff total > 300, the moderate one iff 100 < total ≤ 300, the small one otherwise |
| DiffAnalysis.InsightsMeaning | backend/backend-api/src/ai/analyze_pull_request.py:83-113 | one insight per triggered signal plus exactly one tests line, just before the lint line when lint failed; the conditionals insight first |
| DiffAnalysis.SynthesisPriority | backend/backend-api/src/ai/analyze_pull_request.py:118-138 | the synthesis names the first concern in the order auth, data, operations, new conditionals, else the default, each iff its priority condition |
| DiffAnalysis.RiskListMeaning | backend/backend-api/src/ai/analyze_pull_request.py:152-168 | one risk per triggered rule (large, > 5 files, auth, db, lint), each iff its rule |
| DiffAnalysis.SuggestionListMeaning | backend/backend-api/src/ai/analyze_pull_request.py:170-180 | each suggestion iff its trigger; with test files touched, at most two suggestions |
| DiffAnalysis.StructuralPass | backend/backend-api/src/ai/analyze_pull_request.py:64-78 | the bucket's summary and 2 to 4 structural signals |
| DiffAnalysis.SemanticPass | backend/backend-api/src/ai/analyze_pull_request.py:83-138 | the appends compute the insights and the synthesis |
| DiffAnalysis.RiskPass | backend/backend-api/src/ai/analyze_pull_request.py:152-180 | the appends compute the risk and suggestion lists |
| DiffAnalysis.Baseline | backend/backend-api/src/ai/analyze_pull_request.py:207 | baseline ≥ 50; ≤ 100 iff total ≥ 0; 100 − total/10 below 500 changed lines, 50 from there |
| DiffAnalysis.ScorePass | backend/backend-api/src/ai/analyze_pull_request.py:185-207 | the step-by-step additions, clamps and delta updates compute exactly the score, delta and baseline specifications (whose meaning DiffAnalysis.ScoresMeaning states) |
| DiffAnalysis.ScoresMeaning | backend/backend-api/src/ai/analyze_pull_request.py:185-205 | semantic_score in [40,90]; health_delta in {-5,-3,-2,0,2}, 2 iff no risks, -5 iff large with failed lint, -3 iff large with lint passing, -2 iff failed lint on a change that is not large |
| DiffAnalysis.ScanDiff | backend/backend-api/src/ai/analyze_pull_request.py:36-59 | the request fields with their defaults and the scans of the diff |
| DiffAnalysis.AnalyzePullRequest | backend/backend-api/src/ai/analyze_pull_request.py:35-219 | the passes together compute exactly the analysis specification, each field being the specification whose meaning the lemmas above state |
| RuleTable.Fired | backend/src/ai/analyze_pull_request.py:30-50 | a rule table reports no more messages than it has rules |
| RuleTable.FiredLength | backend/src/ai/analyze_pull_request.py:30-50 | one message per rule that fired |
| RuleTable.FiredMembers | backend/src/ai/analyze_pull_request.py:30-50 | a message is reported iff a rule carrying it fired |
| RuleTable.FiredDistinct | backend/src/ai/analyze_pull_request.py:30-50 | a table without repeated messages reports none twice |
| RuleTable.FiredEmpty | backend/src/ai/analyze_pull_request.py:97-98 | nothing is reported iff no rule fired |
| RuleTable.HitsZero | backend/src/main.py:40-54 | no rule fired iff the count of hits is zero |
| SimpleAnalysis.RisksUnfold | backend/src/ai/analyze_pull_request.py:30-50 | the risk table gives the four conditional appends in source order |
| SimpleAnalysis.SuggestionsUnfold | backend/src/ai/analyze_pull_request.py:55-70 | the suggestion table gives the three conditional appends in source order |
| SimpleAnalysis.RisksMeaning | backend/src/ai/analyze_pull_request.py:30-50 | exactly one risk per triggered condition (large, > 5 files, lint, auth keyword), each iff its condition, none twice |
| SimpleAnalysis.SuggestionsNeedRisks | backend/src/ai/analyze_pull_request.py:55-70 | non-empty suggestions imply non-empty risks; each suggestion iff its trigger |
| SimpleAnalysis.Analyze | backend/src/ai/analyze_pull_request.py:3-109 | summary by size (> 300, 100..300, else); the tables' risks and suggestions; semantic_score = 50 + 20·auth + 10·many files − 10·lint, in [40,80]; health_delta in {-5,-3,-2,0,2}, 2 iff no risks; the baseline |
| ScoreService.RisksUnfold | backend/src/main.py:40-52 | the risk table gives the three conditional appends in source order |
| ScoreService.SuggestionsUnfold | backend/src/main.py:40-52 | the suggestion table gives the two conditional appends in source order |
| ScoreService.RulesMeaning | backend/src/main.py:40-52 | one risk per triggered condition, each iff its condition, none twice; "Consider splitting this PR" iff size > 500, "Fix lint issues" iff lint failed |
| ScoreService.AnalyzePr | backend/src/main.py:33-77 | health_delta = −(3·size>500 + 2·files>10 + 2·lint failed), in [-7,0], 0 iff no risks; the row written is (repo, clock, delta, comma-joined risks) |
| DemoService.DemoMode | backend/backend-api/src/main.py:10 | DEMO_MODE is off when unset, and on exactly when the value is four characters, each the letter of "true" in either case |
| DemoService.DemoModeSpellings | backend/backend-api/src/main.py:10 | "true" in any capitalisation turns the demo on; "1", "yes", " true" and an unset variable do not |
| DemoService.DemoDefaults | backend/backend-api/src/main.py:43-64 | summary, risks and suggestions are non-empty afterwards; non-empty originals are kept, empty ones get the defaults; every other field is unchanged |
| DemoService.ApplyDemoDefaults | backend/backend-api/src/main.py:43-64 | in demo mode the in-place updates compute exactly the demo defaults; otherwise the result is untouched |
| DemoService.AnalyzePr | backend/backend-api/src/main.py:41-83 | with DEMO_MODE off the result is exactly the analyser's; with it on, the analyser's with demo defaults; the row offered carries score 10/0 by risks and the comma-joined risks |
| DemoService.RecordedScore | backend/backend-api/src/main.py:56-68 | the recorded score is 0 iff risks are non-empty, else 10; in demo mode it is always 0 |
| HealthCard.AnalyzePullRequest | backend/src/analyze-pr.js:1-38 | missing repo → "unknown-repo"; healthScore = max(100 − risk, 40) in [40,100]; Critical iff < 65, At Risk iff 65..79, Healthy iff ≥ 80; Healthy iff neither trigger, Critical iff both; the safe reason iff Healthy; exactly one PR line |
| JsRequest.Secret | backend/src/https-server.js:13 | the secret is never empty: the environment value when set and non-empty, "local-secret" otherwise |
| JsRequest.BearerToken | backend/src/https-server.js:20-22 | a token exists iff the header starts with "Bearer " |
| JsRequest.BearerAcceptsPadded | backend/src/https-server.js:22 | whitespace around the secret after "Bearer " is trimmed away |
| JsRequest.LowerCaseSchemeRefused | backend/src/https-server.js:21 | "bearer " in lower case is no bearer header |
| JsRequest.Utf16Length | backend/src/https-server.js:38 | `diff.length` counts UTF-16 code units: between the number of characters and twice it |
| JsRequest.Utf16LengthBmp | backend/src/https-server.js:38 | inside the Basic Multilingual Plane, `length` is the number of characters |
| JsRequest.Analyze | backend/src/https-server.js:29-52 | 400 for a falsy repo or pr_number; otherwise the three rules ("Lint failures"), the shared suggestions and delta (-5 iff any risk), and the summary |
| JsRequest.FalsyIdentifiersRefused | backend/src/https-server.js:31-33 | pr_number 0, an empty repo or a missing field is refused |
| MockServer.CheckAuth | backend/src/https-server.js:19-25 | 401 iff no "Bearer " prefix; 403 iff the trimmed token differs from the secret; proceed iff it equals it |
| MockServer.NoHeaderUnauthorized | backend/src/https-server.js:20-21 | a request without an authorization header gets 401 |
| MockServer.HandleAnalyzePr | backend/src/https-server.js:28-53 | the guard's rejection, else 400 for missing fields, else the analysis with the "looks low risk" summary |
| ServerlessHandler.Handle | backend/api/analyze-pr.js:1-33 | 405 for anything but POST; 401 for a missing prefix or a wrong token alike; 400 for missing fields; else the analysis with the "low risk" summary |
| PrAdapter.Bands | frontend/ai-repo-supervisor/src/adapters/prAdapter.ts:23-31 | Low iff > 85, Medium iff 65..85, High iff < 65 |
| PrAdapter.LabelsAgree | frontend/ai-repo-supervisor/src/adapters/prAdapter.ts:33-43 | Healthy/At Risk/Critical hold on exactly the Low/Medium/High bands |
| PrAdapter.RiskLabelMonotone | frontend/ai-repo-supervisor/src/adapters/prAdapter.ts:23-31 | a higher score never shows a higher risk |
| PrAdapter.Adapt | frontend/ai-repo-supervisor/src/adapters/prAdapter.ts:45-74 | summaryText is the trimmed summary, or "No summary available." when it is empty; primaryRisk is risks[0], or none iff risks is missing or empty; suggestions or the default line; the labels; healthDelta passed through; Improved/Declined/No change by its sign; semanticRiskLabel none iff semantic_score is null |
| PrAdapter.TrimmedSummaryShown | frontend/ai-repo-supervisor/src/adapters/prAdapter.ts:48 | an already trimmed summary is shown as it is |
| ActionComment.RunBasicLint | backend/backend-api/src/index.js:12-21 | false iff the diff contains "console.log", "FIXME" or "debugger" |
| ActionComment.ForbiddenAnywhere | backend/src/monitor.js:15-24 | a forbidden pattern anywhere in the diff fails the lint |
| ActionComment.OrZero | backend/src/index.js:100-102 | `v \|\| 0`: a truthy count is sent as it is, a falsy or missing one as 0 |
| ActionComment.BuildPayload | backend/backend-api/src/index.js:125-134 | repo "owner/repo"; counts defaulting to 0 when falsy; diff "" when missing; lint_passed iff no forbidden pattern |
| ActionComment.ImpactText | backend/src/index.js:159-161 | "undefined" for a missing impact; "+" iff positive; the number reads back |
| ActionComment.ReportLists | backend/src/index.js:137-145 | the risk and suggestion lists are one bulleted line per item, or their single default line |
| ActionComment.ScoreLine | backend/backend-api/src/index.js:194-202 | the number when the score is a number, else "unavailable" |
| ActionComment.HealthImpact | backend/backend-api/src/index.js:204 | "+" iff health_delta > 0, and the text reads back as the delta ("0" when it is missing) |
| ActionComment.SupervisorComment | backend/backend-api/src/index.js:206-229 | the comment opens with the title and the summary, and closes with the health impact line |
| ActionComment.SupervisorLists | backend/backend-api/src/index.js:179-192 | each list is "- item" lines, or its default line when missing or empty |

## Left out

- I/O of every kind is left out: MongoDB and sqlite calls, index creation, network calls to the model and to GitHub, TLS file loading, reads of repository files, logging, and the `run()` glue of the Action scripts. Database failures are parameters; the model's decoded answer is a parameter.
- The clock (`datetime.utcnow()`) is a string parameter.
- Concurrency is left out: each summary update is one atomic step, and the Mongo server-side atomicity and timeouts are not modelled.
- JSON numbers are integers. JavaScript's rendering of fractions and exponents, NaN, and IEEE rounding are not modelled.
- `baseline_score`, `avg_score` and the adapter's scores are Dafny `real`, with exact division.
- Strings are ASCII for `lower()`, `strip()`, `split()` and `trim()`. Python's `int()` accepts optional ASCII whitespace, a sign and ASCII digits; underscores and non-ASCII digits are not modelled.
- JsRequest.Analyze: additions and deletions are integers; a non-numeric value, which JavaScript would coerce or concatenate, and a non-string diff are not modelled.
- PrAdapter.Adapt: `null` and `undefined` are one case (None); `semantic_score` is None only for `null`.
- AiService.AnalyzeWithModel: the prompt text and the network call are not modelled. A non-object answer or a decoding error is the "model failed" case handed to the fallback.
- AiService.FormatComment: lists and objects shown with `str()` are rendered as fixed placeholders rather than Python's repr.
- DbService.AnalyzeValid: in store mode a failed summary update reads the in-memory summary, which that mode never writes, so the value is 100. This is modelled as the source does it, not simplified away.
- DemoService.DemoDefaults: the three `setdefault` calls change nothing, because the analyser always sets those keys, so they are not modelled separately.
- DemoService.AnalyzePr: the database error is swallowed, so the row is the one offered to the database.
- ActionComment.MonitorComment and ActionComment.ReportComment carry no contract: the comment texts are definitions, and their list parts are stated by ActionComment.ReportLists.
- The monitor.js payload (`backend/src/monitor.js:68-77`) sends the fields without defaults. It is not modelled separately from ActionComment.BuildPayload.
- `_post_github_comment`, the `/health` endpoints and the sqlite history endpoints are I/O and are not part of this model. The same holds for backend/main.py, main.py and backend/src/server.js (route wiring), the frontend pages and components, and the mock data.
- SummaryPipeline.RepoSummaryFromStore: a stored `avg_score` of `null` is read like a missing key and filled in, while the endpoint keeps a stored null as it is. The pipeline never stores a null there: it writes a number or leaves the key absent.
- DiffAnalysis.ScoresMeaning: the clamp `max(0, min(100, ...))` never acts, because the score stays within [40,90]. The model states the tighter range.

## Findings

| source | as written | input that shows it | evidently intended | confidence | as-written member | corrected member |
|---|---|---|---|---|---|---|
| backend/backend-ai/src/main.py:377 | the model path builds the review comment before `doc["overall_health"]` is set (lines 390 and 405), so `_format_comment` never finds it and the "Post-PR overall health" line is never printed on this path | any request answered by the model, e.g. a model answer `{"pr_score": 8, "health_delta": 1}` with the store configured: the comment's fifth line is blank | the comment shows the health just recorded, as the fallback path's comment does (line 505) | not executed | AiService.AsWrittenOmitsHealth | AiService.CorrectedShowsHealth |
