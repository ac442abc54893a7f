# AAWT core, modelled in Dafny

AAWT (Automated AI Writing Tool) helps an author write a novel. An author works
through an eleven-step workflow with the help of AI providers. Local text
analysis reports readability, repetition, long sentences, name and
capitalisation inconsistencies and point of view. Projects live in per-project
directories. This project models four parts of that system and proves
properties about them.

- **API gateway (`ApiManager`, `api_manager.dfy`).**
  - Per-provider sliding-window rate limiting.
  - The response cache keyed by a digest of the request.
  - The pricing table and cost computation.
  - The fixed order of the steps each `call_*` method takes: rate check, cache lookup, API key, request, then cache write and usage log (Ollama skips the rate check and the key check).
  - Routing in `call_ai`, and the list of available providers.

  The `ApiManager` class keeps the rate-limit map, the cache and the usage log as fields. The function `Call` specifies one provider call, and each method is proved equal to it.
- **Workflow state machine (`Workflow`, `workflow.dfy`).**
  - The `WorkflowStep` enumeration.
  - The `WorkflowManager` class with its running and paused flags, current step, workflow state and saved states.

  Each method states its whole new state. The methods keep the invariant that paused implies running and that the state mirrors the step. They also keep `completed_steps` duplicate-free within 1..11, which bounds the progress percentage.
- **Text analysis (`TextProcessing`, `text_processing.dfy`).**
  - Words as maximal runs of word characters, and sentence and paragraph splitting.
  - Syllable counting.
  - Repeated words, long sentences, capitalisation issues and similar names.
  - Complexity and grade classifiers, style analysis, and the combined `analyze_text` result.

  Loops that the source writes as loops are methods proved against specification functions. The functions carry lemmas about what the reports mean.
- **File operations (`FileOperations`, `file_operations.dfy`).**
  - The project-name sanitiser.
  - The project directory.
  - The stale-lock rule of `is_project_locked`.

Shared modules: `Wrappers` (Option), `Strings` (ASCII character classes,
`lower`, `strip`, lexicographic order, integer rendering), `Sorting` (a stable
sort by a total preorder, the model of `list.sort`/`sorted`) and `Sequences`
(duplicate freedom, first-occurrence order of dict keys).

Inputs that the source reads from the outside world are parameters:
- the clock;
- the settings;
- the outcome of each HTTP exchange;
- the SHA-256 digest, as an opaque function;
- the Flesch reading-ease score;
- the iteration order of a Python set;
- the file system's modification times.

## Model

| member | source | states |
|---|---|---|
| ApiManager.ProviderNamed | src/system/api_manager.py:527-559 | a provider name routes to the provider of that name, and each of the four names `call_ai` knows routes to one |
| ApiManager.PricesNonNegative | src/system/api_manager.py:45-62 | every input and output price in the pricing table is non-negative |
| ApiManager.CalculateCost | src/system/api_manager.py:141-147 | a cost is never negative and is 0 for a provider/model pair the table does not know |
| ApiManager.CostPerThousand | src/system/api_manager.py:141-147 | 1000 input plus 1000 output tokens cost exactly the two per-1000 prices of the table |
| ApiManager.CostAdditive | src/system/api_manager.py:141-147 | the cost is additive in the token counts: the tokens of two calls together cost the sum of their costs |
| ApiManager.CostMonotone | src/system/api_manager.py:141-147 | more input or output tokens never cost less |
| ApiManager.DefaultAnthropicModelCostsNothing | src/system/api_manager.py:266 | the default Anthropic model is not a key of the pricing table, so its calls always cost 0 |
| ApiManager.PruneKeepsRecent | src/system/api_manager.py:102-105 | pruning keeps every occurrence of a timestamp inside the window and none outside, counted with multiplicity |
| ApiManager.PruneCount | src/system/api_manager.py:102-105 | the pruned list has one entry per position of the input that is inside the window |
| ApiManager.PruneAllRecent | src/system/api_manager.py:102-105 | a list whose entries all lie inside the window is left unchanged by pruning |
| ApiManager.PrunedAreRecent | src/system/api_manager.py:102-105 | every timestamp left after pruning lies inside the window |
| ApiManager.Admit | src/system/api_manager.py:98-114 | a check is granted iff fewer than `limit` positions of the input list are inside the window; the new list holds exactly the input's in-window timestamps, with multiplicity, plus `now` as its last entry on a grant |
| ApiManager.AdmitKeepsBound | src/system/api_manager.py:98-114 | a list of at most `limit` entries still has at most `limit` after a check, all inside the window |
| ApiManager.BurstBoundary | src/system/api_manager.py:83-114 | `n` checks at one instant from `k` recent entries grant exactly `min(n, limit - k)` |
| ApiManager.DumpKwargsIgnoresOrder | src/system/api_manager.py:116-119 | with `sort_keys`, the order of the keyword arguments does not change the cache-key pre-image |
| ApiManager.TemperatureKeyPreimage | src/system/api_manager.py:172 | an OpenAI or Anthropic key hashes `provider:model:prompt:{"temperature": t}`, so max tokens and system prompt never reach the key |
| ApiManager.PlainKeyPreimage | src/system/api_manager.py:116-119 | a Google or Ollama key hashes `provider:model:prompt:{}` |
| ApiManager.CachingSwitch | src/system/api_manager.py:121-139 | with caching off, lookups find nothing and writes store nothing; with caching on, a stored reply is read back |
| ApiManager.RateCheckPrecedesCache | src/system/api_manager.py:167-175 | a denied call returns the rate-limit error even when a reply is cached, and leaves cache and usage log unchanged |
| ApiManager.CacheHitAfterRateSlot | src/system/api_manager.py:167-175 | a cache hit still takes a rate slot, is returned without an API key check, and logs nothing |
| ApiManager.OllamaSkipsRateLimit | src/system/api_manager.py:361-451 | an Ollama call never reads or changes the rate limiter; with a limit of 0 every other provider is refused, yet Ollama's request goes out |
| ApiManager.SuccessIsCachedAndLogged | src/system/api_manager.py:212-246 | a status 200 reply is returned, cached under the request key and logged as one success record with that key and the token total |
| ApiManager.ErrorStatusIsLoggedNotCached | src/system/api_manager.py:247-260 | any other status returns the provider's status error, caches nothing and appends exactly one failure record |
| ApiManager.ExceptionLeavesNoTrace | src/system/api_manager.py:262-264 | an exception during the request changes neither cache nor usage log |
| ApiManager.CallAppendsAtMostOneRecord | src/system/api_manager.py:149-264 | a call only appends to the usage log, at most one record, and changes the cache at most at its own key |
| ApiManager.CallKeepsRateBound | src/system/api_manager.py:83-114 | no provider's timestamp list exceeds the limit after a call if none did before, and other providers' lists are untouched |
| ApiManager.Admitted | src/system/api_manager.py:149-264 | once the rate check admits a call, the cache lookup, key check and request leave the rate-limit map as the check set it |
| ApiManager.CallIgnoresTemperature | src/system/api_manager.py:453-461 | a Google or Ollama call gives the same reply and state whatever temperature is passed, because no keyword argument enters its cache key |
| ApiManager.ResolveRoute | src/system/api_manager.py:527-545 | a given non-empty provider or model is kept; a missing or empty one is the `api.default_provider` / `api.default_model` setting, else `openai` / `gpt-3.5-turbo` |
| ApiManager.RouteDefaults | src/system/api_manager.py:527-545 | without settings, `call_ai` goes to `openai` with `gpt-3.5-turbo`, and that default model applies whatever the provider |
| ApiManager.ApiManager.constructor | src/system/api_manager.py:24-43 | a new manager has empty rate limits and the given settings, cache and usage log |
| ApiManager.ApiManager.CheckRateLimit | src/system/api_manager.py:83-114 | the pruning loop and the decision leave exactly the result and map of `RateLimitStep` (the specification beside `Admit`) |
| ApiManager.ApiManager.CacheResponse | src/system/api_manager.py:133-139 | the cache becomes the old cache with the reply stored at the key, or unchanged when caching is off |
| ApiManager.ApiManager.LogApiUsage | src/system/api_manager.py:235-244 | the usage log gains exactly the one record at its end |
| ApiManager.ApiManager.Dispatch | src/system/api_manager.py:149-264 | the shared steps produce exactly the reply and new state of `Call` |
| ApiManager.ApiManager.CallOpenAI | src/system/api_manager.py:149-264 | reply and new state are those of `Call` for OpenAI with the given model, prompt and temperature |
| ApiManager.ApiManager.CallAnthropic | src/system/api_manager.py:266-359 | reply and new state are those of `Call` for Anthropic |
| ApiManager.ApiManager.CallOllama | src/system/api_manager.py:361-451 | reply and new state are those of `Call` for Ollama, and the rate-limit map is unchanged |
| ApiManager.ApiManager.CallGoogle | src/system/api_manager.py:453-525 | reply and new state are those of `Call` for Google |
| ApiManager.ApiManager.CallAi | src/system/api_manager.py:527-559 | routes to the `Call` of the resolved provider; an unknown provider is an error that changes nothing |
| ApiManager.ApiManager.GetAvailableProviders | src/system/api_manager.py:598-612 | the list holds exactly the keyed providers plus `ollama`, without repeats, in the fixed order OpenAI, Anthropic, Google, with `ollama` last |
| Workflow.WorkflowStep.Value | src/system/automated_workflow.py:15-27 | each step's value lies in 1..11 |
| Workflow.FromValue | src/system/automated_workflow.py:15-27 | a member exists exactly for the values 1..11, and it has that value |
| Workflow.ValueRoundTrip | src/system/automated_workflow.py:15-27 | turning a step into its value and back gives the same step |
| Workflow.DistinctInRangeBound | src/system/automated_workflow.py:128-130 | a duplicate-free list of step numbers in 1..n has at most n entries |
| Workflow.AiStepsAreTheFirstFive | src/system/automated_workflow.py:159-190 | steps 1-5 have a `step_data` key and no guidance text; steps 6-11 have guidance text and no key |
| Workflow.WorkflowManager.constructor | src/system/automated_workflow.py:33-52 | a new manager is stopped at step 1 with no workflow state |
| Workflow.WorkflowManager.SaveWorkflowState | src/system/automated_workflow.py:457-479 | saves iff a state exists with a non-zero project id, storing it under that id |
| Workflow.WorkflowManager.StartWorkflow | src/system/automated_workflow.py:54-91 | refused while running; otherwise loads the saved state or a fresh one and runs from its step, failing (after replacing the state) when that step is outside 1..11 |
| Workflow.WorkflowManager.PauseWorkflow | src/system/automated_workflow.py:93-101 | succeeds iff running; then paused and saved, nothing else changed |
| Workflow.WorkflowManager.ResumeWorkflow | src/system/automated_workflow.py:103-110 | succeeds iff running and paused; then unpaused, nothing else changed |
| Workflow.WorkflowManager.StopWorkflow | src/system/automated_workflow.py:112-121 | succeeds iff running; then saved, and both flags cleared |
| Workflow.WorkflowManager.NextStep | src/system/automated_workflow.py:123-143 | refused unless running and unpaused; marks the step completed once, then advances and saves, or after step 11 stops and returns false |
| Workflow.WorkflowManager.PreviousStep | src/system/automated_workflow.py:145-157 | succeeds iff running, unpaused and after step 1; goes back one step and saves, leaving `completed_steps` alone |
| Workflow.WorkflowManager.ExecuteCurrentStep | src/system/automated_workflow.py:159-190 | refused unless running and unpaused; steps 1-5 return the AI reply and record a successful one under the step key, steps 6-11 return their fixed text and change nothing |
| Workflow.WorkflowManager.GetWorkflowProgress | src/system/automated_workflow.py:192-214 | no state gives "not started"; otherwise the percentage is completed/11·100 (not rounded) and the step is reported only while running |
| Workflow.WorkflowManager.ProgressBounded | src/system/automated_workflow.py:192-214 | with well-formed completed steps the percentage lies in [0, 100] |
| Strings.StripSpec | src/text/text_processing.py:245 | `strip` removes exactly a leading and a trailing run of whitespace, leaving no outer whitespace |
| Sorting.SortSorted | src/text/text_processing.py:226 | the stable sort's result is ordered, and its contract makes it a permutation of the input |
| Sequences.Uniq | src/text/text_processing.py:222 | dict keys filled from a list are duplicate-free and are exactly the list's elements |
| TextProcessing.WordsCoverText | src/text/text_processing.py:114-117 | the words, put back together, are exactly the text's word characters in order, so no word character is lost or repeated |
| TextProcessing.ExtractWordsSpec | src/text/text_processing.py:131-134 | one word per counted word, each the lowered word of the text at that place and lowercase |
| TextProcessing.SentencePiecesCover | src/text/text_processing.py:119-123 | the pieces of a split at runs of `.!?`, put back together, are exactly the text's characters other than terminators, in order |
| TextProcessing.CountSentences | src/text/text_processing.py:119-123 | the sentence count is at least 1 and at most the number of pieces |
| TextProcessing.NoTerminatorOneSentence | src/text/text_processing.py:119-123 | a non-blank text without terminators is one sentence |
| TextProcessing.ParagraphPiecesJoin | src/text/text_processing.py:125-129 | joining the paragraph pieces with a blank line gives back the text |
| TextProcessing.CountParagraphs | src/text/text_processing.py:125-129 | the paragraph count is at least 1 and at most the number of pieces |
| TextProcessing.NoBreakOneParagraph | src/text/text_processing.py:125-129 | a non-blank text without a blank-line break is one paragraph |
| TextProcessing.VowelGroupsBound | src/text/text_processing.py:190-198 | vowel groups are separated by consonants, so there are at most half the letters of a word, rounded up |
| TextProcessing.Syllables | src/text/text_processing.py:179-201 | a word counts at least one syllable |
| TextProcessing.CountSyllables | src/text/text_processing.py:179-201 | returns exactly `Syllables(word)`: 1 for a stripped word of at most 3 characters, otherwise the vowel groups after dropping a final `e`, at least 1 |
| TextProcessing.CountVowelGroups | src/text/text_processing.py:189-198 | the loop over the characters with a previous-was-vowel flag counts exactly the maximal runs of vowels |
| TextProcessing.SyllablesSpec | src/text/text_processing.py:179-201 | a word's syllable count is 1 or at most half its stripped, lowered length plus one, since vowel groups are separated by consonants |
| TextProcessing.TotalSyllables | src/text/text_processing.py:203-205 | a list of words counts at least as many syllables as words |
| TextProcessing.MeaningfulWords | src/text/text_processing.py:219 | the kept words are meaningful (longer than 3 characters, not stop words), and each meaningful word keeps all its occurrences |
| TextProcessing.CounterItems | src/text/text_processing.py:222 | the counter has one item per distinct word, each with that word's exact count |
| TextProcessing.AtLeast | src/text/text_processing.py:225 | the kept items are exactly those with count at least the threshold, without introducing repeats |
| TextProcessing.FindRepeatedWords | src/text/text_processing.py:207-228 | at most 20 entries |
| TextProcessing.RankedWordsSpec | src/text/text_processing.py:224-226 | the ranked list is every qualifying word once with its exact count, sorted by non-increasing count |
| TextProcessing.FindRepeatedWordsSpec | src/text/text_processing.py:207-228 | at most 20 distinct meaningful words, each with its exact count at least the threshold, counts non-increasing |
| TextProcessing.FindRepeatedWordsComplete | src/text/text_processing.py:207-228 | a qualifying word is left out only when 20 words with counts at least its count are reported |
| TextProcessing.DisplaySpec | src/text/text_processing.py:250 | the display text has at most 103 characters and ends in `...` iff the sentence is longer than 100; a short sentence is shown whole, a long one by its first 100 characters |
| TextProcessing.LongSentences | src/text/text_processing.py:230-257 | at most 10 entries |
| TextProcessing.FindLongSentences | src/text/text_processing.py:230-257 | the loop over the pieces returns exactly `LongSentences` |
| TextProcessing.LongEntriesDescribe | src/text/text_processing.py:243-255 | each entry describes a piece at its 1-based number, with that piece's stripped word count above the threshold |
| TextProcessing.LongEntriesIncrease | src/text/text_processing.py:243-255 | entry numbers strictly increase |
| TextProcessing.LongEntriesComplete | src/text/text_processing.py:243-255 | every piece whose word count exceeds the threshold has an entry |
| TextProcessing.LongSentencesSpec | src/text/text_processing.py:230-257 | at most 10 entries, each naming its piece by number with that piece's exact word count above the threshold and its display text (at most 103 characters, `...` iff longer than 100), in increasing order |
| TextProcessing.LongSentencesComplete | src/text/text_processing.py:230-257 | a qualifying sentence is left out only when 10 earlier ones are reported |
| TextProcessing.CollectForms | src/text/text_processing.py:300-306 | the loop leaves the lowered words in first-occurrence order, each mapped to its distinct forms |
| TextProcessing.FormsMapSpec | src/text/text_processing.py:300-306 | the dictionary built word by word has exactly the lowered words as keys, each mapped to its distinct surface forms in first-occurrence order |
| TextProcessing.FindCapitalizationIssues | src/text/text_processing.py:296-314 | the method returns exactly `CapitalizationIssues` of the text |
| TextProcessing.CapitalizationIssues | src/text/text_processing.py:314 | at most 20 issues |
| TextProcessing.IssueKeysSpec | src/text/text_processing.py:308-312 | every selected key is a lowercase lowered word longer than 3 with at least two distinct forms, each a word of the text lowering to it; its sorted forms are a permutation of them |
| TextProcessing.CapitalizationIssuesSpec | src/text/text_processing.py:296-314 | the first min(n, 20) reported keys, each rendered as `key: f1, f2, …` with its forms sorted, deduplicated and all lowering to the key |
| TextProcessing.NameKey | src/text/text_processing.py:283 | the group key is the name's first three characters (or all of a shorter name), lowered |
| TextProcessing.GroupNames | src/text/text_processing.py:280-286 | the loop leaves the keys in first-occurrence order, each mapped to its names in order |
| TextProcessing.GroupsMapSpec | src/text/text_processing.py:280-286 | the dictionary built name by name has exactly the keys of the names (their lowered first three characters) as keys, each mapped to its names in order |
| TextProcessing.FindSimilarNames | src/text/text_processing.py:277-294 | the method returns exactly `SimilarNames` of the iteration order |
| TextProcessing.SelectGroupsSound | src/text/text_processing.py:288-294 | each reported variation is a group of at least two names sharing a key, headed by its first name |
| TextProcessing.SelectGroupsComplete | src/text/text_processing.py:288-294 | every group with at least two names is reported |
| TextProcessing.SimilarNamesSpec | src/text/text_processing.py:277-294 | every entry is a variation, and two different names with the same key always appear in one entry |
| TextProcessing.CapitalizedWords | src/text/text_processing.py:266 | the names are exactly the whole words of one uppercase letter followed by lowercase letters |
| TextProcessing.CheckConsistency | src/text/text_processing.py:259-275 | the report pairs the similar names of the capitalised words with the capitalisation issues of the text |
| TextProcessing.ComplexityLevel | src/text/text_processing.py:153-160 | "Simple" iff the score is at least 80, "Moderate" iff it lies in [60, 80), "Complex" iff below 60 |
| TextProcessing.GradeRank | src/text/text_processing.py:162-177 | the number of grade thresholds the score reaches lies in 0..6 |
| TextProcessing.GradeLevelByRank | src/text/text_processing.py:162-177 | the grade label is the label at the rank of the score, in the order from "College Graduate" to "5th Grade" |
| TextProcessing.GradeLevelMonotone | src/text/text_processing.py:162-177 | a higher score gives a label no earlier in that order, so never a harder grade |
| TextProcessing.GradeLabelsDistinct | src/text/text_processing.py:162-177 | the seven grade labels are distinct |
| TextProcessing.CountIn | src/text/text_processing.py:332-334 | a vocabulary count is at most the number of words, and 0 iff no word is in the vocabulary |
| TextProcessing.MoreThanHalf | src/text/text_processing.py:339-345 | `c / total > 0.5` holds iff `2·c > total` |
| TextProcessing.DetectPov | src/text/text_processing.py:336-345 | each person is detected iff it holds more than half the pronouns, and "Unknown" iff no person does |
| TextProcessing.Tone | src/text/text_processing.py:362 | "Formal" iff formal indicators outnumber casual ones, else "Casual" |
| TextProcessing.FirstToken | src/text/text_processing.py:351 | `split()[0]` exists iff the target is not blank, and it is non-empty and holds no whitespace |
| TextProcessing.AnalyzeStyle | src/text/text_processing.py:316-362 | a blank target POV is an error (the `IndexError` of `split()[0]`); otherwise the three pronoun counts are the vocabulary counts of the extracted words and the target is echoed |
| TextProcessing.AnalyzeStyleSpec | src/text/text_processing.py:316-362 | the detected POV and the tone agree with the counts, the indicator counts are vocabulary counts, and the match is the prefix test on the target's first token |
| TextProcessing.DefaultPovMatches | src/text/text_processing.py:316-362 | with the default target "Third Limited", the POV matches iff "Third Person" is detected |
| TextProcessing.FilterLength | src/text/text_processing.py:42 | removing layout characters never lengthens the text, so the count without spaces is at most the character count |
| TextProcessing.AnalyzeTextSpec | src/text/text_processing.py:26-112 | a blank text gives the empty analysis; otherwise the word count matches the extracted words, sentence and paragraph counts are at least 1, unique words at most words, syllables at least words, lists within 20 and 10, and levels from the score |
| FileOperations.SafeNameChars | src/system/file_operations.py:35 | the safe name holds only letters, digits, space, `-` and `_` |
| FileOperations.SafeNameNoOuterSpace | src/system/file_operations.py:35 | the safe name neither starts nor ends with whitespace |
| FileOperations.SafeNameIsOneComponent | src/system/file_operations.py:35 | the safe name contains no `/`, `\` or `.`, so it is one path component that cannot climb out |
| FileOperations.SafeNameSubsequence | src/system/file_operations.py:35 | the safe name is a subsequence of the given name |
| FileOperations.SafeNameFixed | src/system/file_operations.py:35 | a name that is already safe is kept as is |
| FileOperations.SafeNameIdempotent | src/system/file_operations.py:35 | sanitising twice equals sanitising once |
| FileOperations.JoinPath | src/system/file_operations.py:36 | joining an empty part leaves the directory; otherwise the part is appended |
| FileOperations.UnnamedProjectIsProjectsDir | src/system/file_operations.py:32-36 | as written, the name `"???"` maps to the projects directory itself, which contains every project's directory |
| FileOperations.NoSafeCharIsProjectsDir | src/system/file_operations.py:32-36 | as written, every name with no allowed character maps to the projects directory itself |
| FileOperations.ProjectDir | src/system/file_operations.py:32-36 | corrected: no directory iff the safe name is empty; otherwise a path one component below the projects directory |
| FileOperations.ProjectDirSpec | src/system/file_operations.py:32-36 | corrected directories are never the projects directory, and two names share one only if their safe names agree |
| FileOperations.IsProjectLocked | src/system/file_operations.py:277-307 | the lock file is looked up under `get_project_dir` as written; a check only removes files, and every file it keeps keeps its modification time |
| FileOperations.LockRule | src/system/file_operations.py:291-304 | locked iff the lock file exists and is at most 3600 seconds old; a stale lock file is removed and every other file kept |
| FileOperations.LockCheckSettles | src/system/file_operations.py:291-304 | after a check, the project is locked iff its lock file is still present, and a second check at the same time changes nothing |

## Left out

- HTTP requests, prompts, headers and response parsing are left out. Each provider's exchange is an input (`Outcome`: a status with text and token counts, or an exception).
- SHA-256 is an opaque function `digest`. The JSON rendering of keyword-argument values is their given text, so Python's float `repr` and JSON string escaping are not modelled.
- Cache expiry is left out. The database stores a TTL in days with each entry, and the database code is not part of this model.
- Threads and locks around the workflow are left out. The manager is single-threaded here.
- `time.time()` and `datetime.now()` are parameters. `started_at` and the step timestamps are left out.
- The prompt texts of workflow steps 1-5 and the guidance lists of steps 6-11 are left out. Steps 6-11 return their fixed summary text. `get_step_description` and `_load_*` are left out as display and loading helpers.
- `test_connection` and `get_usage_stats` are left out. Settings are a record of optional values with the source's defaults.
- TextProcessing.AnalyzeText takes the Flesch reading-ease score as an input. The Flesch formula, averages, `round`, reading time and floating point are not modelled.
- Workflow.WorkflowManager.GetWorkflowProgress: the percentage is the exact rational completed/11·100. The source's `round(progress_percent, 2)` is not modelled.
- Prices, costs, clock readings and time differences are exact reals, not IEEE floats. So float rounding in `_calculate_cost` and in the `now - t < window` comparison of `_check_rate_limit` is not modelled.
- Workflow.WorkflowManager.ExecuteCurrentStep takes the `call_ai` reply as an input. The effects of those calls on the AI manager (rate slots, cache, usage log) are not composed with the workflow's state.
- TextProcessing.DetectPov uses exact rational arithmetic, so float rounding of the `> 0.5` comparison for very large counts is not modelled.
- Characters are ASCII. Unicode word characters, `str.lower` beyond A-Z and Unicode whitespace are not modelled.
- TextProcessing.FindSimilarNames takes the iteration order of `set(names)` as the parameter `order`. `list(set(group))` is modelled as the group in that order.
- Python sets of word forms are modelled as duplicate-free sequences in first-occurrence order.
- TextProcessing.CheckConsistency: the unused `words` value is left out. `\b[A-Z][a-z]+\b` is modelled as whole words of that shape.
- The `target_tone` argument of `analyze_style` is never used by the source and has no effect here.
- FileOperations.IsProjectLocked: the exception paths of `os.stat`/`os.remove` are left out.
- All other file I/O (reading, writing, export, backups, the GUI) is outside this model. It is represented only by the map from paths to modification times used by the lock rule.

## Findings

| source | as written | input that shows it | evidently intended | confidence | as-written member | corrected member |
|---|---|---|---|---|---|---|
| src/system/file_operations.py:32-36 | the sanitised name may be empty, and joining an empty component gives the projects directory itself, which `delete_project_files` then removes | project name `"???"` | a name with no allowed character has no project directory | not executed | FileOperations.UnnamedProjectIsProjectsDir | FileOperations.ProjectDirSpec |
