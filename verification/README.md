# Model of an agentic host-investigation runner

The program runs a language model against the host it is on: an agent lets the model choose
inspection tools, derives findings from what the tools report, and serves the runs over an API. This
project models its parts that carry state or loop, and proves what they keep on every run.

| part | files |
|---|---|
| Decoding with a key/value cache: shapes, session analysis, cache names, both `run_prompt` forms | `tensor_shapes.dfy`, `cache_names.dfy`, `session_layout.dfy`, `session_loops.dfy`, `input_supply.dfy`, `kv_generation.dfy`, `input_contents.dfy`, `session_issues.dfy`, `kv_theorems.dfy`, `kv_chain.dfy`, `kv_reuse.dfy`, `kv_recorder.dfy` |
| The life of a run in the API server: one action for each lock section, database statement group and audit event | `data_store.dfy`, `audit_log.dfy`, `server_state.dfy`, `run_protocol.dfy`, `run_schedules.dfy`, `run_results.dfy`, `app_state.dfy` |
| The agent: tool loop, template choice, dry-run engine, findings | `agents.dfy`, `agent_prompts.dfy`, `agent_choices.dfy`, `word_match.dfy`, `investigation_templates.dfy`, `dry_run.dfy`, `dry_run_choices.dfy`, `dry_run_agent.dfy`, `findings.dfy`, `finding_selection.dfy`, `finding_report.dfy`, `finding_fields.dfy`, `finding_bonus.dfy`, `finding_rules.dfy` |
| From a captured coverage baseline to the drift a later run reports | `case_insensitive.dfy`, `coverage_baseline.dfy`, `drift.dfy` |
| The checksum manifest of an evidence bundle, and the two configuration mergers | `checksums.dfy`, `config_fields.dfy`, `config_merge.dfy`, `config_presets.dfy` |
| What these share | `wrappers.dfy`, `text.dfy`, `json.dfy` |

Code that works step by step is a method, a class where it updates fields, proved equal to a function
that gives its meaning; the theorems are about that function. Foreign code is a parameter: the runtime's
forward pass, the tokenizer, the sampler's draw, tool execution, the JSON reader, SHA-256, Unicode
lower-casing, the file system, the entry a hash map yields first, and which database statement fails.

What turned out otherwise than a reader of the source or its comments might expect:

- A cancel between a run's creation and its start is lost: such a run can complete
  (`RunSchedules.CancelCanBeLost`). Over a schedule a cancelled run stays cancelled exactly if its start is
  not in it (`RunSchedules.StaysCancelledExactly`); it ends cancelled exactly if, besides, a start is followed
  by another cancel before the result is stored (`RunSchedules.EndsCancelledExactly`).
- The run limit can be exceeded by any number (`RunSchedules.LimitCanBeExceeded`); it holds if every admitted
  run is counted before the next check, and without further admissions it will be exceeded on some schedule
  exactly if counted and pending runs are too many (`RunSchedules.LimitExceededExactly`).
- A database update is several statements without a transaction. One that fails at the insert of a finding
  leaves a settled row with the findings before it (`RunSchedules.FindingsCanBeLost`); the stored findings
  are complete exactly if no statement up to the last insert fails (`RunProtocol.StoredRowsAgree`).
- `num_elements` fails on a shape with a zero dimension if the dimensions before it overflow
  (`TensorShapes.ZeroDimensionMayOverflow`).
- A model that names neither `input_ids` nor `tokens` takes its first input for the token ids, also when
  that input has another role; then it is supplied twice, and only then
  (`InputSupply.DeclaredInputsAreSuppliedOnce`, with a signature in `InputSupply.InputsCanBeSuppliedTwice`).
- The kept session never fills the cache it could reuse: what it saves between calls is always empty, so
  a prefix is never reused (`KvTheorems.CallKeepsNothingSaved`). Were it filled, the reuse branch would not
  always be right: the positions of a suffix start at 0 again. On a runtime whose cache records the tokens fed
  and their positions, reuse builds the cache of a full prefill exactly if the model is handed no positions
  or the suffix has at most one token (`KvReuse.ReuseIsFullPrefillExactly`); with a runtime, a layout and a
  prompt for which it changes the tokens (`KvRecorder.ReuseCanChangeTokens`).
- A decoded text that holds a closing final tag is cut there by whoever reads the answer, and reads as blank if
  nothing comes before it (`KvGeneration.AnswerIsBlankExactly`).
- Decoding with a cache feeds the last prompt token twice; decoding without one never does
  (`KvTheorems.RunsFeed`).
- The word scan skips overlapping occurrences. It is exact for a word just if none of the word's periods
  ends on something other than a letter or digit (`WordMatch.ScanIsExactIff`); all built-in keywords qualify.
- An SSH scan that finds no keys yields a finding that names the count of scanned directories, also when the
  observation does not have it (`Findings.ScannedDirectoriesMayBeAbsent`). It is the one exception: every
  finding names a field of its observation exactly if no such scan lacks the count
  (`Findings.FieldsArePresentExactly`), and in a report exactly if the scan that deduplication keeps does not
  lack it (`FindingFields.ReportFieldsArePresentExactly`).
- The corroboration bonus counts the tools of failed calls as well, although the comment says it does not: a
  failed call raises the confidence of another tool's finding (`FindingBonus.FailedCallRaisesConfidence`). The
  bonus is that of the other tools exactly if no tool only failed, or there is at most one tool, or three have
  other findings anyway (`FindingBonus.BonusIgnoresFailuresExactly`).
- Rows that the database holds from an earlier process are never loaded and never change
  (`RunProtocol.EarlierRowsStay`).
- A baseline entry over 512 characters is reported as new by every later comparison
  (`Drift.LongEntriesAreAlwaysNew`). A snapshot compared with itself shows nothing new exactly if no entry is
  kept at all, or none is blank, too long or past the item limit (`Drift.SelfComparisonExactly`).
- A manifest line cannot lack just its file name; that branch is dead (`Checksums.FilenameIsNeverMissing`).
- An output mode set in a profile, the file or the environment is explained as effective but not used, and
  the explaining merger drops the tools directory and the plugins
  (`ConfigMerge.MergersAgreeWhollyIff`, with inputs in `ConfigMerge.OutputModeIsExplainedAndNotUsed`).

## Model

| member | source | states |
|---|---|---|
| TensorShapes.NumElements | inference_bridge/src/onnx_vitis.rs:1912-1925 | The loop computes the checked product, error for error. |
| TensorShapes.NumElementsExact | inference_bridge/src/onnx_vitis.rs:1912-1925 | It succeeds exactly when no dimension is negative and the product of the dimensions before the first zero fits a `usize`, and returns the true product. |
| TensorShapes.ZeroDimensionMayOverflow | inference_bridge/src/onnx_vitis.rs:1912-1925 | A shape whose product is zero but for which the count fails. |
| TensorShapes.MaterializeCacheShape | inference_bridge/src/onnx_vitis.rs:1927-1961 | Rank and static positive dimensions are kept, the past axis gets the effective past length, every other open dimension becomes one; a scalar becomes rank one. |
| TensorShapes.MaterializeSequenceShape | inference_bridge/src/onnx_vitis.rs:1963-1990 | The same for sequence inputs, with the last axis; nothing nonpositive is left for a length of at least one. |
| TensorShapes.NoPaddingExactly | inference_bridge/src/onnx_vitis.rs:1963-2003 | A sequence input holds exactly the values given, for every length, if and only if its template is a batch of one with an open last axis. |
| TensorShapes.NothingCutOrPadded | inference_bridge/src/onnx_vitis.rs:1992-2003 | For such templates the values are passed on unchanged. |
| CacheNames.PrefixesShareSlot | inference_bridge/src/onnx_vitis.rs:121-128 | After the chain of four left-to-right removals, `past_key_values.x`, `past.x` and `present.x` have one key. |
| CacheNames.ResolvedNameSharesSlot | inference_bridge/src/onnx_vitis.rs:130-159 | A resolved name is one of the outputs and has the slot key of the input, on all three routes. |
| CacheNames.UnresolvedExactly | inference_bridge/src/onnx_vitis.rs:130-159 | Nothing is resolved exactly when no output is a spelling of the input or a cache tensor of its slot. |
| CacheNames.ResolutionPreference | inference_bridge/src/onnx_vitis.rs:130-159 | The exact name wins; by slot alone, the first match that mentions `present`, else the first match. |
| SessionLoops.AnalyzeSession | inference_bridge/src/onnx_vitis.rs:1657-1909 | The analysis, with its scan of the inputs and its mapping of cache outputs, yields the layout and the issues of its meaning. |
| SessionIssues.IssuesExactly | inference_bridge/src/onnx_vitis.rs:1657-1909 | Each issue is reported if and only if its reason holds: an input nothing fits, a cache input or a role of a wrong type, no scores among the outputs, a cache input without an output. |
| SessionLoops.InitializeCache | inference_bridge/src/onnx_vitis.rs:2083-2096 | The loop yields the zero tensors of all cache inputs, or the first error. |
| InputContents.FirstCacheIsBlank | inference_bridge/src/onnx_vitis.rs:2055-2096 | The first cache has a tensor for each cache input and no other: zeros of the declared type, with the past length asked for, or one if it may not be empty. |
| SessionLoops.BuildInputs | inference_bridge/src/onnx_vitis.rs:2241-2320 | The input list is pushed role by role, the first error ending it; `InputContents.InputsAreHanded` says what it then holds. |
| InputContents.InputsAreHanded | inference_bridge/src/onnx_vitis.rs:2241-2320 | Whatever is built, the runtime finds under each name, in the declared type and shape: the token ids; a mask of ones for max(1, attention length); positions from 0, or that of a single token after a cache; zeros for token types; the switch on exactly on the cache branch; and the cache tensors of the state exactly when they are included. |
| InputContents.PlainMaskIsExact | inference_bridge/src/onnx_vitis.rs:2258-2263 | For a batch of one of open length the mask is exactly that many ones, in a shape that ends in that length. |
| InputSupply.LayoutExactlyIfDrivable | inference_bridge/src/onnx_vitis.rs:1657-1909 | A layout is returned, and no failure reported, exactly for the signatures with a token input, supported types, a logits output, and every other input a served cache tensor. |
| InputSupply.SuppliedOnceExactly | inference_bridge/src/onnx_vitis.rs:1657-1909 | With distinct names, what a layout supplies is the declared inputs, each once, if and only if the token input has no second role. |
| InputSupply.DeclaredInputsAreSuppliedOnce | inference_bridge/src/onnx_vitis.rs:2241-2320 | The same for the list built in cache-including mode from the state that `initialize_cache_state` makes. |
| InputSupply.InputsCanBeSuppliedTwice | inference_bridge/src/onnx_vitis.rs:1657-1909 | A signature that gets a layout and whose one input is supplied twice. |
| KvGeneration.DecodeLoop | inference_bridge/src/onnx_vitis.rs:3198-3268 | The loop over context, cache and generated tokens is the recursive decode. |
| KvGeneration.RunPrompt | inference_bridge/src/onnx_vitis.rs:3046-3284 | A fresh session generates the specified tokens by the specified forward passes. Who reads the final tag of its answer gets the decoded text, trimmed and up to a closing tag in it, or a fixed notice if the text is blank; a failed run or decode fails with the same error. |
| KvGeneration.SessionCache.RunPromptOnSession | inference_bridge/src/onnx_vitis.rs:2738-3014 | The kept session's call, its answer as it is read from the final tag, and what it leaves saved, for every saved prefix. |
| KvGeneration.SessionCache.ReusePrefix | inference_bridge/src/onnx_vitis.rs:2803-2861 | The reuse branch gives up the saved cache, prefills only the suffix, and updates ids, length and hits, also when it fails. |
| KvGeneration.AnswerIsBlankExactly | inference_bridge/src/onnx_vitis.rs:3270-3283 | The answer read is blank if and only if the text begins, but for white space, with a closing tag; without one in the text it is the whole text. |
| KvTheorems.HistoryDoesNotMatter | inference_bridge/src/onnx_vitis.rs:2738-3014 | After any calls, failed ones included, a call on the kept session makes the passes and generates the tokens of a fresh session. |
| KvTheorems.CallSaves | inference_bridge/src/onnx_vitis.rs:2803-2919 | A call leaves the saved fields alone without a cache or before its first pass; else it counts one miss and no hit, and saves the prompt's tokens if it succeeds. |
| KvTheorems.NoTokensNoPass | inference_bridge/src/onnx_vitis.rs:3046-3136 | A prompt that cannot be encoded or has no tokens fails before any pass, with the encoder's error or as empty. |
| KvTheorems.SessionSlot.RunPromptCached | inference_bridge/src/onnx_vitis.rs:2667-2736 | The engine's slot keeps nothing saved between calls and its answer is read like that of a fresh session of the model it was built with. |
| KvReuse.PositionsContinueExactly | inference_bridge/src/onnx_vitis.rs:2266-2300 | The positions handed over with a proper suffix continue those of the prefix if and only if it is a single token. |
| KvReuse.ReuseIsFullPrefillExactly | inference_bridge/src/onnx_vitis.rs:2803-2919 | On a runtime that records what it is fed, without padding, the reuse branch builds the cache of prefilling the whole prompt, for a suffix that may be empty, if and only if the layout declares neither `position_ids` nor `cache_position` or the suffix has at most one token. |
| KvReuse.ReuseKeepsTokens | inference_bridge/src/onnx_vitis.rs:2738-3014 | In these cases a call that reuses a prefix generates what a fresh session generates. |
| KvRecorder.RecorderRecordsFed | inference_bridge/src/onnx_vitis.rs:2241-2320 | A concrete runtime, reading its tokens, positions and past from the built input list, meets the assumption, with and without positions. |
| KvRecorder.ReuseCanChangeTokens | inference_bridge/src/onnx_vitis.rs:2803-2919 | A layout with `position_ids`, a prompt and a saved prefix for which a reused prefix generates another token than a fresh session. |
| KvTheorems.OutputStopsRight | inference_bridge/src/onnx_vitis.rs:3198-3268 | Between one and max(1, `max_new_tokens`) tokens; a stop token only at the end, and there unless the number was reached. |
| KvTheorems.MasksMatchCache | inference_bridge/src/onnx_vitis.rs:3137-3268 | With uniform cache tensors the prefill mask counts the included past and the prompt, and every later mask is exactly as long as the cache, with or without `use_cache`. |
| InputContents.MaskTensorsMatchCache | inference_bridge/src/onnx_vitis.rs:3137-3268 | In the list built for every decode pass of a cached run the mask tensor holds ones only, in rows exactly as long as the past axis of every cache tensor beside it. |
| KvTheorems.RunsFeed | inference_bridge/src/onnx_vitis.rs:3137-3268 | Over all passes a cached run feeds the prompt, its last token again, and all generated tokens but the last; each pass of an uncached run feeds the prompt and what was generated so far. |
| KvChain.TokensAreDraws | inference_bridge/src/onnx_vitis.rs:3137-3268 | Each generated token is the draw from the scores of its own pass; with a cache each pass is fed the token before and handed exactly the cache outputs of the pass before. |
| KvTheorems.MapOrderDoesNotMatter | inference_bridge/src/onnx_vitis.rs:3137-3170 | With uniform cache tensors a call does not depend on the entry a hash map yields first. |
| AuditLogging.AuditLog.Emit | api_server/src/audit.rs:114-130 | The buffer stays the newest suffix of everything emitted, the file's lines everything written. |
| AuditLogging.AuditLog.RecentEvents | api_server/src/audit.rs:133-137 | The newest events of the whole history, up to the smaller of limit and buffer size. |
| AuditLogging.AuditLog.EventCount | api_server/src/audit.rs:140-143 | The number of events still held, not of those recorded. |
| DataStoring.DataStore.InsertRun | api_server/src/data_store.rs:51-87 | Row and findings after an insert, whichever statement fails. |
| DataStoring.DataStore.UpdateRun | api_server/src/data_store.rs:89-127 | Row and findings after an update; on a fault a prefix of what a full update writes, and task and creation time untouched. |
| AppStates.AppState.Admit | api_server/src/routes.rs:200-238 | A request passes the checks exactly when the protocol can admit its run; admission reserves nothing, and a refusal changes nothing. |
| AppStates.AppState.Persist | api_server/src/routes.rs:239-242 | The insert is the protocol's step, whichever statement fails. |
| AppStates.AppState.Publish | api_server/src/routes.rs:244-254 | The entry is in the map before its task starts. |
| AppStates.AppState.CreateRun | api_server/src/routes.rs:196-273 | The sections of the handler, in its order, take a run from the request to its waiting task. |
| AppStates.AppState.MarkRunning | api_server/src/routes.rs:277-282 | The section is the protocol's start step and keeps its invariant. |
| AppStates.AppState.IncrementActive | api_server/src/routes.rs:283-286 | The counter follows the protocol's number of running tasks. |
| AppStates.AppState.DecrementActive | api_server/src/routes.rs:290-294 | The saturating decrement is the protocol's step and never saturates. |
| AppStates.AppState.StoreResult | api_server/src/routes.rs:296-343 | The section finds its run, and is the protocol's store step on memory and database; the entry gets this report, or this error and time, and keeps the rest. |
| AppStates.AppState.StampCompletion | api_server/src/routes.rs:317-322 | Without any assumption on the map the unwrapped lookup finds its run; time and database update are the protocol's step. |
| AppStates.AppState.Cancel | api_server/src/routes.rs:405-440 | The section is the protocol's cancel step; an unknown run is not found, and exactly an active one has an event to emit. |
| AppStates.AppState.Announce | api_server/src/audit.rs:114-130 | Every audit emission of the handlers is the protocol's step of that event. |
| AppStates.AppState.ExecuteRun | api_server/src/routes.rs:275-345 | The sections of the task, in its order, settle the run with the result's own report or error message and the time, also when it was cancelled before, and give the place in the counter back. |
| RunProtocol.StepFrames | api_server/src/routes.rs:196-440 | A step of one run leaves every other run's entry, row, events and stage alone. |
| RunProtocol.StepKeepsInv | api_server/src/routes.rs:196-440 | Every step of every process keeps the protocol's invariant. |
| RunProtocol.LookupNeverFails | api_server/src/routes.rs:275-345 | In every reachable state: a report iff completed, an error iff failed, finished tasks' runs are settled, and the unwrapped lookup finds its run. |
| RunProtocol.OutcomesAreFinal | api_server/src/routes.rs:275-345 | Over any schedule completed and failed are never left and keep their report or error; a run cancelled after its start stays cancelled. |
| RunResults.EntriesTellTheirRun | api_server/src/routes.rs:196-345 | Over every schedule: an entry's task, case and creation time are those of the run's one admission; a completed run's report and a failed run's error are those its own investigation returned, once; the completion time is that of its stamp or its failed store. |
| RunResults.RowsTellTheirRun | api_server/src/routes.rs:296-343 | The settled row in the database carries the same. |
| RunProtocol.CancelIsLostOnlyAtStart | api_server/src/routes.rs:277-282 | A step ends a run's cancelled status if and only if it is that run's own start. |
| RunSchedules.CancelCanBeLost | api_server/src/routes.rs:277-282 | A reachable run is cancelled while queued and completes before its cancel event is out. |
| RunSchedules.StaysCancelledExactly | api_server/src/routes.rs:275-345 | Over any schedule a cancelled run stays cancelled if and only if its start is not in it. |
| RunSchedules.EndsCancelledExactly | api_server/src/routes.rs:275-345 | It ends cancelled if and only if there is no start, or a cancel follows the start before the result is stored. |
| RunProtocol.EventBounds | api_server/src/routes.rs:296-431 | At most one completion or failure event, at most two cancellations, and one terminal event in all unless cancelled before the start. |
| RunProtocol.StoredRowsAgree | api_server/src/routes.rs:239-343 | A run has a row if and only if its insert got in. The row is the first queued one, or equals the settled entry, the latter if and only if the update's first statement succeeded; a settled row has all findings, in order, if and only if no statement up to their last insert failed, else those before the failing one. |
| RunProtocol.EarlierRowsStay | api_server/src/state.rs:113-131 | Rows the database holds from an earlier process never change, and no entry, task or cancel request is about them. |
| DataStoring.KeptExactly | api_server/src/data_store.rs:89-127 | The findings an update leaves are all of the report's if and only if there are none or no statement up to the last insert fails. |
| RunSchedules.FindingsCanBeLost | api_server/src/routes.rs:317-322 | For every report and every k, a reachable completed run whose row is settled and has only the first k findings. |
| RunProtocol.FinishedRunsArePersisted | api_server/src/routes.rs:296-343 | The row of a finished run agrees with memory if and only if it was inserted, not cancelled, and the update's first statement succeeded. |
| RunProtocol.CounterIsExact | api_server/src/routes.rs:283-294 | The counter is the number of tasks between increment and decrement, so the decrement never saturates. |
| RunProtocol.LimitUpToOverAdmissions | api_server/src/routes.rs:210-224 | Counted plus pending runs are at most the limit plus the admissions granted while that sum had reached it. |
| RunProtocol.LimitHoldsWhenSerialized | api_server/src/routes.rs:210-224 | The limit holds on schedules that count each run before the next check. |
| RunSchedules.LimitCanBeExceeded | api_server/src/routes.rs:210-224 | For every limit and every excess some schedule has that many runs too many running. |
| RunSchedules.LimitExceededExactly | api_server/src/routes.rs:210-224 | Without a further admission some schedule exceeds the limit if and only if counted plus pending runs do. |
| WordMatch.HasWord | core_engine/src/agent.rs:510-521 | The loop is the non-overlapping scan. |
| WordMatch.ScanIsExactIff | core_engine/src/agent.rs:510-521 | For every text the scan finds a word exactly when it stands alone somewhere, if and only if the word's overlaps lie inside words. |
| WordMatch.PlainWordsAreExact | core_engine/src/agent.rs:510-521 | Words of letters and digits qualify, and so do words whose first character does not recur. |
| InvestigationTemplates.ResolveInvestigationTemplate | core_engine/src/agent.rs:476-507 | The earliest template of the greatest score, the first template if all scores are zero. |
| InvestigationTemplates.BroadTriageExactly | core_engine/src/agent.rs:476-521 | The broad template is chosen if and only if no keyword of any template stands alone in the task. |
| InvestigationTemplates.ChoiceCountsStandaloneWords | core_engine/src/agent.rs:476-521 | For the built-in templates a score is the number of keywords that stand alone in the task. |
| InvestigationTemplates.EarliestBest | core_engine/src/agent.rs:482-504 | The index is that of the earliest greatest positive score; none exactly if all are zero. |
| InvestigationTemplates.ResolveDryRunTemplate | inference_bridge/src/lib.rs:242-258 | The dry run's choice, by substrings. |
| AgentChoices.TopicDecides | core_engine/src/agent.rs:476-507 | The tools are those of the topic of which most words stand alone in the task, the first such topic, and the broad five without any; with the words and tools of each topic. |
| DryRunChoices.TopicDecides | inference_bridge/src/lib.rs:131-258 | The same of a dry run, by words that occur anywhere in the task. |
| Findings.DeriveFindings | core_engine/src/lib.rs:396-985 | The passes over turns, tools and findings yield the specified findings, which `FindingRules.FindingsAreThoseDue` ties to a table of what is due. |
| FindingRules.SiteFindingsAreDue | core_engine/src/lib.rs:396-905 | An observation without an error yields exactly the findings due on its fields, each once and in this order: counts from their thresholds on, graded by literal levels, with the count quoted and its confidence; the captured baseline and hash; SSH keys or their absence; alarming log lines. One with an error yields just that. |
| FindingRules.FindingsAreThoseDue | core_engine/src/lib.rs:396-988 | The findings of a run are those due on the fields of its turns, with turn, tool and field, the bonus of two or three telling tools, and the label of their confidence: no more, no fewer, none twice. |
| FindingRules.NothingFoundExactly | core_engine/src/lib.rs:936-954 | Nothing is due on any turn if and only if the one finding is that nothing was found. |
| FindingRules.MoreIsNeverMilder | core_engine/src/lib.rs:421-821 | As a count grows its finding stays, and neither its severity nor its confidence falls. |
| Findings.DerivedResolve | core_engine/src/lib.rs:396-988 | Every derived finding points to a turn with an observation, the tool called there and one of its fields, with one exact exception, is primary and rightly labelled; or nothing was found at all. |
| Findings.FieldsArePresentExactly | core_engine/src/lib.rs:827-905 | Every finding of an observation names one of its fields if and only if it is not an SSH scan without keys and without the count of directories. |
| Findings.DerivedFieldsArePresentExactly | core_engine/src/lib.rs:396-988 | The same for all findings of a run before any are dropped. |
| Findings.ScannedDirectoriesMayBeAbsent | core_engine/src/lib.rs:891-905 | An observation with a finding whose field it does not have. |
| FindingSelection.DeduplicateFindings | core_engine/src/lib.rs:1005-1041 | The in-place overwriting loop is the specified fold. |
| FindingSelection.DeduplicatedIsSelection | core_engine/src/lib.rs:991-1041 | Exempt findings stay; each other field keeps its greatest (authority, confidence), the earliest on ties, at the field's first place. |
| FindingSelection.SelectionIsUnique | core_engine/src/lib.rs:991-1041 | That determines the result. |
| FindingSelection.DeduplicatingTwice | core_engine/src/lib.rs:1005-1041 | Deduplication is idempotent. |
| FindingSelection.DeduplicatingInTwoSteps | core_engine/src/lib.rs:1005-1041 | dedup(a + b) = dedup(dedup(a) + b). |
| FindingSelection.ExemptFindingsStay | core_engine/src/lib.rs:1010-1018 | No exempt finding is lost, doubled or reordered. |
| FindingReport.SortedIsStableSort | core_engine/src/lib.rs:1044-1052 | Sorted by severity, then confidence; a permutation; equal ranks keep their order. |
| FindingReport.StableSortIsUnique | core_engine/src/lib.rs:1044-1052 | Any other stable sort gives the same list. |
| FindingReport.AssembleReport | core_engine/src/agent.rs:149-168 | The tagging pass changes nothing, and the reported maximum severity is that of the first finding. |
| FindingReport.ReportPointersResolve | core_engine/src/agent.rs:149-164 | Evidence pointers still resolve after deduplication and sorting. |
| FindingFields.ReportFieldsArePresentExactly | core_engine/src/agent.rs:149-151 | In a report every finding names a field of its observation if and only if the empty SSH scan that is kept, the first of those with the greatest authority and confidence, has the count. |
| FindingReport.ReportIsPrimary | core_engine/src/agent.rs:153-164 | Every reported finding is primary, rightly labelled, and its tool was called. |
| FindingRules.DueFieldIsReported | core_engine/src/agent.rs:149-151 | Every field on which something is due is in the report, with exactly one finding. |
| FindingRules.KeptToolComesFirst | core_engine/src/lib.rs:991-1041 | Of several findings on a field the report keeps one of `correlate_process_network` or `audit_account_changes`, else of `inspect_persistence_locations`, else of `scan_network` or `check_privilege_escalation_vectors`, if one of these has it; among equals none has a greater confidence. |
| FindingRules.MostSevereFirst | core_engine/src/lib.rs:1044-1052 | A report goes from the most to the least severe, by confidence within one severity. |
| FindingReport.FailedCallsAreReported | core_engine/src/agent.rs:149-151 | The failure findings of a report are those of the failed calls, once each, in the order of the calls. |
| FindingBonus.BonusIgnoresFailuresExactly | core_engine/src/lib.rs:956-967 | The corroboration bonus is that of the tools with other findings if and only if no tool only failed, or there is at most one tool in all, or at least three tools have other findings. |
| FindingBonus.FailedCallRaisesConfidence | core_engine/src/lib.rs:956-980 | A run in which a call that failed raises the confidence of another tool's finding from 85 to 88. |
| Agents.RunTemplatePhase | core_engine/src/agent.rs:188-231 | One execution for each of the first `max_steps` tools whose precondition is met. |
| AgentChoices.TemplateRunFollowsTools | core_engine/src/agent.rs:188-231 | The turns are those of the first `max_steps` tools in order, without the log where it cannot be read, each called with the baseline for it and observed, with the error if it failed. |
| Agents.RunReactLoop | core_engine/src/agent.rs:233-347 | The loop over any stateful model: outcome, model state and number of questions. |
| AgentPrompts.PromptsTellObservations | core_engine/src/agent.rs:233-347 | With a model that records its prompts, which changes nothing else: the first is the system prompt; each next one is the prompt before, the answer, and the rendered observation of the call in it with the baseline filled in, or what was wrong with it; the last answer, final or synthesis, and the turns observed make the outcome, and its error is the outcome's. |
| AgentPrompts.FirstPromptTells | core_engine/src/agent.rs:577-607 | The system prompt has a line for every tool with its description, every fixed line, and the task. |
| Text.TagIsFoundExactly | core_engine/src/lib.rs:1432-1440 | A tag is found if and only if a closing tag comes somewhere after an opening one. |
| Agents.Run | core_engine/src/agent.rs:110-185 | Scope check, dispatch by capability, and the assembled report. |
| AgentChoices.RunScoped | core_engine/src/agent.rs:110-185 | A run is refused, with one finding and no tool or question, if and only if one of the words for other things stands alone in the task and none of the words for the host. |
| Agents.EveryRunIsSound | core_engine/src/agent.rs:110-347 | Whatever the model answers: at most `max_steps` turns and one question more, every turn an execution with its observation, the findings resolve into them, and every failed call is reported. |
| DryRun.DryRunEngine.Generate | inference_bridge/src/lib.rs:462-483 | The engine names the template's next tool, or completes the cycle and starts over. |
| DryRunChoices.PathIsTaken | inference_bridge/src/lib.rs:398-421 | The first word that looks like a path, without the punctuation around it, is the path that `hash_binary` and `read_syslog` are called with. |
| DryRunChoices.NoPathIsTaken | inference_bridge/src/lib.rs:398-421 | No path is found if and only if no word looks like one; then the defaults are taken. |
| DryRunChoices.LineCountIsTaken | inference_bridge/src/lib.rs:427-460 | The first number before "lines", up to 5000, is the number of lines that `read_syslog` is called with. |
| DryRunAgent.TaskIsFound | inference_bridge/src/lib.rs:392-396 | However the transcript has grown, the engine finds the trimmed task in it. |
| DryRunAgent.CallIsRead | inference_bridge/src/lib.rs:486-536 | The text of a dry-run call holds no final tag and is read back as that call, also with a path from the task. |
| DryRunAgent.DryRunFollowsTemplate | core_engine/src/agent.rs:233-347 | A fresh dry-run engine makes the agent execute exactly the first min(`max_steps`, n) tools of the task's n-tool template in order, in at most `max_steps` + 1 questions; with steps to spare its index ends at 0. |
| DryRunAgent.RunDryInvestigation | core_engine/src/agent.rs:110-185 | The same of a whole run on a task in scope: the turns of its report are these calls. |
| CaseInsensitive.SortDedup | cyber_tools/src/lib.rs:448-451 | Sort, then dedup of adjacent equals. |
| CaseInsensitive.SortedDistinctIs | cyber_tools/src/lib.rs:448-451 | Strictly ascending without regard to case; one string of each case, its first. |
| CoverageBaselines.CollectStrings | cyber_tools/src/lib.rs:421-442 | The loop of both list readers. |
| CoverageBaselines.StringListKeepsLookups | cli/src/main.rs:5548-5570 | A list within the limits loses no lookup value when read, and fits again. |
| CoverageBaselines.LatestCaptureIsLast | cli/src/main.rs:5214-5268 | The export keeps, and the import takes, the last capture of a run. |
| CoverageBaselines.ApplyCoverageBaselineToCall | core_engine/src/agent.rs:61-108 | The lists go into the arguments of the three tools; arguments already set stay, empty lists are not set. |
| CoverageBaselines.InjectionExactly | core_engine/src/agent.rs:61-108 | A key that the call sets keeps its value; another one appears if and only if the baseline has a list for that tool and key that is not empty, with its strings in order. |
| Drift.ReportIsDifference | cyber_tools/src/lib.rs:851-860 | With a baseline the report is the case-insensitive set difference, one spelling of each, in order. |
| Drift.NothingReportedExactly | cyber_tools/src/lib.rs:851-860 | Nothing is reported if and only if there is no baseline or it has every value. |
| Drift.AuditAccounts | cyber_tools/src/lib.rs:904-956 | New, removed and unapproved accounts. |
| Drift.CaptureIsImported | cli/src/main.rs:5495-5543 | Within the limits the imported baseline has the lookup values of the captured snapshot. |
| Drift.DriftIsMeasuredAgainstCapture | core_engine/src/agent.rs:61-108 | Through capture, export, import and injection, each tool compares with exactly what was captured: new entries, new and unapproved accounts and those that are gone, new bindings, and listeners of unexpected processes. |
| Drift.UnexpectedExactly | cyber_tools/src/lib.rs:1043-1064 | The listeners reported are the exposed ones whose process has no name or one that is not expected, each as often as it occurs. |
| Drift.NoDrift | cyber_tools/src/lib.rs:1005-1073 | A later run that finds nothing new reports no new entries, accounts or bindings, and as unexpected just the exposed listeners without a name, none if no process was captured. |
| Drift.LongEntriesAreAlwaysNew | cyber_tools/src/lib.rs:421-442 | An entry over the limit is always reported. |
| Drift.SelfComparisonExactly | cli/src/main.rs:5495-5570 | A snapshot compared with its own imported baseline shows no new entry if and only if none is kept, or each is nonblank, short enough and among the first items. |
| Checksums.VerifyEntries | cli/src/main.rs:5348-5426 | Entries and errors line by line. |
| Checksums.VerifyBundle | cli/src/main.rs:5286-5325 | The counts add up, and none fails if and only if at least one line matters and each that does names a readable file with its digest. |
| Checksums.EveryLineIsAccountedFor | cli/src/main.rs:5348-5426 | Of arbitrary text, every line that is not blank or a comment gives one entry or one error. |
| Checksums.FilenameIsNeverMissing | cli/src/main.rs:5379-5382 | The missing-filename error cannot occur. |
| Checksums.CommentsAreNoMatter | cli/src/main.rs:5348-5426 | A blank line, or one whose first visible character is a hash, adds neither an entry nor an error wherever it stands. |
| Checksums.DigestsExactly | cli/src/main.rs:5348-5440 | A digest is 64 hexadecimal digits in either case. |
| Checksums.DigestCaseIsNoMatter | cli/src/main.rs:5348-5440 | A line whose digest is spelled in another case is accepted and gives the same entry. |
| Checksums.VerifierInvertsPrinter | cli/src/main.rs:5161-5440 | Printing, then verifying gives the items in order without errors, each passing if and only if its file is readable with an equal digest. |
| Checksums.BundleVerifiesExactly | cli/src/main.rs:5161-5192 | The program's own manifest fits a bundle's contents if and only if both digests agree. |
| ConfigFields.OverlaidAt | cli/src/main.rs:2654-2748 | Field-by-field copying takes each field from the fragment where it has it, and under its own name. |
| ConfigFields.RelabelledAt | cli/src/main.rs:2654-2854 | Field-by-field labelling labels the fields that are set, each with its own label, and no other. |
| ConfigFields.RuntimeConfig.ApplyFragment | cli/src/main.rs:1206-1270 | The statements merge the fragment's settings into the configuration's, all but the output mode. |
| ConfigFields.RuntimeConfig.ApplyCliOverrides | cli/src/main.rs:2570-2652 | The statements merge the command line's settings, a dry run prevailing over live and verbose over quiet. |
| ConfigFields.ApplyFragmentWithSource | cli/src/main.rs:2654-2748 | The twin merges all of the fragment's settings and labels exactly these. |
| ConfigFields.ApplyCliOverridesWithSource | cli/src/main.rs:2750-2854 | The twin merges the command line's settings but tools directory and plugins, and labels each option. |
| ConfigMerge.MergeSources | cli/src/main.rs:2268-2323 | A configuration with the settings of the layered inputs, or why these are refused. |
| ConfigMerge.MergeSourcesWithExplanation | cli/src/main.rs:2325-2399 | A configuration and labels that stack all layers, or why the inputs are refused. |
| ConfigMerge.ValueAndLabelAgree | cli/src/main.rs:2325-2399 | Of every explained field the value and the label come from the highest of default, built-in profile, file defaults, `[inference]`, file profile, environment and command line that sets it. |
| ConfigMerge.ViewShowsExactly | cli/src/main.rs:4050-4093 | Two configurations have one view if and only if they agree on all fields but four. |
| ConfigMerge.MergersAgree | cli/src/main.rs:4050-4093 | What the two mergers arrive at shows the same view, and is refused for the same reason if at all. |
| ConfigPresets.RefusedExactly | cli/src/main.rs:2856-2931 | A configuration is accepted if and only if it has steps and tokens, a temperature from 0 to 2, JSON for an adapter, a policy for a threshold, a proper case identifier and a baseline that is there; each error is told by what fails. |
| ConfigPresets.CaseIdsExactly | cli/src/main.rs:2886-2906 | A case identifier is accepted if and only if it is, trimmed, 1 to 128 letters, digits and `-_.:`. |
| ConfigPresets.PresetsYield | cli/src/main.rs:2486-2541 | The merged view shows the steps, tokens, temperature, format, mode and fallback of the built-in profile, or the defaults, where neither file, environment nor command line sets them. |
| ConfigPresets.ProfileIsUnknownExactly | cli/src/main.rs:2465-2541 | A profile is refused if and only if it is none of the six and the file has none of that name, in any case of letters. |
| ConfigPresets.ModelOptionsWin | cli/src/main.rs:2570-2652 | Whatever lies below, the view shows the model options of the command line. |
| ConfigPresets.ReportOptionsWin | cli/src/main.rs:2570-2652 | The same of the fallback policy, format, adapter and exit options. |
| ConfigPresets.OutputOptionsWin | cli/src/main.rs:2570-2652 | The same of the output file, case, evidence and baseline options. |
| ConfigPresets.BackendOptionsWin | cli/src/main.rs:2570-2652 | The same of the backend options. |
| ConfigPresets.FlagsWin | cli/src/main.rs:2570-2652 | A dry run prevails over live, verbose over quiet. |
| ConfigMerge.MergeTwice | cli/src/main.rs:2268-2399 | On every input both mergers succeed with the same view, or fail with the same error. |
| ConfigMerge.SettingsDetermine | cli/src/main.rs:852-879 | The settings by name determine a configuration. |
| ConfigMerge.MergersAgreeWhollyIff | cli/src/main.rs:2570-2854 | The two whole configurations are equal if and only if no tools directory or plugin is given and no unused output mode is set. |
| ConfigMerge.OutputModeIsExplainedAndNotUsed | cli/src/main.rs:2268-2399 | With the full mode in the environment a run uses the compact one, and the explanation says full, from the environment. |

## Left out

- ORT, Vitis and raw bindings, library discovery, session options: foreign calls; a forward pass is a function of its named inputs.
- The shared-buffer decoder beyond its call: its length bounds are not stated in the code.
- Floating point: confidences are whole hundredths, temperatures real or not a number, softmax sampling an oracle.
- The decode loop is written once; the source writes it in both run functions.
- The runtime's side of prefix reuse is an assumption: up to the prompt's length its cache is a faithful record of the tokens fed and their positions, and where it is handed no positions it counts on from its past.
- KvReuse.ReuseIsFullPrefillExactly: assumes that the saved cache is the prefill of the saved ids, which the source never makes true.
- Indexing panics: logits of a run without outputs are an error here; byte slicing of long observations inside a character is not modelled.
- RunProtocol: run identifiers are fresh in the process and in the database it opens, and `run_investigation` returns rather than panics. `usize` is 64 bits wide.
- InputContents.InputsAreHanded: for layouts whose names differ, so that a name has one entry in the list; they do exactly if the token input has no second role.
- KvChain.TokensAreDraws: for layouts whose cache inputs have different names, as those of a signature with different names have.
- DryRun: the fixed limits among the arguments of a dry run's calls have no theorem of their own.
- HTTP routing, authentication, cases, listings, SQL text, migrations.
- Findings: of titles only the numbers they quote, and no recommended actions; the sum of SSH key counts wraps as in a release build.
- Agents: thoughts, timings and the wording of prompts and summaries. Of the fixed lines before the task line the dry-run theorem assumes that none starts with white space or the letter T, which holds of the source's text.
- DryRunAgent.DryRunFollowsTemplate: assumes that the JSON reader reads the calls of known tools with simple paths as they are meant; tasks are single lines without angle brackets or control characters.
- Drift: the counts in a captured observation, the collectors' own limits, high-risk process names, the risk score and the allowlist.
- Checksums: manifest path resolution, joining of absolute names, wording of errors.
- ConfigMerge: argument parsing, TOML and environment reading. The statements of a copying function are written in groups, one method each, in the order of the fields.
- Rendering, downloads, model packs, host inspection commands and plugins: input and output, or settled by reading one function.
