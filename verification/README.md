# Hackathon AI Judge: a Dafny model of its deterministic core

The Hackathon AI Judge scores a hackathon submission from its video, documents and
presentation. Language models do the reading. Everything around them is plain code,
and that code is what this project models and proves properties of:

- the analysers' skip rule;
- the project-type classifier's post-processing;
- the nine evaluation chains' parsing, normalisation and fallbacks;
- the fully deterministic accessibility scorer;
- the chain executor's error isolation, summaries and buckets;
- the weight engine and the configuration registry;
- the web pipeline's stage sequence and its progress tracker;
- the upload validators, safe file names, S3 keys and URLs;
- the input checks of the two Bedrock gateways.

Every language-model reply is an input string. Python values are modelled as follows:

- Python dictionaries are ordered lists of pairs (`Values.Dict`), because the code
  observes insertion order.
- Scores are `real`.
- Exceptions are `Failure` values.

Modules follow the source files:

| module | file (under `src/`) |
|---|---|
| `Wrappers`, `Text`, `Values`, `Scores` | Python's `None`/exceptions, string methods, dynamic values, the 0..10 score scale |
| `ConfigManager`, `WeightManager` | `config/config_manager.py`, `config/weight_manager.py` |
| `BaseChain`, `ChainUtils` | `chain/base_evaluation_chain.py`, `chain/chain_utils.py` |
| `Accessibility`, `BusinessValue` | `chain/accessibility_chain.py`, `chain/business_value_chain.py` |
| `LlmScorer` | the shape shared by the seven model-backed scorers |
| `CostAnalysis`, `Innovation`, `NetworkEffect`, `SocialImpact`, `Sustainability`, `TechnicalFeasibility`, `UserEngagement` | `chain/<name>_chain.py`, each a `LlmScorer.Scorer` value |
| `ChainExecutor` | `chain/chain_executor.py` |
| `Classifier` | `classifier/project_type_classifier.py` |
| `BaseAnalysis` | `analysis/base_analysis.py` |
| `AnalysisManager`, `ProgressTracker` | `web/analysis_manager.py`, `web/progress_tracker.py` |
| `FileHandler` | `web/file_handler.py` |
| `FileUploader`, `S3Storage` | `uploads/file_uploader.py`, `uploads/s3_storage.py` |
| `NovaGateway` | `llm/nova_lite_llm.py`, `llm/nova_pro_llm.py` |

The seven model-backed scorers differ only in data: reasoning key, legacy suggestion key,
extra fields and their defaults, the fallback record, and whether the project type picks
the criteria. That data is a `LlmScorer.Scorer`. The parse, normalise and fallback logic
is written once and proved once. Each chain module then states the same guarantees for
its own constants.

The progress tracker is a pure map from session ids to sessions. Each operation returns
the new map. The source guards it with a non-reentrant `threading.Lock`. The model gives
the sequential meaning (`UpdateStep`, `AddError`, `AllSessions`). It also gives separate
members that return `Blocked` wherever the source would re-acquire the lock it already
holds (see Findings).

File names follow Python's `pathlib`. `Text.PathName` is `Path(p).name`: the last
'/'-separated component that is neither empty nor ".", or "" when there is none. So
"a/clip.mp4/" is named "clip.mp4", and "." has the empty name. `Text.Suffix` and
`Text.Stem` split such a name at its last inner '.'.

Notes on the code:

- `FileHandler.SupportedFormats` has the code's narrow lists. A document may be .txt,
  .doc or .docx; a presentation .pdf, .ppt or .pptx; a video .mp4, .avi or .mov.
- `ChainExecutor`'s per-chain error record has no `status` field. It holds score 5.0,
  evaluation method "error_fallback", the error text and the input's project type.
- `BaseChain`'s error record has one suggestion, `status` "ERROR" and no evaluation
  method.
- The model-based classifier loads a confidence threshold and never applies it. Low
  confidence does not force "balanced" (`Classifier.ThresholdIgnored`).

## Model

| member | source | states |
|---|---|---|
| BaseAnalysis.EmptyResult | src/analysis/base_analysis.py:19-25 | the skip record has status "skipped", a non-empty reason and an empty data mapping |
| BaseAnalysis.Invoke | src/analysis/base_analysis.py:10-17 | a missing, falsy or all-whitespace URI gives the skip record; a usable string URI goes to `process` as given; a truthy non-string URI fails |
| BaseAnalysis.SkipIgnoresProcess | src/analysis/base_analysis.py:13-15 | a skipped input gives the same record whatever the analyser's `process` is |
| BaseAnalysis.UriReachesProcess | src/analysis/base_analysis.py:11-17 | a string URI reaches `process` unchanged exactly when it is not blank |
| BaseAnalysis.BaseProcess | src/analysis/base_analysis.py:27-29 | the base `process` always fails |
| BaseAnalysis.BaseNeverAnalyses | src/analysis/base_analysis.py:10-29 | the base analyser returns the skip record exactly for inputs without a usable URI and fails on all others |
| BaseChain.Preprocess | src/chain/base_evaluation_chain.py:75-90 | a mapping is used as it is; a string or any other value becomes a one-entry mapping under "content" |
| BaseChain.BaseRecord | src/chain/base_evaluation_chain.py:103-116 | the standard record holds the clamped score, the reasoning (default ""), the suggestions (default []), the chain name, and the analysis's data_limitations exactly when it had one |
| BaseChain.PostprocessContents | src/chain/base_evaluation_chain.py:92-123 | after post-processing the score is on the 0..10 scale, reasoning/suggestions/limitations are carried over, and every other key of the analysis keeps its value |
| BaseChain.InvokeKeepsScore | src/chain/base_evaluation_chain.py:57-63 | an analysis whose score is already in 0..10 keeps that score through `invoke` |
| BaseChain.InvokeScoreInRange | src/chain/base_evaluation_chain.py:53-73 | every `invoke` result has a numeric score in 0..10; a failing analysis gives score 0.0 and status "ERROR" |
| BaseChain.CopyExtrasReservedScore | src/chain/base_evaluation_chain.py:119-121 | the metadata copy never overwrites the standardised score |
| BaseChain.Run | src/chain/base_evaluation_chain.py:223-231 | `run` returns a score in 0..10 |
| BaseChain.CheckDataAvailability | src/chain/base_evaluation_chain.py:181-208 | the check fails exactly when one of the three records is truthy but not a mapping; otherwise the list holds the video, document and presentation messages, in that order, each exactly when its source lacks a mapping with truthy content |
| BaseChain.NoLimitationsIffAllContent | src/chain/base_evaluation_chain.py:191-208 | no limitation is reported exactly when video, document and presentation all have content |
| BaseChain.LimitationsInSourceOrder | src/chain/base_evaluation_chain.py:191-208 | every message names a source, no source twice, and they come in the order video, document, presentation |
| ChainUtils.ExtractProjectType | src/chain/chain_utils.py:51-71 | a non-mapping input gives "balanced"; a successful result is already lower-case |
| ChainUtils.ProjectTypePrecedence | src/chain/chain_utils.py:61-71 | for any classification mapping holding a `project_type`, that type wins, lower-cased; a classification mapping without one, a classification that is not a mapping, or no classification at all falls back to the top-level type; without either the type is "balanced"; whichever type is chosen fails at `.lower()` when it is not a string |
| ChainUtils.ProcessInputData | src/chain/chain_utils.py:74-119 | a string input is used unchanged, and any input that is neither a string nor a mapping is rendered as `str(input)` |
| ChainUtils.ProcessMapping | src/chain/chain_utils.py:89-117 | a mapping is rendered as the concatenation of one "label: value" line per truthy field in the order title, description, content, summary, details, then one line per truthy analysis key in its fixed order (a mapping shows its content, else its summary); when no line is present, as `str(input)` |
| ChainUtils.ProcessInputDataEmpty | src/chain/chain_utils.py:84-119 | the rendered project information is empty exactly for the empty string |
| ChainUtils.TitleLineFirst | src/chain/chain_utils.py:91-101 | a mapping with a truthy title is rendered starting with the labelled title line |
| ChainUtils.Bullets | src/chain/chain_utils.py:136-137 | one "- " bullet per criterion, in order |
| ChainUtils.SingleCriteriaLines | src/chain/chain_utils.py:140-145 | for a painkiller (vitamin) project the criteria section reads back line by line as exactly the painkiller (vitamin) bullets |
| ChainUtils.BalancedCriteriaLines | src/chain/chain_utils.py:146-148 | for any other type the section reads back as the painkiller bullets, the vitamin bullets, then the instruction to weigh evenly |
| ChainUtils.ValidateScore | src/chain/chain_utils.py:194-209 | the result is on 0..10: the clamped number when `float()` accepts the value, 5.0 otherwise |
| ChainUtils.SetDefault | src/chain/chain_utils.py:233-235 | `setdefault` keeps an existing value, adds the default for a missing key, and touches no other key |
| ChainUtils.CheckedReasoning | src/chain/chain_utils.py:241-242 | the kept reasoning is a non-blank string; it fails exactly for a truthy non-string |
| ChainUtils.CheckedSuggestions | src/chain/chain_utils.py:245-246 | the kept suggestions are truthy, equal to the reply's when those were truthy; it fails exactly for a truthy number or boolean |
| ChainUtils.WithDefaults | src/chain/chain_utils.py:233-238 | the score is the reply's score (5.0 when absent) passed through the 0..10 score check; reasoning and suggestions keep the reply's value or get their defaults; every other field is kept as it was |
| ChainUtils.Tagged | src/chain/chain_utils.py:241-250 | the checked reasoning and suggestions, the project type and the LLM method tag are stored and the score is untouched |
| ChainUtils.CompleteReply | src/chain/chain_utils.py:232-252 | a decoded non-mapping fails; a mapping succeeds exactly when its reasoning and suggestions (or their defaults) pass the text and list checks, and then the record holds the checked score of the reply's score (5.0 when absent), those checked values, the project type and the LLM method tag |
| ChainUtils.WellFormedReplyKept | src/chain/chain_utils.py:232-252 | a reply with non-blank reasoning and usable suggestions keeps both unchanged |
| ChainUtils.ParseLlmResponse | src/chain/chain_utils.py:212-259 | without a brace span, or when the span does not decode, the keyword fallback of the whole reply is returned; a span that decodes is completed by `CompleteReply`; every parsed reply carries the requested project type |
| ChainUtils.Evaluate | src/chain/chain_utils.py:370-398 | the result carries the project type; a failing gateway gives exactly the error reply |
| ChainUtils.EvaluateScoreInRange | src/chain/chain_utils.py:223-338 | whatever the gateway and the reply, the score is a number on 0..10 and the method tag is the LLM, fallback or error one |
| ChainUtils.OnScale | src/chain/chain_utils.py:282-285 | exactly the captured numbers in 0..10 are kept, and nothing else |
| ChainUtils.Cleaned | src/chain/chain_utils.py:299-301 | no kept suggestion is empty after stripping |
| ChainUtils.FallbackScoreIsMean | src/chain/chain_utils.py:287-289 | the fallback score is on 0..10: the mean of the on-scale captures, or 5.0 when there are none |
| ChainUtils.RepeatedScoreIsThatScore | src/chain/chain_utils.py:274-289 | a reply whose patterns all capture the same on-scale number scores that number |
| ChainUtils.FallbackSuggestionShape | src/chain/chain_utils.py:303-315 | one to three non-empty suggestions; the three defaults when nothing was captured |
| ChainUtils.FallbackReasoningShape | src/chain/chain_utils.py:307-310 | the fallback reasoning is never blank, at most 503 characters (or the empty-reply text), and the reply itself when short and not blank |
| ChainUtils.FallbackFields | src/chain/chain_utils.py:312-318 | the fallback record holds the fallback score, suggestions and reasoning, the project type and the fallback tag |
| ChainUtils.ErrorFields | src/chain/chain_utils.py:321-338 | the error record has score 5.0, the error text inside the reasoning, the three fixed suggestions, the project type and the error tag |
| Classifier.EntryLinesExact | src/classifier/project_type_classifier.py:277-283 | every written line comes from a non-blank string, list or dict entry of the record, and every such entry is written |
| Classifier.SectionLines | src/classifier/project_type_classifier.py:266-287 | an empty or absent record writes nothing; otherwise the section opens with its title and closes with a blank line |
| Classifier.FormatOpensWithFirstSection | src/classifier/project_type_classifier.py:262-289 | the prompt text is empty exactly when all three records are empty, and otherwise opens with the title of the first present section in the order video, document, presentation |
| Classifier.FirstClose | src/classifier/project_type_classifier.py:150 | finds the first '}' followed by a closing fence, as the lazy `.*?` does |
| Classifier.FencedMatch | src/classifier/project_type_classifier.py:150 | finds the leftmost position where a json fence, an object and a closing fence match |
| Classifier.FencedBlock | src/classifier/project_type_classifier.py:150-152 | a found block starts with '{' and ends with '}'; there is none exactly when no position matches |
| Classifier.FencedBlockSlice | src/classifier/project_type_classifier.py:150-152 | the found block is the text from the first fenced object's opening brace to the first '}' after it, at the first position where a fence matches |
| Classifier.JsonCandidate | src/classifier/project_type_classifier.py:150-159 | the fenced block wins over the greedy brace span; either way the text is brace-delimited |
| Classifier.ExtractWithRegex | src/classifier/project_type_classifier.py:220-250 | extraction fails, with the "complete failure" message, exactly when some numeric field's capture is rejected by `float`; otherwise a field is in the result exactly when some pattern captured it, and with distinct fields a numeric field holds the `float` of its capture and any other field the captured text |
| Classifier.FirstDecodingRetry | src/classifier/project_type_classifier.py:186-218 | the retry used is the first of the allowed ones whose reply decodes; a raising call or a non-decoding reply moves on |
| Classifier.ParseResponse | src/classifier/project_type_classifier.py:137-174 | a reply whose JSON candidate decodes gives that object; any failure is the "complete failure" error |
| Classifier.PatternFallback | src/classifier/project_type_classifier.py:218-246 | the pattern fallback succeeds, with a mapping, exactly when every numeric capture converts; that mapping holds exactly the captured fields, numeric ones as the `float` of their capture and the others as the captured text |
| Classifier.ParseResponseRoutes | src/classifier/project_type_classifier.py:166-218 | after a failed first decode: with retries off the pattern fallback is used; a first retry that decodes is used; when no retry decodes the pattern fallback on the original reply is used |
| Classifier.CompleteMeansRequired | src/classifier/project_type_classifier.py:302-306 | a parsed mapping is complete exactly when every required field is present |
| Classifier.Canonical | src/classifier/project_type_classifier.py:318-321 | a valid lowered type is kept without warning; any other becomes "balanced" with the warning |
| Classifier.UnitClamp | src/classifier/project_type_classifier.py:324 | the confidence lands in [0, 1] and one already there is unchanged |
| Classifier.Normalized | src/classifier/project_type_classifier.py:331-334 | with a positive total the scores sum to 1 and keep their ratio; two zeros stay zeros |
| Classifier.NonNegative | src/classifier/project_type_classifier.py:327-328 | a negative score becomes 0 and any other is kept |
| Classifier.Validate | src/classifier/project_type_classifier.py:291-336 | validation succeeds exactly for a complete mapping with a string type and three convertible numbers; a mapping lacking fields fails with the message listing the missing fields in order, as Python prints the list; the result has a valid type (warning iff replaced), confidence in [0, 1], non-negative scores summing to 1 or both 0 |
| Classifier.ValidateFields | src/classifier/project_type_classifier.py:308-336 | a complete mapping validates to the canonical type, the clamped confidence and the normalised non-negative scores |
| Classifier.ValidateOfLookups | src/classifier/project_type_classifier.py:291-336 | any mapping holding a validated classification's fields validates back to it |
| Classifier.ValidateIdempotent | src/classifier/project_type_classifier.py:291-336 | validating the dictionary of a validated classification gives it back, without a warning |
| Classifier.NormalizedFixed | src/classifier/project_type_classifier.py:331-334 | scores that already sum to 1, or are both 0, are left as they are |
| Classifier.LegacyRecord | src/classifier/project_type_classifier.py:357-364 | the legacy default is "balanced" with scores summing to 1 |
| Classifier.HandleFailure | src/classifier/project_type_classifier.py:338-364 | the handler raises exactly when `raise_on_failure` is set, with the failure prefix and the error text |
| Classifier.Classify | src/classifier/project_type_classifier.py:69-105 | a classification is returned exactly when the call, parse and validation succeed, and it is what that single attempt produced; an exception escapes exactly when failures raise, and it is the failure prefix followed by the attempt's own error |
| Classifier.ClassifyReturningDefault | src/classifier/project_type_classifier.py:338-364 | a successful attempt is returned as it is; a failed one in legacy mode yields the handler's balanced record built from the attempt's error, so legacy mode always yields a classification of a valid type |
| Classifier.ClassifiesDecodedReply | src/classifier/project_type_classifier.py:69-105 | when the model answers and the extracted JSON decodes, a decoded object that validates is the classification returned, and one that does not gives an exception when failures raise and `None` otherwise |
| Classifier.LegacyDefaultIsDiscarded | src/classifier/project_type_classifier.py:103-105 | in legacy mode a failed model call makes `classify` return nothing, where the handler built the balanced default |
| Classifier.RaisingModesAgree | src/classifier/project_type_classifier.py:103-105 | when failures raise, the written and the corrected `classify` agree |
| Classifier.ThresholdIgnored | src/classifier/project_type_classifier.py:32 | the loaded confidence threshold never changes a classification |
| ConfigManager.LoadFile | src/config/config_manager.py:42-51 | a loaded file is registered under its name: its document when truthy, `{}` when empty or unreadable; other names are untouched |
| ConfigManager.LoadAllRegistersEveryFile | src/config/config_manager.py:30-40 | every offered file ends up registered, whether it loaded or not |
| ConfigManager.GetConfig | src/config/config_manager.py:53-62 | an unknown file gives the default; without a key path the whole document is returned |
| ConfigManager.DottedPathComposes | src/config/config_manager.py:64-72 | looking up "a.rest" is looking up "a" and then "rest" inside the value found, with the default on any miss |
| ConfigManager.FailedFileGivesDefault | src/config/config_manager.py:49-51 | a file that failed to load answers every key path with the default |
| ConfigManager.GetWeights | src/config/config_manager.py:74-83 | the result is always non-empty; it is the stored section when that is truthy and the nine equal weights of 1/9 otherwise |
| ConfigManager.StoredWeightsReturned | src/config/config_manager.py:74-83 | the section stored under "weights.<type>" of chain_weights.yaml is returned when truthy, and the equal weights replace it when falsy |
| ConfigManager.MissingWeightsFileGivesEqualWeights | src/config/config_manager.py:74-83 | without chain_weights.yaml every project type gets the equal weights |
| ConfigManager.DefaultWeightValueShape | src/config/config_manager.py:77-82 | the fallback weights are the nine chains, in order, at 1/9 each |
| ConfigManager.GetSystemPrompt | src/config/config_manager.py:106-109 | the lookup succeeds exactly when the section is a mapping; a stored system prompt is returned as stored, and "" stands in when there is none |
| ConfigManager.StoredPromptReturned | src/config/config_manager.py:106-109 | the system prompt stored in an analysis type's section of system_prompts.yaml is what the lookup returns |
| WeightManager.EqualWeights | src/config/weight_manager.py:121-128 | every chain gets the same weight, one over the number of chains |
| WeightManager.DefaultWeightsSumToOne | src/config/weight_manager.py:116-141 | the built-in vectors give each of the nine chains 1/9 and sum to 1 |
| WeightManager.CheckEntries | src/config/weight_manager.py:153-155 | a vector passes exactly as its numbers, in order, all non-negative; a negative weight raises the negative-weight ValueError |
| WeightManager.NegativeEntryRaises | src/config/weight_manager.py:153-155 | a numeric vector with any negative weight raises a ValueError |
| WeightManager.ValidateType | src/config/weight_manager.py:148-176 | a non-mapping raises the bad-format error, and so does any entry error; a vector whose sum is within the tolerance of 1 is kept as it is; outside the tolerance a positive sum divides every weight by the sum, and a sum of 0 or less raises the zero-sum error naming the type; an accepted vector keeps its chains, is non-negative, and sums to 1 or lies within the tolerance of 1 |
| WeightManager.ZeroSumFallsBack | src/config/weight_manager.py:105-176 | a weights file whose first type has only zero weights makes loading raise the zero-sum error, which is not re-raised, so the manager falls back to the built-in defaults |
| WeightManager.Normalize | src/config/weight_manager.py:169-174 | every weight is divided by the sum, chain names kept |
| WeightManager.NormalizeKeepsShape | src/config/weight_manager.py:169-174 | rescaling keeps the chain names and non-negativity |
| WeightManager.NormalizeSumsToOne | src/config/weight_manager.py:169-174 | a vector rescaled by its positive sum sums to exactly 1 |
| WeightManager.ValidateAll | src/config/weight_manager.py:143-176 | when every type validates, the result keeps the types in order with each type's validated vector |
| WeightManager.Recover | src/config/weight_manager.py:105-114 | only a ValueError mentioning a negative weight or a bad format escapes; everything else gives the built-in defaults |
| WeightManager.LoadedWeightsValid | src/config/weight_manager.py:65-176 | whatever the file holds, a manager that loads has a numeric tolerance and only non-negative vectors summing to 1 or within the tolerance of 1 |
| WeightManager.ValidatedManagerValid | src/config/weight_manager.py:90-93 | a configuration that passed validation against the settings' tolerance gives a valid manager |
| WeightManager.LoadDocumentDelegates | src/config/weight_manager.py:81-93 | a document with non-empty weights is decided by validating its weights against its default settings |
| WeightManager.ValidationErrorEscapes | src/config/weight_manager.py:105-108 | a re-raised validation error escapes the loader with its message |
| WeightManager.NegativeWeightRejected | src/config/weight_manager.py:153-155 | a negative weight in the first type's vector makes loading fail with the negative-weight message; it is never repaired |
| WeightManager.BadFormatRejected | src/config/weight_manager.py:149-150 | a first type whose value is not a mapping makes loading fail with the bad-format message |
| WeightManager.UnusableFileFallsBack | src/config/weight_manager.py:81-103 | a missing or unreadable file, an empty document or one without weights gives the built-in defaults |
| WeightManager.LookupType | src/config/weight_manager.py:203 | the vector found is the one stored under that type |
| WeightManager.GetWeights | src/config/weight_manager.py:178-203 | a known type gives its vector; an unknown one gives the default type's vector, and fails (KeyError) when that is missing too |
| WeightManager.ApplyWeights | src/config/weight_manager.py:205-225 | each score is multiplied by its chain's weight, 0 for a chain without one, order kept |
| WeightManager.Weighted | src/config/weight_manager.py:218-221 | the chain is kept and a non-negative score times a non-negative weight is non-negative |
| WeightManager.WeightsOfAtMostTotal | src/config/weight_manager.py:219 | the weights looked up for distinct chains add up to at most the vector's total |
| WeightManager.WeightedTotalBounds | src/config/weight_manager.py:238-240 | with scores in 0..10 the final sum lies between 0 and 10 times the weights used |
| WeightManager.FinalScoreBounded | src/config/weight_manager.py:227-243 | with one score per chain in 0..10 and any non-negative vector, the final score lies between 0 and 10 times the vector's sum, which the loader lets stray from 1 by its tolerance |
| WeightManager.FinalScoreInRange | src/config/weight_manager.py:227-243 | the corollary for a vector summing to exactly 1: the final score is in 0..10 |
| Scores.Clamp | src/chain/base_evaluation_chain.py:140 | the result lies between the bounds and is the value itself when that already does |
| Scores.ToScore | src/chain/base_evaluation_chain.py:125-143 | a convertible value is clamped to 0..10; one `float()` rejects gives the fallback |
| Accessibility.PrincipleScore | src/chain/accessibility_chain.py:135-213 | each principle's score, keyword points minus any deduction, lies in 0..10 |
| Accessibility.NoHitsNoPoints | src/chain/accessibility_chain.py:137-150 | a text that hits no keyword group earns no points |
| Accessibility.AllHitsAllPoints | src/chain/accessibility_chain.py:137-150 | a text that hits every keyword group earns all of the rule's points |
| Accessibility.PointsBetween | src/chain/accessibility_chain.py:137-150 | the points earned lie between 0 and the rule's maximum |
| Accessibility.PrincipleExtremes | src/chain/accessibility_chain.py:135-213 | no keyword hit scores 0; every group hit without a deducting phrase scores 10 |
| Accessibility.ExtractAllContent | src/chain/accessibility_chain.py:215-231 | the scored text is, lower-cased, the single-space join of the contents of the video, document and presentation records that are mappings with truthy content, in that order, followed by the project's own content when that key is present; it is its own lower case |
| Accessibility.RecordContentScored | src/chain/accessibility_chain.py:220-225 | the content of every collected analysis record occurs lower-cased in the scored text |
| Accessibility.TopContentScored | src/chain/accessibility_chain.py:228-231 | the project's own content, when present, occurs lower-cased in the scored text |
| Accessibility.PlainTextContent | src/chain/accessibility_chain.py:215-231 | plain project text without analysis records is scored as itself, lower-cased |
| Accessibility.Evaluate | src/chain/accessibility_chain.py:89-92 | all four sub-scores lie in 0..10 |
| Accessibility.Total | src/chain/accessibility_chain.py:95-103 | the chain's score lies in 0..10 |
| Accessibility.TotalIsWeightedMean | src/chain/accessibility_chain.py:95-103 | with in-range sub-scores the clamp never bites: the score is the 0.3/0.3/0.25/0.15 weighted mean |
| Accessibility.TotalExtremes | src/chain/accessibility_chain.py:89-103 | a text without any keyword scores 0; one hitting every group with no deducting phrase scores 10 |
| Accessibility.TierGood | src/chain/accessibility_chain.py:245-250 | the "good" clause is chosen exactly at or above the upper threshold |
| Accessibility.ReasoningHasFourClauses | src/chain/accessibility_chain.py:238-271 | the reasoning splits at ';' into exactly the four clauses; each principle's "good" clause appears exactly when its sub-score reaches the threshold (5, 4, 5, 3) |
| Accessibility.SuggestionsCount | src/chain/accessibility_chain.py:273-314 | three pieces of advice per deficient principle, at most five kept; the single keep-it-up line when none is deficient; a weak perceivable score leads with its advice |
| Accessibility.SuggestionsDistinct | src/chain/accessibility_chain.py:273-314 | no suggestion appears twice |
| Accessibility.AdviceBlocksDistinct | src/chain/accessibility_chain.py:279-308 | the twelve pieces of advice are twelve different texts |
| Accessibility.Analyze | src/chain/accessibility_chain.py:75-133 | the analysis succeeds exactly when the availability check does |
| Accessibility.AnalyzeFields | src/chain/accessibility_chain.py:117-131 | the record's score is the weighted total; data_limitations is present exactly when some source is missing, and then joins the messages with "; " |
| Accessibility.InvokeScoreIsTotal | src/chain/accessibility_chain.py:75-133 | through `invoke` the standardised score is the weighted total itself |
| LlmScorer.FirstOpening | src/chain/cost_analysis_chain.py:181 | the match starts at the leftmost '{' that optional whitespace then the `"score"` key follows; no earlier position opens one |
| LlmScorer.SpanBounds | src/chain/cost_analysis_chain.py:181-183 | the span is found exactly when a '}' lies past the key of the leftmost opening, and runs from that opening to just past the last '}' of the text |
| LlmScorer.ScoreSpanMatches | src/chain/cost_analysis_chain.py:181-183 | the greedy DOTALL search succeeds iff some "score"-opening brace is followed, past its key, by a '}'; the match is then the text from the leftmost such opening to the last '}' |
| LlmScorer.SpanFound | src/chain/cost_analysis_chain.py:181-182 | any opening brace with a closing brace past its key is enough for the search to succeed, whatever opening is leftmost |
| LlmScorer.ScoreSpanBraces | src/chain/cost_analysis_chain.py:181-183 | a matched span begins with '{', ends with '}' and is longer than the key it contains |
| LlmScorer.Passthrough | src/chain/cost_analysis_chain.py:211-214 | each of the chain's own fields holds the reply's value for that key, or the field's default when the reply has none, in the chain's order |
| LlmScorer.SuggestionList | src/chain/cost_analysis_chain.py:218-227 | a non-empty list is kept as it is; a non-list becomes the one-element list of its text; an empty list becomes the chain's defaults; the result is never empty |
| LlmScorer.Normalize | src/chain/cost_analysis_chain.py:207-215 | the normalised record has exactly the keys score, reasoning, suggestions and the chain's own fields, in that order; anything else the model sent is dropped |
| LlmScorer.NormalizeScore | src/chain/cost_analysis_chain.py:207-246 | the normalised score is always a number on the 0-10 scale: 0.0 when the reply gives none, 5.0 when it gives something that is not a number, the reply's own score when already on the scale; reasoning defaults to the chain's text |
| LlmScorer.NormalizeSuggestions | src/chain/innovation_chain.py:202-218 | suggestions are never empty, a non-empty list from the reply is kept, and a chain with an older key reads it only when "suggestions" is absent |
| LlmScorer.NormalizeField | src/chain/cost_analysis_chain.py:207-215 | each own field of the normalised record holds the reply's value or its default, and the record carries no limitations note |
| LlmScorer.NormalizeShape | src/chain/cost_analysis_chain.py:196-229 | every normalised record has a score on the scale and a non-empty suggestion list, and no limitations note |
| LlmScorer.NormalizeIdempotent | src/chain/cost_analysis_chain.py:196-229 | normalising an already normalised record changes nothing |
| LlmScorer.Neutral | src/chain/cost_analysis_chain.py:274-280 | the aspect scores of a fallback are the given aspect names in order, each at the neutral 5.0 |
| LlmScorer.FallbackShape | src/chain/cost_analysis_chain.py:258-281 | the fallback without limitations has the neutral score 5.0, the chain's fallback suggestions, and no limitations note |
| LlmScorer.FallbackField | src/chain/cost_analysis_chain.py:258-286 | each placeholder field of the fallback reaches the record unchanged, whether or not the limitations note is added |
| LlmScorer.FallbackNeutral | src/chain/cost_analysis_chain.py:248-286 | the fallback record has the neutral score, the fallback suggestions, neutral aspect scores, and a limitations note exactly when some material is missing |
| LlmScorer.WithLimitationsShape | src/chain/cost_analysis_chain.py:283-286 | adding the note keeps the score and suggestions; the note is present iff the limitations list is non-empty, and then holds them joined with "; " |
| LlmScorer.Parse | src/chain/cost_analysis_chain.py:169-194 | the matched span is decoded, or the whole text when there is none; undecodable text gives the fallback without limitations; decoded JSON that is not an object is an error; an object is normalised |
| LlmScorer.ParsedShape | src/chain/cost_analysis_chain.py:169-194 | every successfully parsed reply has a score on the scale, suggestions, and no limitations note yet |
| LlmScorer.TagTypeKeeps | src/chain/network_effect_chain.py:175-177 | adding the project type and evaluation focus leaves the score, suggestions and limitations note alone |
| LlmScorer.TagTypeTags | src/chain/network_effect_chain.py:175-177 | a type-aware chain's result carries the project type and the focus text built from it |
| LlmScorer.RespondShape | src/chain/cost_analysis_chain.py:151-167 | whatever the model replies or however it fails, the record has a score on the scale and suggestions, and the limitations note exactly when some material is missing |
| LlmScorer.ModelFailureIsNeutral | src/chain/cost_analysis_chain.py:165-167 | a failing model call gives the neutral score and the chain's fallback suggestions |
| LlmScorer.RespondTags | src/chain/network_effect_chain.py:166-183 | a type-aware chain tags every reply that parses, even one the decoder rejected, with the project type and its focus |
| LlmScorer.ProjectValues | src/chain/cost_analysis_chain.py:140-145 | the prompt gets each of the five project fields from parsed_data, or "정보 없음" when absent |
| LlmScorer.Material | src/chain/cost_analysis_chain.py:147 | the material text in the prompt is never empty or falsy: a falsy value is replaced by the fixed notice |
| LlmScorer.LimitationsText | src/chain/cost_analysis_chain.py:132-136 | the prompt says all material was provided exactly when the limitations list is empty |
| LlmScorer.ChainProjectType | src/chain/network_effect_chain.py:123-127 | a "project_type" entry is used whatever its value; without one, the type inside a classification mapping, else "balanced" |
| LlmScorer.CriteriaSection | src/chain/network_effect_chain.py:141-151 | painkiller and vitamin (case-insensitive) select their own criteria list; any other type gets the balanced label and a text containing both lists |
| LlmScorer.Analyze | src/chain/cost_analysis_chain.py:113-167 | the analysis succeeds iff the availability check passes, a type-aware chain's project type is a string, and parsed_data is a mapping; these checks run outside the try |
| LlmScorer.AnalyzeShape | src/chain/cost_analysis_chain.py:113-167 | every successful analysis has a score on the scale and suggestions, and the limitations note exactly when material is missing |
| LlmScorer.RecordTypeGivesErrorResult | src/chain/network_effect_chain.py:123-142 | a type-aware chain given a mapping as project_type fails at `.lower()`, and invoke returns the error record with score 0.0 and status "ERROR" |
| LlmScorer.StringTypeIsUsed | src/chain/network_effect_chain.py:119-183 | given the type as a string with usable materials and a parsable reply, the chain evaluates and the record carries that type |
| CostAnalysis.ScoringValid | src/chain/cost_analysis_chain.py:207-227 | the chain's own field names are distinct, none clashes with score/reasoning/suggestions/data_limitations, and its default suggestion lists are non-empty |
| CostAnalysis.FallbackIsNeutral | src/chain/cost_analysis_chain.py:248-286 | the fallback has score 5.0, the three fixed suggestions, all five cost aspects at 5.0, and the limitations note exactly when material is missing |
| Innovation.ScoringValid | src/chain/innovation_chain.py:199-218 | the chain's own field names are distinct, clash with no reply key, and its default suggestion lists are non-empty |
| Innovation.FallbackIsNeutral | src/chain/innovation_chain.py:239-271 | the fallback has score 5.0, the fixed suggestions, neutral innovation aspects, and the limitations note exactly when material is missing |
| Innovation.LegacySuggestionsKept | src/chain/innovation_chain.py:202 | a reply that gives suggestions only under "improvement_suggestions" keeps them |
| NetworkEffect.ScoringValid | src/chain/network_effect_chain.py:227-247 | the chain's own field names are distinct, clash with no reply key, and its default suggestion lists are non-empty |
| NetworkEffect.FallbackIsNeutral | src/chain/network_effect_chain.py:268-306 | the fallback has score 5.0, the fixed suggestions, all five network aspects at 5.0, and the limitations note exactly when material is missing |
| NetworkEffect.RecordTypeGivesErrorResult | src/chain/network_effect_chain.py:123-142 | handed a classification mapping as project_type, invoke returns score 0.0 with status "ERROR" |
| NetworkEffect.StringTypeIsUsed | src/chain/network_effect_chain.py:119-183 | handed a string type with usable input and a parsable reply, the result carries that type |
| SocialImpact.ScoringValid | src/chain/social_impact_chain.py:227-247 | the chain's own field names are distinct, clash with no reply key, and its default suggestion lists are non-empty |
| SocialImpact.FallbackIsNeutral | src/chain/social_impact_chain.py:268-306 | the fallback has score 5.0, the fixed suggestions, neutral social aspects, and the limitations note exactly when material is missing |
| SocialImpact.RecordTypeGivesErrorResult | src/chain/social_impact_chain.py:123-142 | handed a classification mapping as project_type, invoke returns score 0.0 with status "ERROR" |
| SocialImpact.StringTypeIsUsed | src/chain/social_impact_chain.py:119-183 | handed a string type with usable input and a parsable reply, the result carries that type |
| Sustainability.ScoringValid | src/chain/sustainability_chain.py:215-235 | the chain's own field names are distinct, clash with no reply key, and its default suggestion lists are non-empty |
| Sustainability.FallbackIsNeutral | src/chain/sustainability_chain.py:256-294 | the fallback has score 5.0, the fixed suggestions, neutral sustainability aspects, and the limitations note exactly when material is missing |
| TechnicalFeasibility.ScoringValid | src/chain/technical_feasibility_chain.py:204-224 | the chain's own field names are distinct, clash with no reply key, and its default suggestion lists are non-empty |
| TechnicalFeasibility.FallbackIsNeutral | src/chain/technical_feasibility_chain.py:245-283 | the fallback has score 5.0, the fixed suggestions, neutral feasibility aspects, and the limitations note exactly when material is missing |
| UserEngagement.ScoringValid | src/chain/user_engagement_chain.py:215-235 | the chain's own field names are distinct, clash with no reply key, and its default suggestion lists are non-empty |
| UserEngagement.FallbackIsNeutral | src/chain/user_engagement_chain.py:256-294 | the fallback has score 5.0, the fixed suggestions, neutral engagement aspects, and the limitations note exactly when material is missing |
| BusinessValue.SelectedCriteriaLines | src/chain/business_value_chain.py:105-118 | painkiller and vitamin (case-insensitive) get exactly their own bullet lines; any other type gets both lists plus the directive run together without separators, one line fewer than the two lists |
| BusinessValue.UserPrompt | src/chain/business_value_chain.py:143-159 | the user prompt contains the upper-cased project type and the project text |
| BusinessValue.Analyze | src/chain/business_value_chain.py:38-56 | the analysis succeeds iff the project type can be extracted, and its record then carries that type |
| BusinessValue.GatewayFailureIsNeutral | src/chain/business_value_chain.py:76-93 | a failing model call still succeeds, with the error reply's neutral 5.0 and its error method, not the chain's 0.0 error record |
| BusinessValue.AnalyzeScoreInRange | src/chain/business_value_chain.py:59-93 | whatever the gateway replies, the analysed score is on the 0-10 scale |
| BusinessValue.RecordTypeGivesErrorResult | src/chain/business_value_chain.py:50 | a project_type that is a whole classification mapping (and no classification entry) makes invoke return score 0.0 with status "ERROR" |
| BusinessValue.Run | src/chain/business_value_chain.py:164-175 | the sample run's score is always on the 0-10 scale |
| BusinessValue.SampleIsBalanced | src/chain/business_value_chain.py:172-174 | the plain-string sample project is evaluated as "balanced" |
| ChainExecutor.RegistryDistinct | src/chain/chain_executor.py:34-44 | nine chains are registered, each under a distinct name |
| ChainExecutor.Specific | src/chain/chain_executor.py:484-491 | the chain-specific data holds only entries under keys the standard record does not take over |
| ChainExecutor.SpecificLookup | src/chain/chain_executor.py:484-491 | nothing is lost: a non-standard key finds in the chain-specific data exactly what it found in the chain's result |
| ChainExecutor.SuggestionsOf | src/chain/chain_executor.py:476-481 | a list is kept, a single string becomes a one-element list, and anything else becomes empty |
| ChainExecutor.Standardize | src/chain/chain_executor.py:450-493 | standardising raises exactly when the score cannot be converted to a float; otherwise the score is clamped to the scale and the other keys are kept aside |
| ChainExecutor.StandardizeKeeps | src/chain/chain_executor.py:460-491 | a missing score becomes 5.0 and a convertible one is clamped; missing reasoning gets the fixed notice; missing suggestions become empty; every non-standard key keeps its value |
| ChainExecutor.Fallback | src/chain/chain_executor.py:91-103 | the record of a chain that raised has the neutral 5.0 and carries the error text |
| ChainExecutor.Outcome | src/chain/chain_executor.py:81-103 | the record kept for any chain, run or failed, has a score on the 0-10 scale |
| ChainExecutor.FailureIsIsolated | src/chain/chain_executor.py:74-103 | a chain's record depends only on its own run; a failing chain gets score 5.0, method "error_fallback", its error and the input's project type |
| ChainExecutor.Failures | src/chain/chain_executor.py:91-92 | the error count never exceeds the number of chains run |
| ChainExecutor.ScoreOf | src/chain/chain_executor.py:141-151 | a non-mapping, a missing score and a None score all read as 5.0; any other score raises iff it is not convertible, else is clamped to the scale |
| ChainExecutor.GetScores | src/chain/chain_executor.py:129-153 | get_scores succeeds iff every entry's score can be read, and then gives one score per entry in order |
| ChainExecutor.MeanOrInRange | src/chain/chain_executor.py:539-553 | the mean of scores on the scale is on the scale |
| ChainExecutor.AverageScore | src/chain/chain_executor.py:539-553 | the average fails exactly when reading the scores fails, is on the scale, and is 5.0 with no results |
| ChainExecutor.ScoreOfRecord | src/chain/chain_executor.py:141-151 | reading back a stored record's score gives exactly the score it holds |
| ChainExecutor.AverageOfRecords | src/chain/chain_executor.py:116 | the metadata's average is the plain mean of the stored records' scores |
| ChainExecutor.FirstMax | src/chain/chain_executor.py:519 | max picks the first entry with the highest score |
| ChainExecutor.FirstMin | src/chain/chain_executor.py:520 | min picks the first entry with the lowest score |
| ChainExecutor.Summarize | src/chain/chain_executor.py:495-537 | the summary lists every chain's score; the average is the mean of the scores (5.0 with no results) and is on the scale; with no results it is the empty summary; the highest and lowest entries bound every score and, on a tie, are the first such chain in order, as `max` and `min` pick |
| ChainExecutor.CountFailures | src/chain/chain_executor.py:74-103 | counting the chains the loop marks as failed gives the same number as the chains that raise |
| ChainExecutor.RunChains | src/chain/chain_executor.py:74-103 | the callback is told before each chain in order, every chain gets its record in registration order, failures are counted, and no failure stops the loop |
| ChainExecutor.ExecuteAll | src/chain/chain_executor.py:58-127 | one record per registered chain in order; the error count is the number of failing chains and completed = total - errors; the average and summary are those of the records; the project type defaults to "balanced" |
| ChainExecutor.Insert | src/chain/chain_executor.py:368-369 | inserting into a sorted list keeps it sorted and adds exactly that element |
| ChainExecutor.SortAreas | src/chain/chain_executor.py:368-369 | sorting yields a permutation of the areas ordered by score, descending or ascending |
| ChainExecutor.SortAreasStable | src/chain/chain_executor.py:368-369 | the sort is stable, as `list.sort` is: the areas with any one score come out in the order they went in, so tied chains keep registry order |
| ChainExecutor.Pick | src/chain/chain_executor.py:355-366 | an area is picked iff it is in the list and passes the strength or weakness threshold |
| ChainExecutor.StrengthsAndWeaknesses | src/chain/chain_executor.py:339-374 | strengths are exactly the chains scoring at least 7, best first; weaknesses exactly those scoring at most 4, worst first; none is both |
| ChainExecutor.PriorityOf | src/chain/chain_executor.py:395-400 | high priority iff the score is at most 4, medium iff above 4 and at most 6, low iff above 6 |
| ChainExecutor.DispatchAppends | src/chain/chain_executor.py:394-400 | dispatching a chain's suggestions appends their tagged forms to its band's bucket and leaves the other buckets alone |
| ChainExecutor.PrioritizeIsCollected | src/chain/chain_executor.py:376-406 | the suggestion-by-suggestion loop fills each bucket exactly as the band-by-band reference definition does |
| ChainExecutor.CollectedCount | src/chain/chain_executor.py:376-406 | the three buckets together hold as many entries as there are suggestions |
| ChainExecutor.CollectedSound | src/chain/chain_executor.py:390-400 | every entry of a bucket is a tagged suggestion of a chain in that band |
| ChainExecutor.CollectedComplete | src/chain/chain_executor.py:390-400 | every suggestion of a chain in a band appears, tagged, in that band's bucket |
| ChainExecutor.PrioritizeBuckets | src/chain/chain_executor.py:376-406 | a tagged suggestion is in a bucket iff its chain's score falls in that band, and the buckets' sizes add up to the total number of suggestions |
| ChainExecutor.GradeOf | src/chain/chain_executor.py:420-436 | excellent iff at least 8, good iff 6 to below 8, fair iff 4 to below 6, poor iff below 4 |
| ChainExecutor.BandsMonotone | src/chain/chain_executor.py:395-436 | a higher score never earns a lower grade, nor a more urgent priority for its suggestions |
| ChainExecutor.Status | src/chain/chain_executor.py:223 | the status reads "완료" iff there were no errors, and otherwise names the error count |
| ChainExecutor.StatusMeansAllCompleted | src/chain/chain_executor.py:113-114 | the status reads complete iff every chain completed |
| ChainExecutor.ScoreFor | src/chain/chain_executor.py:264 | an evaluated area's score is its recorded score, and an unevaluated one gets the default |
| ChainExecutor.FocusScores | src/chain/chain_executor.py:264 | every focus score belongs to a focus area that was evaluated, with that area's score |
| ChainExecutor.FocusScoresComplete | src/chain/chain_executor.py:264 | every focus area that was evaluated appears among the focus scores |
| ChainExecutor.AnalyzeByType | src/chain/chain_executor.py:243-297 | the type analysis fails iff the project type is a list or mapping (unhashable); otherwise its focus average is on the scale and its focus scores are recorded scores of focus areas |
| ChainExecutor.BalancedAlignmentUsesAverage | src/chain/chain_executor.py:330-337 | a project that is neither painkiller nor vitamin is judged on the same average the summary reports |
| ChainExecutor.Details | src/chain/chain_executor.py:408-448 | one detail per chain, in order, graded by its score |
| ChainExecutor.ComprehensiveReport | src/chain/chain_executor.py:190-241 | the report fails iff the project type is a list or mapping; its overall score is on the scale, its status says complete iff there were no errors, and it has one detail per chain |
| AnalysisManager.FileReports | src/web/analysis_manager.py:126-175 | two progress reports per file, before and after it, at i/total and (i+1)/total percent of the file stage, none of them a milestone |
| AnalysisManager.FileResults | src/web/analysis_manager.py:121-188 | a file of a known kind has its analyser's record, or the failure record naming the exception, under that kind's key; nothing is stored under any other key |
| AnalysisManager.KnownKeys | src/web/analysis_manager.py:131-171 | the three known kinds store their records under three distinct keys |
| AnalysisManager.AnalyzeFiles | src/web/analysis_manager.py:121-188 | the file stage sends only in-stage reports, never a milestone |
| AnalysisManager.UniformStore | src/web/analysis_manager.py:131-171 | when every known analyser yields the same record, every stored analysis is that record |
| AnalysisManager.FilesAreSkipped | src/web/analysis_manager.py:134-162 | every analyser is handed an empty URI, so every stored file analysis is the skipped record, whatever the analysers' own processing does |
| AnalysisManager.AsValue | src/web/analysis_manager.py:195-199 | no classification is None; a classification is a mapping whose project_type is the classified type |
| AnalysisManager.ClassifyProject | src/web/analysis_manager.py:190-206 | a report at 50 then one at 100 or an error report; the stage fails iff the classifier raises, with "프로젝트 분류 실패: " and no default type |
| AnalysisManager.ChainInput | src/web/analysis_manager.py:215-218 | the scorers' input carries the whole classification result under "project_type" |
| AnalysisManager.ErrorRecord | src/web/analysis_manager.py:238-244 | a scorer that raised is recorded with score 0.0 and no total_score |
| AnalysisManager.ChainResults | src/web/analysis_manager.py:208-246 | one result per scorer, in order, each the scorer's own outcome on the shared input whatever the others did |
| AnalysisManager.ChainReports | src/web/analysis_manager.py:220-235 | each scorer gets a report before it runs, then an error report exactly when it raises |
| AnalysisManager.ChainEvents | src/web/analysis_manager.py:220-235 | two in-stage reports per scorer, none of them a milestone |
| AnalysisManager.OneProblemPerFailure | src/web/analysis_manager.py:233-235 | the stage sends exactly one error report per scorer that raises |
| AnalysisManager.ExtractScore | src/web/analysis_manager.py:256-264 | business value is read through total_score when present, every other mapping through score (0 when missing); a non-mapping is 0 when falsy and otherwise converted, failing when it cannot be |
| AnalysisManager.ExtractScores | src/web/analysis_manager.py:254-264 | scores are read in the results' order, and reading fails iff some result cannot be read |
| AnalysisManager.WeightedScores | src/web/analysis_manager.py:271 | each category's weighted score is its score times its weight (0 when the table has none), and fails iff some factor is not a number |
| AnalysisManager.TypeOf | src/web/analysis_manager.py:269 | the type is read iff the classification is a mapping with a project_type entry |
| AnalysisManager.WeightsFor | src/web/analysis_manager.py:270-271 | the stage continues iff the registry's weights for the type are a mapping, and then uses exactly them |
| AnalysisManager.ComputeFinal | src/web/analysis_manager.py:248-292 | the final record exists iff scores, type, weights and products can all be obtained, and then holds them with the weighted sum as final score |
| AnalysisManager.FinalScores | src/web/analysis_manager.py:248-297 | the stage's result is the computation above; a failure ends with its error report, success with the report at 100 |
| AnalysisManager.FallbackScoresDiffer | src/web/analysis_manager.py:238-244 | a scorer that raised weighs in with 0 here, whereas the executor substitutes the neutral 5 |
| AnalysisManager.TotalScorePreferred | src/web/analysis_manager.py:258-261 | business value is read through total_score, any other scorer through score even when it also has a total_score |
| AnalysisManager.WeightedSumBounded | src/web/analysis_manager.py:271-272 | with scores on the scale and non-negative weights, the final score lies between 0 and ten times the sum of the weights used |
| AnalysisManager.ChainResultsFor | src/web/analysis_manager.py:37-47 | the scorers' results are keyed by the nine registered chains in registry order |
| AnalysisManager.Later | src/web/analysis_manager.py:95-119 | from the classification on, the run's result is the final computation on the scorers' results; a None classification fails; the last call is the overall 100 on success and the error report on failure |
| AnalysisManager.RunAnalysis | src/web/analysis_manager.py:77-119 | a run starts with the reset; success ends with the overall 100 and carries the session id; failure ends with the "분석 중 오류 발생: " error report |
| AnalysisManager.MilestonesAppend | src/web/analysis_manager.py:77-119 | the milestones of two call sequences in a row are those of each, in order |
| AnalysisManager.LaterMilestones | src/web/analysis_manager.py:93-110 | after the classification come its completion and the scorers', then the final stage's and the overall 100 exactly on success |
| AnalysisManager.RunWhenClassifierFails | src/web/analysis_manager.py:90-93 | a classifier that raises ends the run after the files: the reset and the file stage's completion are its only milestones |
| AnalysisManager.RunWhenClassifierAnswers | src/web/analysis_manager.py:90-110 | a classifier that answers takes the run through all scorers, with the final milestones exactly when the run succeeds; a None answer makes the run fail |
| AnalysisManager.Replay | src/web/analysis_manager.py:82 | replaying a run's calls keeps the tracker valid, and a run that starts with the reset leaves its session in the tracker |
| AnalysisManager.ReplayEnds | src/web/analysis_manager.py:109-119 | the last call decides the session's state: the overall 100 leaves it completed at 100, an error report leaves it in error with that message last |
| AnalysisManager.RunOutcomeInTracker | src/web/analysis_manager.py:77-119 | a successful run leaves its session completed at 100 percent; a failed one leaves it in error with the run's message last |
| AnalysisManager.Notified | src/web/analysis_manager.py:111-119 | the callback is called only after a successful run; the run fails exactly when it failed already or the callback raises, and a raising callback adds the run's error report after the overall 100 |
| AnalysisManager.RaisingCallbackFailsSession | src/web/analysis_manager.py:108-119 | a callback that raises after a successful run leaves the session in error at 100 percent, with the run's error message last |
| AnalysisManager.Worker | src/web/analysis_manager.py:62-68 | the background worker reports a raised run a second time with its own prefix, and adds nothing to a successful one |
| AnalysisManager.WorkerReportsTwice | src/web/analysis_manager.py:62-68 | a run that raises ends with two error messages: the run's own, then the worker's, both naming the same exception |
| AnalysisManager.CancelAnalysis | src/web/analysis_manager.py:303-309 | cancelling always answers true and leaves the session in error with the cancellation message last; other sessions are untouched |
| AnalysisManager.CancelAsWritten | src/web/analysis_manager.py:303-309 | through the tracker's lock, cancelling blocks exactly when the tracker does not know the session, and otherwise agrees with the sequential version |
| AnalysisManager.CancelAfterCleanupBlocks | src/web/analysis_manager.py:303-309 | cancelling a session that cleanup already removed blocks through the lock, where the sequential version recreates the session in error |
| AnalysisManager.TypedChainInput | src/web/analysis_manager.py:215-218 | the intended scorers' input carries the classified type as a string and the analyses otherwise unchanged |
| AnalysisManager.RecordInputFailsScorer | src/web/analysis_manager.py:215-226 | handed the classification mapping as its type, the network-effect scorer reports 0 with status "ERROR" whatever the model answers |
| AnalysisManager.TypedInputReachesScorer | src/web/analysis_manager.py:215-226 | handed the type as a string, the same scorer evaluates and tags its record with the classified type |
| AnalysisManager.LegacyNoneFailsAtFinalStage | src/web/analysis_manager.py:92-107 | a classifier answering None lets the run pass every scorer and then fail at the final stage |
| ProgressTracker.Weight | src/web/progress_tracker.py:120-131 | every step, one of the four stages or any other, has a positive weight, so the overall percentage is a true weighted mean |
| ProgressTracker.Contribution | src/web/progress_tracker.py:134-138 | a completed step contributes 100, an in-progress one its own percentage, a pending or failed one nothing |
| ProgressTracker.OverallIsPercent | src/web/progress_tracker.py:108-143 | the overall percentage stays within 0 to 100 whenever every step's does |
| ProgressTracker.AllCompletedIsFull | src/web/progress_tracker.py:108-143 | when every step is completed the overall percentage is exactly 100, whatever the weights |
| ProgressTracker.NoneStartedIsEmpty | src/web/progress_tracker.py:108-143 | when no step is completed or in progress the overall percentage is 0 |
| ProgressTracker.DotBetween | src/web/progress_tracker.py:127-141 | non-negative weights times percentages sum to between 0 and 100 times the weights' sum |
| ProgressTracker.NewSession | src/web/progress_tracker.py:49-59 | a new session is in progress at 0 percent with no errors and the four default stages pending, in order |
| ProgressTracker.DefaultWeightsSumToOne | src/web/progress_tracker.py:120-125 | the four stages' weights add up to 1 |
| ProgressTracker.Initialize | src/web/progress_tracker.py:39-59 | initialising creates or replaces the session: in progress at overall 0, no errors, started now, and the four default stages in order, each pending at 0; every other session is left alone |
| ProgressTracker.FindStep | src/web/progress_tracker.py:69-72 | the step is found exactly when one has the name, and then at a position holding it |
| ProgressTracker.Transition | src/web/progress_tracker.py:74-82 | the step takes the new status and the clamped percentage; the start time is set only on a first move into progress, the end time only on a move to completed or error |
| ProgressTracker.StartTimeSetOnce | src/web/progress_tracker.py:75-77 | once a step has a start time, later transitions never change it |
| ProgressTracker.SetStep | src/web/progress_tracker.py:69-82 | the named step is transformed in place, or an unknown one is appended fresh and then transformed; every other step is unchanged |
| ProgressTracker.SetStepKeepsValid | src/web/progress_tracker.py:69-82 | updating a step keeps step names distinct and percentages within 0 to 100 |
| ProgressTracker.UpdateStep | src/web/progress_tracker.py:61-85 | after an update the session exists; its steps are those of the stored or freshly initialised session with `SetStep` applied, so only the named step changes and the start and end times follow `Transition`; the step has the given status and clamped percentage; the overall percentage is recomputed; the session's status, errors and times are kept; other sessions are untouched |
| ProgressTracker.UpdateStepTransition | src/web/progress_tracker.py:69-85 | updating a known step applies `Transition` to it and leaves every other step, the session's status, errors and times as they were |
| ProgressTracker.StepUpdated | src/web/progress_tracker.py:67-85 | one session after the update has the steps `SetStep` gives, the overall percentage recomputed from them, and every other field unchanged |
| ProgressTracker.StepFound | src/web/progress_tracker.py:69-72 | after the update the step is found where it was, or at the end when it was new |
| ProgressTracker.AddError | src/web/progress_tracker.py:87-95 | an error report appends one stamped message and marks the session failed, on the stored session or on a fresh one when unknown, and changes no other field of it and no other session |
| ProgressTracker.SetOverall | src/web/progress_tracker.py:97-106 | an unknown session is ignored; otherwise the clamped percentage is stored, and 100 or more completes the session with an end time |
| ProgressTracker.Remaining | src/web/progress_tracker.py:176-190 | no estimate before any progress, 0 at 100 percent, otherwise the non-negative time left if the rate so far continues |
| ProgressTracker.GetProgress | src/web/progress_tracker.py:145-174 | a report exists exactly for a known session, with its remaining-time estimate |
| ProgressTracker.AllSessions | src/web/progress_tracker.py:192-198 | the listing has one report per session, each the session's own report |
| ProgressTracker.CleanupSession | src/web/progress_tracker.py:200-206 | cleanup answers true exactly when the session existed; it is gone afterwards and nothing else changes |
| ProgressTracker.CleanupOld | src/web/progress_tracker.py:208-222 | exactly the sessions strictly older than the limit are removed, the rest kept unchanged, and the count removed plus the survivors make up the whole |
| ProgressTracker.CompletedCountFull | src/web/progress_tracker.py:230-231 | the completed count equals the number of steps iff every step is completed |
| ProgressTracker.SessionSummary | src/web/progress_tracker.py:224-242 | a summary exists exactly for a known session; it counts completed steps (all of them iff every step completed) and errors |
| ProgressTracker.UpdateStepAsWritten | src/web/progress_tracker.py:61-65 | with the non-reentrant lock, an update blocks exactly when the session is unknown, and otherwise agrees with the sequential update |
| ProgressTracker.AddErrorAsWritten | src/web/progress_tracker.py:87-91 | with the non-reentrant lock, an error report blocks exactly when the session is unknown, and otherwise agrees with the sequential version |
| ProgressTracker.AllSessionsAsWritten | src/web/progress_tracker.py:192-198 | with the non-reentrant lock, listing blocks exactly when there is a session, and otherwise gives the empty listing |
| ProgressTracker.FirstUpdateBlocks | src/web/progress_tracker.py:61-91 | on an empty tracker an update and an error report both block, while the sequential update creates the session |
| ProgressTracker.ListingBlocks | src/web/progress_tracker.py:192-198 | listing a tracker with one session blocks, while the sequential listing reports that session |
| FileHandler.MaxFileSize | src/web/file_handler.py:21-25 | documents may be 10 MB, presentations 50 MB, videos 500 MB, and any other kind 10 MB |
| FileHandler.SupportedFormats | src/web/file_handler.py:28-32 | a kind outside the three known ones supports no extension at all |
| FileHandler.MimeWarning | src/web/file_handler.py:125-147 | a warning is produced exactly for a known kind whose guessed type is not one of its expected types |
| FileHandler.ValidateFile | src/web/file_handler.py:85-123 | an upload is accepted iff it is non-empty, within the kind's limit and the lower-cased suffix of its path name is supported; size is checked first, then emptiness, then the extension, each with its own message; an accepted upload carries a warning exactly when a guessed type is unexpected |
| FileHandler.ValidateIgnoresTrailingSlash | src/web/file_handler.py:111 | a trailing '/' on the uploaded name changes no verdict, since the suffix is taken from the path name |
| FileHandler.MimeNeverRejects | src/web/file_handler.py:120-147 | the guessed type never changes acceptance, nor the message of a rejection |
| FileHandler.UnknownKindRejected | src/web/file_handler.py:98-118 | every upload of an unknown kind is rejected |
| FileHandler.SafeChars | src/web/file_handler.py:161 | the cleaned name is no longer than the original and holds only alphanumeric characters and "._-" |
| FileHandler.SafeCharsKeepsAllowed | src/web/file_handler.py:161 | a name made only of allowed characters is kept whole |
| FileHandler.SafeCharsConcat | src/web/file_handler.py:161 | cleaning is character by character: it distributes over concatenation |
| FileHandler.SafeCharsIdempotent | src/web/file_handler.py:161 | cleaning a cleaned name changes nothing |
| FileHandler.Shorten | src/web/file_handler.py:164-167 | a name of at most 100 characters is kept; a longer one becomes the first 80 characters of its path name's stem followed by that name's suffix, and holds no '/' and is not "." |
| FileHandler.StemNotEmpty | src/web/file_handler.py:165-166 | a name with a suffix has a non-empty stem and a suffix that is a dot followed by dot-free text |
| FileHandler.SafeFilename | src/web/file_handler.py:149-174 | the stored name is kind, "_", timestamp, "_", then the stem and suffix of the path name of the cleaned and shortened name; when '/' is not kept that is the shortened name itself, except that a name cleaned to "." leaves nothing after the second "_" |
| FileHandler.CleanedName | src/web/file_handler.py:170-174 | the path name of the shortened name is that name when '/' is not kept and the cleaned name is not ".", and is empty for "." |
| FileHandler.ShortenKeepsAllowed | src/web/file_handler.py:161-167 | shortening keeps only characters the cleaned name had, so the name part of a safe file name holds only allowed characters |
| S3Storage.Folder | src/uploads/s3_storage.py:191-205 | the folder is "videos", "documents" or "presentations" exactly when the lower-cased suffix is in that list, else "others", and contains no '/' |
| Text.PathNameIsLastComponent | src/uploads/s3_storage.py:191 | the name taken from a path is the last of its '/'-separated components that is neither empty nor "." (empty when there is none) |
| S3Storage.GenerateKey | src/uploads/s3_storage.py:184-207 | the key's first segment is the folder for the suffix of the path name, and its last segment is the UUID, '_' and the path name |
| S3Storage.KeySegments | src/uploads/s3_storage.py:207 | a key built from a slash-free folder and file name splits back into that folder and "uuid_name" |
| S3Storage.KeyIgnoresTrailingSlash | src/uploads/s3_storage.py:191-192 | a trailing '/' on the local path gives the same key, folder and name alike |
| S3Storage.ParseS3Url | src/uploads/s3_storage.py:78 | reading an "s3://bucket/key" URL gives a slash-free bucket and a key that rebuild the same URL |
| S3Storage.S3UrlRoundTrip | src/uploads/s3_storage.py:78 | the S3 URL built from a slash-free bucket and any key reads back as that bucket and key |
| S3Storage.ContentType | src/uploads/s3_storage.py:61-62 | the caller's content type wins; else a non-empty guess; else "application/octet-stream" |
| S3Storage.UploadFile | src/uploads/s3_storage.py:40-101 | an upload succeeds iff the file exists and the client stores it; each failure has its own message (a missing file wrapped twice); success records the given or generated key, both URLs, the bucket, content type, size and file name |
| S3Storage.GivenKeyUsed | src/uploads/s3_storage.py:57-58 | a caller's key is used as given and the UUID plays no part |
| S3Storage.StoredUrlNamesKey | src/uploads/s3_storage.py:78-87 | a stored upload's S3 URL leads back to its bucket and key |
| FileUploader.Lookup | src/uploads/file_uploader.py:274 | a table lookup returns an entry listed for the key when there is one, and the default otherwise |
| FileUploader.ExtractExtension | src/uploads/file_uploader.py:465-474 | the extension is empty exactly when the part before any '?' has no '.', and is otherwise '.' and the lower-cased text after its last '.' |
| FileUploader.ExtractExtensionOf | src/uploads/file_uploader.py:465-474 | a path followed by a dot-free extension, with or without a query string, yields that extension lower-cased |
| FileUploader.ValidateS3Uri | src/uploads/file_uploader.py:342-385 | a URI is accepted iff it is not blank and, once stripped, starts with "s3://" or "https://s3", holds a '.', and ends in a supported video extension; the report carries the stripped URI, its extension and that extension's MIME type; a blank URI gets the missing-URI message |
| FileUploader.VideoTypesListed | src/uploads/file_uploader.py:51-67 | the video extension list is exactly the key set of the video MIME table |
| FileUploader.KeysListed | src/uploads/file_uploader.py:67 | a list of a table's keys in order holds exactly the keys the table lists |
| FileUploader.FirstKind | src/uploads/file_uploader.py:233-237 | the kind found is that of the first list holding the extension, and "unknown" when none does |
| FileUploader.FirstOfFour | src/uploads/file_uploader.py:66-71 | over the four kind lists the first match is a chain of tests in video, document, presentation, image order |
| FileUploader.DetectFileType | src/uploads/file_uploader.py:229-237 | a path is a video, a document or a presentation exactly when the lower-cased suffix of its path name is in that list, and unknown exactly when it is in none |
| FileUploader.DetectIgnoresDirectories | src/uploads/file_uploader.py:231 | directories before a file name and a trailing '/' after it do not change the detected type |
| FileUploader.KindListsDisjoint | src/uploads/file_uploader.py:66-71 | no extension belongs to two of the video, document and presentation lists, and every image extension is a presentation extension |
| FileUploader.ImageNeverDetected | src/uploads/file_uploader.py:66-71 | detection never answers "image" |
| FileUploader.JpgIsPresentation | src/uploads/file_uploader.py:229-237 | a ".jpg" file is detected as a presentation |
| FileUploader.FolderMatchesDetection | src/uploads/file_uploader.py:229-237 | the store's key folder for a file always agrees with the type the uploader detects for it |
| FileUploader.SameLists | src/uploads/file_uploader.py:51-69 | the uploader's video, document and presentation lists hold the same extensions as the store's folder lists |
| FileUploader.MaxSize | src/uploads/file_uploader.py:313 | a given non-zero limit is used, and no limit or a zero one falls back to 500 MB |
| FileUploader.CheckVideoFormat | src/uploads/file_uploader.py:429-442 | the format passes exactly for a supported video extension; no extension and an unsupported one raise different errors |
| FileUploader.CheckVideoSize | src/uploads/file_uploader.py:444-458 | the size passes exactly when it is positive and within the limit; an empty file and an oversized one raise different errors |
| FileUploader.ValidateVideoFile | src/uploads/file_uploader.py:303-340 | a video passes iff it exists, has a supported extension, is non-empty and within the limit, and is readable; a missing file gets the not-found message; every failure is a video-upload error |
| FileUploader.VideoSizeBoundary | src/uploads/file_uploader.py:451 | a video exactly at the limit passes and one byte more fails with the size error |
| FileUploader.CheckFile | src/uploads/file_uploader.py:239-269 | a document or presentation passes iff it exists, has a listed extension and is within the limit, so an empty file passes; failures are plain uploader errors with the not-found and the unsupported-format messages in that order |
| FileUploader.ValidateDocument | src/uploads/file_uploader.py:239-253 | a document passes iff it exists, is a .doc, .docx, .txt or .rtf file and is at most 100 MB |
| FileUploader.ValidatePresentation | src/uploads/file_uploader.py:255-269 | a presentation passes iff it exists, has a presentation extension and is at most 200 MB |
| FileUploader.VideoContentType | src/uploads/file_uploader.py:271-274 | a listed video extension gets its table type and any other gets "video/mp4" |
| FileUploader.DocumentContentType | src/uploads/file_uploader.py:276-285 | a listed document extension gets its table type and any other gets octet-stream |
| FileUploader.PresentationContentType | src/uploads/file_uploader.py:287-300 | a listed presentation extension gets its table type and any other gets octet-stream |
| FileUploader.EntryUnique | src/uploads/file_uploader.py:51-62 | in a table with distinct keys a key has only one entry |
| FileUploader.VideoFormatsDistinct | src/uploads/file_uploader.py:51-62 | the video MIME table has no repeated extension |
| FileUploader.UriTypeMatchesUpload | src/uploads/file_uploader.py:271-380 | the MIME type reported for an accepted video URI is the one a file with that extension is uploaded with |
| FileUploader.Deposit | src/uploads/file_uploader.py:91-110 | a store failure is reported under the S3 prefix, and a stored file gives the record built from the store's answer |
| FileUploader.UploadVideo | src/uploads/file_uploader.py:73-112 | with validation on, a failing video is reported under the video prefix and nothing is stored; otherwise the file is stored with its video content type |
| FileUploader.UploadDocument | src/uploads/file_uploader.py:114-146 | a failing document is reported as an unexpected error, because the plain uploader error falls to the catch-all; otherwise it is stored with its document content type |
| FileUploader.UploadPresentation | src/uploads/file_uploader.py:148-180 | a failing presentation is reported as an unexpected error; otherwise it is stored with its presentation content type |
| FileUploader.UploadAs | src/uploads/file_uploader.py:191-200 | each detected kind runs its own upload with default video settings, an unknown kind is refused, and a success always names the kind |
| FileUploader.UploadFileAuto | src/uploads/file_uploader.py:182-203 | the automatic upload succeeds exactly when the upload for the detected type does, with that type in the record; every failure is that upload's error under the automatic-upload prefix |
| FileUploader.UnknownNeverStored | src/uploads/file_uploader.py:199-203 | a file of unknown type fails with the unsupported-type message whatever the store would have done |
| FileUploader.UnknownKindRefused | src/uploads/file_uploader.py:199-203 | any detected kind other than the three uploadable ones is refused under the automatic-upload prefix |
| FileUploader.AutoFailure | src/uploads/file_uploader.py:202-203 | the automatic upload fails with exactly the prefixed error of the upload for the detected kind |
| FileUploader.InvalidVideoNeverStored | src/uploads/file_uploader.py:85-194 | a video that fails its checks fails the automatic upload whatever the store would have done |
| NovaGateway.Extension | src/llm/nova_lite_llm.py:213 | a URI's extension is dot-free, empty when the URI has no '.', and otherwise the lower-cased text after its last '.' |
| NovaGateway.ExtensionOf | src/llm/nova_lite_llm.py:213 | a name ending in '.' and a dot-free word has that word, lower-cased, as its extension, whatever precedes it |
| NovaGateway.LiteFileType | src/llm/nova_lite_llm.py:216-224 | an extension is a document, an image or a video exactly when it is in that list, and has no kind exactly when it is in none |
| NovaGateway.DetermineFileType | src/llm/nova_lite_llm.py:199-227 | the type is found iff the extension is in one of the three lists; otherwise the unsupported-type error names the extension |
| NovaGateway.ValidateLite | src/llm/nova_lite_llm.py:110-141 | a call passes iff a user message or a URI is non-blank and any URI passed is non-blank, has an S3 scheme, holds a '.' and has a supported extension; no user text and no URI, and a blank URI, get their own messages; validation never raises a runtime error, and an unsupported type names the URI's extension |
| NovaGateway.Mapped | src/llm/nova_lite_llm.py:66-69 | a legacy argument is used only when the new one is absent |
| NovaGateway.Preamble | src/llm/nova_lite_llm.py:155-156 | a system message opens the list exactly when the system text is not blank, and then carries that text |
| NovaGateway.LiteText | src/llm/nova_lite_llm.py:75-76 | the user text is the user message when given and the default request to analyse the file otherwise |
| NovaGateway.LiteMessages | src/llm/nova_lite_llm.py:89-181 | the messages are the preamble followed by one human message: the user text alone, or with a URI the user text, a blank line and the URI |
| NovaGateway.LiteInvoke | src/llm/nova_lite_llm.py:38-108 | a refused call returns the validation error unchanged; an accepted one succeeds exactly when the model does, with its reply, and a model failure is wrapped as a runtime error under the Lite prefix |
| NovaGateway.LiteRefusalSkipsModel | src/llm/nova_lite_llm.py:72-105 | a refused call gives the same non-runtime error whatever the model would answer |
| NovaGateway.LiteLegacyIgnored | src/llm/nova_lite_llm.py:66-69 | when the new argument names are given, the legacy ones change nothing |
| NovaGateway.LiteLegacyStandsIn | src/llm/nova_lite_llm.py:66-69 | with the new names absent, the legacy arguments act exactly as the new ones would |
| NovaGateway.LiteUriOnly | src/llm/nova_lite_llm.py:72-90 | a call with only a valid URI passes validation and sends the default request about that file |
| NovaGateway.UriOnlyMessages | src/llm/nova_lite_llm.py:75-178 | with no user text, the one message asks about the file at the URI |
| NovaGateway.LiteListsDisjoint | src/llm/nova_lite_llm.py:216-220 | no extension is in two of Lite's lists, so their order decides nothing |
| NovaGateway.ProModelId | src/llm/nova_pro_llm.py:26-44 | a given model id is used; otherwise the configured one, or the default when none is configured or the configuration cannot be read |
| NovaGateway.ValidatePro | src/llm/nova_pro_llm.py:124-150 | a URI passes iff it is non-blank, has an S3 scheme, holds a '.' and has a video extension; a missing or blank URI gets the URI-required message; validation never raises a runtime error, and an unsupported type names the extension |
| NovaGateway.ProModelFor | src/llm/nova_pro_llm.py:78 | a non-empty per-call model id overrides the instance's model |
| NovaGateway.ProMessages | src/llm/nova_pro_llm.py:74-188 | the messages are the preamble, with the legacy system prompt standing in, followed by one human message holding the request text, or the default request, and the video |
| NovaGateway.ProRecord | src/llm/nova_pro_llm.py:110-115 | the result record has exactly the reply, the URI, the model id and the analysis type, in that order |
| NovaGateway.ProInvoke | src/llm/nova_pro_llm.py:46-122 | a refused call returns the validation error unchanged; otherwise the model's reply is returned in the record and its failure is wrapped as a runtime error under the Pro prefix |
| NovaGateway.ProRefusalSkipsModel | src/llm/nova_pro_llm.py:81-119 | a refused Pro call gives the same non-runtime error whatever the model would answer |
| NovaGateway.ProVideoExtendsLite | src/llm/nova_pro_llm.py:201-206 | Pro accepts every video extension Lite accepts, and exactly m4v, 3gp and ogv besides |
| NovaGateway.SchemeKept | src/llm/nova_pro_llm.py:140 | appending text to a URI keeps its S3 scheme |
| NovaGateway.UriParts | src/llm/nova_pro_llm.py:136-201 | a scheme-prefixed name, a '.' and a dot-free extension form a URI that passes the blank, scheme and dot checks and carries that extension |
| NovaGateway.DotNotBlank | src/llm/nova_pro_llm.py:136-145 | a scheme-prefixed name with '.' and anything after it passes the blank, scheme and dot checks |
| NovaGateway.OnlyProAccepts | src/llm/nova_pro_llm.py:124-150 | a well-formed URI with an extension only Pro lists is accepted by Pro and refused by Lite as unsupported |
| NovaGateway.M4vOnlyForPro | src/llm/nova_pro_llm.py:190-206 | an ".m4v" video is analysed by Pro and refused by Lite as an unsupported extension |

## Left out

- Language-model transport. `ChatBedrockConverse`, prompt templates and the fixed wording of the system and user prompts are not modelled. The model is a function argument from messages to reply text or failure. The prompt builders state only the parts that depend on the data: the criteria selected, the project text, the project type.
- The analysers that subclass the base analyser and the comprehensive analyser wrap the gateway. Only their shared skip rule is modelled, with `process` as a parameter.
- JSON decoding and regular expressions. `json.loads` is a parameter, with `None` for a decode error. Regex `findall`/`search` results are inputs: the captured numbers, cue lines and matched spans. The first-`{`-to-last-`}` span and the greedy `{"score"` span are computed in the model.
- YAML loading and the file system. Each configuration file arrives as its parsed document, or `None` when it cannot be read. File existence, size and readability are inputs, as are MD5 checksums. Temporary directories, `save_uploaded_files`, `get_file_info`, the checksum and the cleanup functions of `file_handler.py` are I/O and not modelled.
- S3 and boto3. The client's answer to an upload is an input. `delete_file`, `file_exists`, `get_file_info` and `_verify_bucket_access` are pure client calls and not modelled. The same holds for the uploader's `delete_file` and `get_file_info`, which only forward to them. `document_upload.py` is a stub.
- Clock, UUIDs and MIME guessing. `time.time()`, `datetime.now()` stamps, `uuid4()` and `mimetypes.guess_type` are parameters.
- Rounding. `round(x, 2)` on the executor's average and on the final scores, and `round(x, 3)` on execution times, are not modelled: results are exact reals. Floating-point error is not modelled either.
- `Text.Lower`: lower-cases ASCII letters only, and `Text.Strip` removes ASCII whitespace only. The texts the system compares are Korean or ASCII keywords, which have no other case.
- `Values.ToFloat`: parses decimal strings with an optional sign and point. It returns nothing for exponents, "inf" and "nan", which Python's `float` accepts.
- Exception texts. Where the source formats `str(e)` of an exception raised by Python itself, the model carries a placeholder naming the exception class and the failing operation, such as "AttributeError: 'lower'", "TypeError: unhashable type" or "KeyError". Python's own text names the value's type instead ("'dict' object has no attribute 'lower'", "unhashable type: 'dict'"), and the model's numbers do not tell an `int` from a `float`. The placeholders sit in `AnalysisManager` (the conversion error, the weighted product, the project-type lookup, the weights lookup), `BaseAnalysis.Invoke`, `BaseChain.Lacks`, `ChainUtils.ExtractProjectType` and the reply checks, `ChainExecutor.AnalyzeByType`, `Classifier.Validate` (a non-mapping reply, a non-string type, an unconvertible number), `ConfigManager`, `LlmScorer` (the `.get` and `.lower()` failures) and `WeightManager` (the comparisons, the lookups and the missing key). These texts reach the error reasoning and error fields of the chains and the executor, and the tracker's error messages. No contract depends on their wording, only on the failure. Messages the source writes itself, such as the classifier's "응답 파싱 완전 실패" and its missing-fields message, are modelled exactly.
- `Values.Show`: is exact for strings, `None` and booleans only. Other values get a placeholder text, because no contract depends on their exact rendering.
- `FileHandler.SafeChars`: takes Python's `str.isalnum`, which accepts every Unicode letter and digit, as a parameter.
- `Text.PathName`: follows POSIX `pathlib`. Backslash separators and drive letters are not modelled.
- `WeightManager.ZeroSumFallsBack`: covers type names without the characters '음' and '식'. The re-raise decision is a substring test on an error message that contains the type name, so a name holding "음수 가중치" could turn the fallback into a re-raise. `WeightManager.ValidateType` still states the zero-sum error for every name.
- WeightManager.FinalScoreInRange: covers only vectors summing to exactly 1. The loader also accepts, without rescaling, a vector whose sum is within its tolerance of 1 (0.01 by default), so with every score at 10 and a sum of 1.01 the final score is 10.1. `WeightManager.FinalScoreBounded` states the bound of 10 times the sum for every accepted vector.
- `ConfigManager.StoredWeightsReturned` and `ConfigManager.StoredPromptReturned`: cover names without '.', which would add segments to the dotted key path. `ConfigManager.GetWeights` and `ConfigManager.GetSystemPrompt` state the lookup for every name.
- Concurrency. The weight manager's file-watcher thread (`weight_manager.py` lines 249-292) and the starting of the `start_analysis` background thread are not modelled; the worker's error report is (`AnalysisManager.Worker`). The run itself is modelled sequentially. The tracker's lock appears only in the as-written members that show it blocking.
- `get_analysis_status` only forwards to the tracker's `get_progress`, which is modelled as `ProgressTracker.GetProgress`.
- `WeightManager`'s `get_weight_summary` and `get_available_project_types` are reporting helpers with no logic beyond a listing. `ConfigManager`'s `load_evaluation_criteria`, `get_llm_config` and the `get_config_manager` singleton are key-path lookups, covered by the general `ConfigManager.GetConfig`.
- `ChainExecutor`'s `get_chain_details` and `generate_text_report` are not modelled. They format text from fields whose contents are already modelled.
- The network-effect and social-impact fallbacks take a `project_type` argument and ignore it. The model's fallback has no such argument.
- Logging and `print` output are not modelled.
- The Streamlit UI, the result visualiser, the command-line runners and the tests are not part of this model.

## Findings

| source | as written | input that shows it | evidently intended | confidence | as-written member | corrected member |
|---|---|---|---|---|---|---|
| src/web/progress_tracker.py:39-198 | `update_step` and `add_error` call `initialize_progress` for an unknown session, and `get_all_sessions` calls `get_progress`, while holding the same non-reentrant `threading.Lock` that the callee acquires again | `get_all_sessions()` with one session; `update_step` or `add_error` for a session id the tracker does not know; `cancel_analysis` after `cleanup_session` | the unknown session is created and then updated, and the listing returns every session's report | not executed | ProgressTracker.UpdateStepAsWritten, ProgressTracker.AddErrorAsWritten, ProgressTracker.AllSessionsAsWritten, ProgressTracker.FirstUpdateBlocks, ProgressTracker.ListingBlocks, AnalysisManager.CancelAsWritten, AnalysisManager.CancelAfterCleanupBlocks | ProgressTracker.UpdateStep, ProgressTracker.AddError, ProgressTracker.AllSessions, AnalysisManager.CancelAnalysis |
| src/web/analysis_manager.py:215-218 | every scorer's input gets the whole classification record as `project_type` | any run whose classifier returns a record, for example type "painkiller": the network-effect, social-impact and business-value chains call `.lower()` on a mapping and fall to the error result with score 0 | the classified type string is passed, so those chains select their criteria and score normally | not executed | AnalysisManager.ChainInput, AnalysisManager.RecordInputFailsScorer, NetworkEffect.RecordTypeGivesErrorResult | AnalysisManager.TypedChainInput, AnalysisManager.TypedInputReachesScorer |
| src/classifier/project_type_classifier.py:103-105 | with `raise_on_failure` false, `classify` calls the failure handler and discards the default record it builds, returning `None` | legacy mode with a model call that fails | the balanced default record the handler builds is returned | not executed | Classifier.Classify, Classifier.LegacyDefaultIsDiscarded, AnalysisManager.LegacyNoneFailsAtFinalStage | Classifier.ClassifyReturningDefault |
