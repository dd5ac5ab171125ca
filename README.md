# Deep research backend: a verified model

This project models the core of a backend that streams the progress of a
"deep research" session to a client. The session is run by an external
research engine, and the backend records per-model performance metrics.
The model covers four parts:

- **Research stream** (`events.dfy`, `node_content.dfy`, `citations.dfy`,
  `research_stream.dfy`). The engine's updates come as a sequence of chunks.
  Each chunk lists the workflow nodes that ran and a payload for each. The
  service turns these into a typed event stream:
  - one `stage_start` event;
  - one `stage_update` per node, whose content is built from the payload;
  - finding and summary events for the research supervisor node;
  - exactly one terminal event, either completion or error.

  Every content builder is written twice: once as a specification function,
  and once as a method with the source's loops that is proved equal to it.
- **Metrics store** (`metrics.dfy`). The class `MetricsCollector` holds the
  research history and the per-model counters. Its invariant is that each
  tracked model's total duration and success count agree with its list of
  requests. The class supports storing, sorted and limited history, the
  model comparison, delete by id, and detailed per-model metrics.
- **Model registry** (`model_registry.dfy`). The static table of the three
  supported models and the lookups over it.
- **HTTP layer** (`api.dfy`):
  - validation of a stream request;
  - the server-sent-event frames of a session;
  - the single metrics store made when a session completes;
  - the 404 rule of the delete endpoint.

Shared pieces are `wrappers.dfy` (an `Option` type) and `strings.dfy`. The
latter holds the Python `str` operations the service uses: `strip`, `title`,
slicing, the "truncate and add `...`" idiom, `str(int)` and `join`.

The wider system description also mentions a parallel multi-model comparison
runner and per-stage timing. Neither appears in the code, so the model follows
the code and has neither.

## Model

| member | source | states |
|---|---|---|
| Strings.StripShape | main.py:102-106 | `strip()` returns a middle slice of the string, with only whitespace cut from either end and none left at its ends |
| Strings.StripEmptyIffAllSpace | main.py:102-106 | a stripped string is empty exactly when every character is whitespace |
| Strings.StripBounds | main.py:102-106 | `strip()` removes a whitespace-only prefix and a whitespace-only suffix, and the result is the slice between them |
| Strings.Preview | services/deep_research_service.py:299 | the preview idiom: a string within the bound is unchanged; a longer one keeps its first `bound` characters followed by `...` |
| Strings.Title | services/deep_research_service.py:353 | `str.title()`: a character is lower-cased after a cased character and upper-cased otherwise; the length is kept |
| ModelRegistry.Lookup | services/model_service.py:97 | dictionary `get`: finds a value exactly when the key is present, and the value is the one stored under that key |
| ModelRegistry.InitializeModels | services/model_service.py:21-68 | the registry holds exactly openai, anthropic and kimi, in that order, and each model's id is its key |
| ModelRegistry.GetAvailableModels | services/model_service.py:70-82 | lists the three models in insertion order, each with id, name and provider; the count equals the list length (3); gives the three provider names |
| ModelRegistry.ValidateModel | services/model_service.py:99-109 | true exactly for openai, anthropic and kimi |
| ModelRegistry.GetModelConfig | services/model_service.py:87-97 | finds a model exactly when `validate_model` holds, and the model's id equals the key |
| ModelRegistry.AvailableIdsAreValid | services/model_service.py:78-80 | the ids in the available-models list are exactly the ids `validate_model` accepts |
| ModelRegistry.GetModelProviderMapping | services/model_service.py:111-127 | its keys are exactly the registered ids, and every engine model name is non-empty |
| ModelRegistry.GetApiKeyEnvVar | services/model_service.py:129-144 | gives a variable exactly for a registered id; kimi shares `ANTHROPIC_API_KEY` |
| Citations.StripMatches | services/deep_research_service.py:473 | the per-pattern comprehension loop equals the strip-and-keep-longer-than-3 specification |
| Citations.CiteMatch | services/deep_research_service.py:473 | the per-match step of the comprehension computes one match's share of the kept citations, which `CitedElements` and `CitedTrimmed` characterise |
| Citations.CitedElements | services/deep_research_service.py:473 | a citation is kept exactly when it is the stripped form of some match and longer than 3 characters |
| Citations.CitedTrimmed | services/deep_research_service.py:473 | every kept citation is longer than 3 characters and has no whitespace at either end |
| Citations.CollectCandidates | services/deep_research_service.py:456-473 | the `extend` loop gives the URLs followed by every pattern's kept citations, pattern by pattern |
| Citations.DedupeElements | services/deep_research_service.py:476 | de-duplication keeps exactly the elements of its input and repeats none |
| Citations.LongerThan3Elements | services/deep_research_service.py:477 | the filter keeps exactly the elements longer than three characters |
| Citations.KeepLongerThan3 | services/deep_research_service.py:477 | the filtering loop equals the filter specification |
| Citations.SourcesShape | services/deep_research_service.py:476-477 | at most 5 sources, each longer than 3 characters and among the candidates, none repeated; with fewer than 5, every candidate longer than 3 is present |
| Citations.ExtractSourcesFromText | services/deep_research_service.py:442-477 | the method's result is the sources of the scanned text (the post-processing above) |
| NodeContent.AttributeEntry | services/deep_research_service.py:395-403 | at most one entry, taken from the first usable attribute in the order content, response, output, result, text; no entry when none is usable |
| NodeContent.FirstAttributeEntry | services/deep_research_service.py:395-403 | the attribute loop with `break` computes the attribute-entry specification |
| NodeContent.MessageEntriesSound | services/deep_research_service.py:383-392 | every message entry comes from a message whose content is over 20 characters and does not start with `Human:`, previewed to 500 |
| NodeContent.CollectMessageEntries | services/deep_research_service.py:383-392 | the message loop computes the message-entry specification, one previewed entry per qualifying message, in order |
| NodeContent.AiMessagesShape | services/deep_research_service.py:379-405 | at most 5 entries, each at most 503 characters; each is a message entry or the single attribute entry |
| NodeContent.ExtractAiMessages | services/deep_research_service.py:369-405 | the two loops, with the `break`, compute the AI-messages specification |
| NodeContent.LastLongMessage | services/deep_research_service.py:423-428 | the reversed scan finds the last message with over 50 characters of text, and none when no message qualifies |
| NodeContent.ScanLastLongMessage | services/deep_research_service.py:425-428 | the reversed loop with early return finds the last long message of the specification |
| NodeContent.TextContentEmptyIff | services/deep_research_service.py:421-436 | the fallback text is empty exactly when no message has over 50 characters of text and there is no object dump over 100 characters; it is at most 303 characters |
| NodeContent.ExtractTextContent | services/deep_research_service.py:411-436 | the reversed loop with early return computes the fallback-text specification |
| NodeContent.FieldSection | services/deep_research_service.py:298-300 | a field is appended only when present and non-empty: the tag, then the field cut to its bound plus `...`, unchanged when within the bound |
| NodeContent.FirstLongMessage | services/deep_research_service.py:356-361 | finds the first message with over 50 characters of text, and none when no message qualifies |
| NodeContent.AppendNumbered | services/deep_research_service.py:279-280 | the enumerate loop appends one line per item, numbered from 1 |
| NodeContent.AppendMessages | services/deep_research_service.py:277-280 | with AI messages, the heading and then the first `shown` of them; without, nothing |
| NodeContent.AppendFindings | services/deep_research_service.py:316-324 | the findings loop appends one line per note over 20 characters, with up to two sources |
| NodeContent.FindingText | services/deep_research_service.py:317-324 | the body of the findings loop computes one note's finding line, whose shape `FindingLineShape` states |
| NodeContent.FindingLineShape | services/deep_research_service.py:317-324 | a finding line is empty exactly for a note of 20 characters or fewer; otherwise it is `Finding {k}: ` and the note previewed to 150 characters (at most 153 in all), followed by `Sources: ` and the first one or two sources exactly when the note has sources |
| NodeContent.AppendFirstLongMessage | services/deep_research_service.py:357-361 | the loop with `break` appends exactly the first long message, previewed to 200 characters |
| NodeContent.AppendFallback | services/deep_research_service.py:303-306 | the fallback text is appended only when there are no AI messages and the text is non-empty |
| NodeContent.AppendField | services/deep_research_service.py:342-344 | the conditional append of an optional field equals its field section |
| NodeContent.AppendGeneral | services/deep_research_service.py:356-361 | the general-message step runs only for single-line content and a non-empty message list |
| NodeContent.ClarifyNodeContent | services/deep_research_service.py:272-285 | the clarification node's content: its header, up to 3 numbered messages, or else the AI-decision fallback |
| NodeContent.BriefNodeContent | services/deep_research_service.py:287-306 | the brief node's content: its header, up to 2 numbered messages, the brief cut to 300, and the strategy fallback |
| NodeContent.SupervisorNodeContent | services/deep_research_service.py:308-329 | the supervisor node's content: its header, the findings count and the first 3 findings, and the summary cut to 200 |
| NodeContent.ReportNodeContent | services/deep_research_service.py:331-350 | the report node's content: its header, up to 2 numbered messages, the report cut to 400, and the final-report fallback |
| NodeContent.KindNodeContent | services/deep_research_service.py:272-353 | the `if`/`elif` chain on the node name computes the kind-specific content of the specification |
| NodeContent.GenericNodeHeader | services/deep_research_service.py:353 | the generic header: `Step {n}: Processing` and the title-cased name with underscores as spaces |
| NodeContent.GenerateNodeContent | services/deep_research_service.py:251-363 | the method computes the generated-content specification for every node name |
| NodeContent.HeaderIsPrefix | services/deep_research_service.py:272-353 | every node's content starts with its kind-specific `Step {n}` header |
| NodeContent.GenericHeaderSingleLine | services/deep_research_service.py:353 | the generic header of a name without a line break is a single line |
| NodeContent.UnknownNodeContent | services/deep_research_service.py:352-361 | an unknown node's content is `Processing` plus its title-cased spaced name, plus the first long message previewed to 200 characters when there is one |
| NodeContent.EmptyPayloadGivesHeader | services/deep_research_service.py:263-363 | a payload with no attributes gives exactly the header, for every node name |
| ResearchStream.StageOf | services/deep_research_service.py:213-220 | maps the four known nodes to their stages (iff), and every other name to research execution |
| ResearchStream.ConfigKeyName | services/deep_research_service.py:153-159 | a configuration key name exists exactly for the registered models |
| ResearchStream.CreateResearchConfig | services/deep_research_service.py:147-184 | the same mapped model, or `gpt-4` for an unmapped one, in all four roles; the fixed limits and flags; one API key entry exactly for a registered model, holding the key; `model_type` is the model |
| ResearchStream.ProcessWorkflowNode | services/deep_research_service.py:211-237 | the node's `stage_update` event: its stage, generated content and node metadata |
| ResearchStream.ProcessResearchSupervisorData | services/deep_research_service.py:499-531 | the loop computes the supervisor extras: the findings, then the optional summary |
| ResearchStream.NoteFindings | services/deep_research_service.py:502-516 | the notes loop emits exactly the finding events of the specification |
| ResearchStream.FindingEventsSound | services/deep_research_service.py:502-516 | every finding event belongs to a note over 50 characters, with that note's 1-based position in all notes; the positions strictly increase |
| ResearchStream.FindingEventsComplete | services/deep_research_service.py:502-516 | every note over 50 characters has its finding event |
| ResearchStream.SupervisorEventsExtra | services/deep_research_service.py:501-531 | all supervisor extras are findings or summaries at research execution, tagged with the session |
| ResearchStream.NodeEventsBody | services/deep_research_service.py:98-111 | a node's events are its `stage_update` first, then only extras |
| ResearchStream.ProcessNode | services/deep_research_service.py:98-111 | one node: its events (update, then the supervisor extras when it is a supervisor node with data) and its stage |
| ResearchStream.ProcessChunk | services/deep_research_service.py:97-111 | the inner loop emits each node's events in order and leaves `current_stage` at the last node's stage |
| ResearchStream.StreamRun | services/deep_research_service.py:63-134 | the chunk loop with its counters computes the stream specification of an engine run |
| ResearchStream.StreamResearch | services/deep_research_service.py:44-134 | the service's stream is the run events of the engine, started with the configuration built from the model and the key |
| ResearchStream.BodyEventsBody | services/deep_research_service.py:86-111 | every event between the start and the end is an update, finding or summary tagged with the session |
| ResearchStream.StreamShape | services/deep_research_service.py:63-134 | exactly one terminal event, and it comes last; a setup error gives that error alone; otherwise the start comes first, then completion with the number of chunks, or the error with its message and the current stage |
| ResearchStream.ExtrasKeepStage | services/deep_research_service.py:103-111 | finding and summary events do not move the current stage |
| ResearchStream.BodyEventsStage | services/deep_research_service.py:86-111 | after the chunks, the stage of the last update is that of the last node, or initialization when there was none |
| ResearchStream.ErrorStageIsLastUpdate | services/deep_research_service.py:103-128 | a mid-stream error carries the stage of the last `stage_update` before it, or initialization |
| ResearchStream.UpdatesFollowNodes | services/deep_research_service.py:88-104 | the `stage_update` events are one per reported node, in order, each numbered with its chunk's position |
| ResearchStream.NumberedNodesAreNodes | services/deep_research_service.py:88-93 | those numbers name the nodes of the chunks and range from 1 to the number of chunks |
| Metrics.Durations | utils/metrics.py:233 | one duration per request, in order |
| Metrics.RecordKeepsConsistent | utils/metrics.py:71-79 | recording a request keeps the total duration and success count in agreement with the request list |
| Metrics.SuccessfulBound | utils/metrics.py:234 | the successful requests are exactly the requests that succeeded, and no more than all of them |
| Metrics.LatestTimestampIsMax | utils/metrics.py:151 | the latest timestamp is that of some request and no request is later; there is none exactly when there are no requests |
| Metrics.RecentRequests | utils/metrics.py:245 | the last five requests, or all of them when there are fewer |
| Metrics.SumBounds | utils/metrics.py:241-244 | the total duration lies between count times the least and count times the greatest duration |
| Metrics.MeanBetween | utils/metrics.py:241-243 | the mean duration lies between the least and the greatest |
| Metrics.RateBounds | utils/metrics.py:148 | a success rate from counts with successes no more than requests lies from 0 to 100 |
| Metrics.SortNewestFirstCorrect | utils/metrics.py:98-102 | the sorted history is newest first and a permutation of the history |
| Metrics.SortNewestFirstOrdered | utils/metrics.py:98-102 | the sorted history is ordered by timestamp, newest first |
| Metrics.SortNewestFirstPermutes | utils/metrics.py:98-102 | the sorted history holds the same records, with the same multiplicities |
| Metrics.PyPrefix | utils/metrics.py:106 | Python `[:limit]`: a prefix of length `limit` capped at the length; a negative limit drops that many from the end |
| Metrics.Items | utils/metrics.py:105-115 | one history item per record, in order |
| Metrics.HistoryOfShape | utils/metrics.py:98-121 | at most `limit` items (for a non-negative limit), newest first, each one of the stored records with summary `Research using {model}`; the count is the whole history's |
| Metrics.MetricsOfShape | utils/metrics.py:143-155 | a model's line: no requests gives 0, 0 and no last use; otherwise the mean duration, a rate from 0 to 100, and the latest request timestamp |
| Metrics.EntriesShape | utils/metrics.py:138-163 | one comparison line per tracked model, in order |
| Metrics.WithoutIdElements | utils/metrics.py:191-197 | the kept records are exactly those of another id; the history shrinks exactly when it held that id |
| Metrics.WithoutIdConcat | utils/metrics.py:192-195 | deletion keeps the other records in their order |
| Metrics.NoIdUnchanged | utils/metrics.py:192-195 | deleting an id the history does not hold changes nothing |
| Metrics.DeleteTwice | utils/metrics.py:189-202 | after a deletion no record has the id, so a second deletion removes nothing |
| Metrics.DetailedCases | utils/metrics.py:219-230 | an unknown model gives the error `Model {model} not found`; a known model without requests reports none |
| Metrics.DetailedShape | utils/metrics.py:232-246 | with requests: least ≤ mean ≤ greatest, rate from 0 to 100, total equal to the stored total, successful count equal to the stored counter, and recent requests the last five or fewer |
| Metrics.TrackedKeys | utils/metrics.py:29-33 | the collector invariant puts openai, anthropic and kimi in the counters |
| Metrics.UpdateKeepsTracked | utils/metrics.py:71-79 | replacing a tracked model's counters with consistent ones keeps the invariant |
| Metrics.MetricsCollector.constructor | utils/metrics.py:26-33 | an empty history and empty counters for the three models; the invariant holds |
| Metrics.MetricsCollector.StoreResearchMetrics | utils/metrics.py:35-84 | appends exactly one record and keeps the earlier ones; a tracked model gets one more request, its total grows by the duration, and its success count grows iff success; an untracked model changes only the history |
| Metrics.MetricsCollector.GetResearchHistory | utils/metrics.py:86-121 | the history page of the stored records for `limit`; newest first; the count is the full history length |
| Metrics.MetricsCollector.GetModelComparison | utils/metrics.py:127-169 | one line per tracked model, in order; the total requests are the sum of the per-model counts |
| Metrics.MetricsCollector.CompareModels | utils/metrics.py:138-163 | the loop over the counters yields each tracked model's line and the running total of requests |
| Metrics.MetricsCollector.ModelLine | utils/metrics.py:143-163 | one model's line, with the division guarded for a model without requests |
| Metrics.MetricsCollector.DeleteResearch | utils/metrics.py:179-202 | removes exactly the records of the id and keeps the others in order; true iff a record had the id; no record keeps it; the counters are untouched |
| Metrics.MetricsCollector.GetDetailedMetrics | utils/metrics.py:208-246 | the loop over the requests computes the detailed metrics of the model |
| Api.PyListRepr | main.py:113 | Python's list repr is bracketed |
| Api.ValidationError | main.py:101-114 | every error the checks raise has status 400 |
| Api.ThreeIdsRepr | main.py:113 | the three ids print as `['openai', 'anthropic', 'kimi']` |
| Api.UnsupportedModelDetailText | main.py:111-114 | the unsupported-model detail names the model and lists the three ids |
| Api.ValidationPassesIff | main.py:102-114 | a request passes exactly when its query and key each contain a non-whitespace character and its model is one of the three |
| Api.ValidationFirstFailure | main.py:102-114 | the checks run in the order query, key, model, and the first that fails gives its detail |
| Api.AsWrittenRejection | main.py:177-179 | as written, a request fails exactly when a check fails, but always with status 500 |
| Api.BadRequestText | main.py:179 | `str()` of a 400 error is `400: ` followed by its detail |
| Api.AsWrittenBlankQueryIs500 | main.py:177-179 | a blank query gets 400 from its check but reaches the client as 500 with detail `400: Research query cannot be empty` |
| Api.ResearchIdAt | main.py:118 | the session id is `research_` followed by the clock's seconds |
| Api.Frame | main.py:123 | every frame starts with `data: ` and ends with a blank line |
| Api.Frames | main.py:123-164 | one frame per payload, in order |
| Api.EventFrames | main.py:126-132 | the relay loop frames each relayed service event, in order |
| Api.SentBefore | main.py:126-132 | the events relayed before a fault are a prefix of the service's events |
| Api.SessionShape | main.py:121-164 | the first frame is the session start; then the service events in order; then exactly one end frame: completion without a fault (all events relayed), or the fault's error frame |
| Api.SessionFrames | main.py:123-146 | the relay loop frames the start, each event and the last payload |
| Api.RelaySession | main.py:121-164 | the session's frames; without a fault, exactly one record stored with success and no error; with a fault, the collector is unchanged |
| Api.GenerateResearchStream | main.py:117-164 | the frames of the service's stream for this id and duration; metrics stored once iff no fault |
| Api.StreamResearchEndpoint | main.py:100-175 | a rejected request gets its 400 error, with nothing streamed or stored; an accepted one streams its session frames, and without a fault stores exactly one completed record and adds that request to its model's counters; with a fault the history and the counters are unchanged |
| Api.DeleteResearchEndpoint | main.py:196-202 | 404 `Research not found` exactly when the history held no record of the id; otherwise the success message; the records of the id are gone |

## Left out

- Timestamps are natural numbers ordered like the ISO strings the source stores. The clock (`time.time()`, `datetime.utcnow()`) is replaced by parameters. The `timestamp` and `generated_at` fields of events, frames, pages and comparisons are omitted.
- Durations are `real`. Float arithmetic and the `round(..., 2)` of the comparison are not modelled.
- The research engine (`deep_researcher.astream`) and its LangGraph and LangChain types are not modelled. A run is given as its chunks plus an optional setup error or mid-stream failure message. An engine failure inside a chunk is modelled as a failure after the chunks already listed.
- The payload objects are not modelled as such. Every attribute probed with `hasattr` is an `Option` field; `str(node_data.__dict__)` is an opaque string; a string attribute's truth value is "non-empty".
- The regular expressions of `_extract_sources_from_text` are not modelled; a scanner parameter gives the raw matches. `list(set(...))` has no fixed order, so it is modelled as first-occurrence order.
- Citations.SourcesShape: does not state the order of the sources, because Python's set order is unspecified.
- Metrics.HistoryOfShape: does not state that records with equal timestamps keep their stored order. `SortNewestFirst` is stable, but the stability is not proved.
- ModelRegistry.GetModelProviderMapping: the contract states the keys and that each name is non-empty, not the three engine model names.
- `json.dumps` is a parameter (`Encoder`). An exception inside the session generator is a `Fault` given as a parameter: an index into the service events and a message.
- The source's `except` branches that turn an internal error into a fallback are not modelled, because with typed payloads their bodies cannot raise. These are `_process_workflow_node` (services/deep_research_service.py:239-249), `_generate_node_content` (365-367), `_extract_ai_messages`, `_extract_text_content` and `_extract_sources_from_text`, `_process_research_supervisor_data` (533-535), and the handlers of `utils/metrics.py`.
- Python's `str.title()` is modelled for ASCII letters only.
- Logging, FastAPI routing, CORS headers, `StreamingResponse` and async scheduling are not modelled; every `async` body is sequential code. services/supabase_service.py is not part of this model.
- The configuration passes Kimi's key as `KIMI_API_KEY` (services/deep_research_service.py:158-159). `get_api_key_env_var` maps Kimi to `ANTHROPIC_API_KEY`. Both are modelled as written.

## Findings

| source | as written | input that shows it | evidently intended | confidence | as-written member | corrected member |
|---|---|---|---|---|---|---|
| main.py:177-179 | the endpoint's own `except Exception` also catches the `HTTPException(400)` raised by its checks at lines 102-114. It re-raises that as status 500, with detail `400: <detail>` (Starlette's `str()` of the exception) | query `"   "`, model `openai`, key `test-key` | the 400 and its detail reach the client unchanged, as tests/test_api.py:86-108 expect | not executed | Api.AsWrittenBlankQueryIs500 | Api.StreamResearchEndpoint |
