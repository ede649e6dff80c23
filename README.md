# Deep Research Agent backend: a verified model

This project models the control and data logic of the Python backend of the Deep Research Agent. That backend answers a question by running a research loop:

1. An LLM proposes search queries (`generate_queries_node`).
2. The graph fans them out to parallel web-search tasks (`web_search_node`).
3. The results are merged into a shared `OverallState` through list-append reducers and then aggregated (`aggregate_search_results`).
4. A reflection step is meant to decide whether the research is sufficient (`reflection_node`). If it is not, the loop goes round again with follow-up queries, up to `max_research_loops` rounds. As written, the reflection prompt cannot be built, so every reflection records an error and declares the research sufficient (see "## Findings").
5. An answer step writes the final answer with de-duplicated citations (`answer_generation_node`).

Several pieces sit around this loop:
- the HTTP layer turns the graph's events into numbered Server-Sent-Event frames;
- `StreamingWriter` builds timeline-update envelopes and records progress per phase;
- the citation helpers number, insert and display citations;
- the prompt formatters lay out results for the LLM.

The model follows the source file by file. Each file becomes one module:

| module | source file |
|---|---|
| `State` | `state.py` |
| `Nodes` | `nodes.py` |
| `Workflow` | `workflow.py` |
| `Api` | `api.py` |
| `Streaming` | `streaming.py` |
| `SearchUtils` | `search_utils.py` |
| `Prompts` | `prompts.py` |
| `Config` | `config.py` |

The helper modules `Wrappers`, `Seqs`, `Text` and `Json` provide the Python built-ins the code relies on:
- `Option`;
- order-preserving de-duplication;
- `strip`, `split`, `join` and `find`;
- decimal rendering;
- a JSON value with `dict.get`;
- `repr` of a string.

How the code is modelled:
- Pure code (node update dictionaries, routing, the decision rule, formatters) becomes functions.
- Code that loops and appends becomes methods proved equal to a specification function. This covers aggregation, citation collection and de-duplication, URL resolution, marker insertion, routing, message cleaning, the event stream and the frame generator.
- `StreamingWriter` is a class whose `send_update` changes its `phaseHistory` field in place.

The LLM and search calls are inputs. A `Reply` is either the text the model returned or the message of the exception it raised. JSON decoding is a function parameter.

A node's result is an `Update`: its `Option` fields are the keys the node returns. `State.Apply` merges an `Update` into an `OverallState`. The five fields marked `Annotated[..., add]` are concatenated; every other field is replaced when present.

The research loop is modelled as a recursive function (`Workflow.RunFrom`) over an arbitrary supply of replies, one per round. Its decreasing measure proves that the loop ends. The loop takes the reflection prompt template as a parameter. With `Prompts.ReflectionUserTemplate` it is the code as written. With `Prompts.ReflectionUserTemplateFixed`, whose JSON example has its braces doubled, it is the corrected code, and the reply-driven properties hold there.

## Model

| member | source | states |
|---|---|---|
| State.Apply | backend/state.py:23-42 | merging a node's update appends its list to each of the five reducer fields (`search_results`, `sources_gathered`, `citations`, `errors`, `warnings`), never shrinking them; every other field takes the returned value when the node returned one and is unchanged otherwise |
| State.ApplyAllGrows | backend/state.py:29-42 | after any sequence of updates, every reducer field still starts with its old contents |
| State.ApplyAllKeepsScalars | backend/state.py:23-42 | updates that return only reducer fields (the parallel search tasks) leave every non-reducer field unchanged |
| State.ApplyAllAppends | backend/state.py:29-42 | merging a sequence of updates extends each reducer field by the concatenation of what the updates returned, in order |
| State.FanOutOrderIrrelevant | backend/state.py:29-42 | merging the same parallel search updates in any order gives the same state, up to the order of the elements of the reducer fields |
| Config.ResearchAgentConfig.Validate | backend/config.py:35-46 | in demo mode the configuration is valid whatever the key; otherwise it is valid exactly when the API key has a non-whitespace character, and an empty or blank key is invalid |
| Config.DemoModeFromEnv | backend/config.py:11 | demo mode is on when `DEMO_MODE` is unset, and off when it is "false" |
| Config.Defaults | backend/config.py:7-33 | the default configuration has 3 initial queries, 2 research loops, 10 sources per query, 5 minimum sources, a 30-second timeout and 5 parallel searches, with `o4-mini` for reflection and answers and `gpt-4o-search-preview` for web search |
| Nodes.QuestionOf | backend/nodes.py:50-52 | the question is `original_question` when non-empty; with no question and no messages it is "" |
| Nodes.JsonCandidate | backend/nodes.py:68-72 | the candidate JSON text is a slice of the reply. It runs from the first `{` to the last `}` when both exist and the first comes before the last; otherwise it is the whole reply |
| Nodes.StringValues | backend/nodes.py:97-101 | the fallback queries become a JSON list whose string items are exactly those queries |
| Nodes.FirstQueryList | backend/nodes.py:78-83 | the result is the first value in the reply object that is a non-empty list of strings, and no earlier value is one; it is None exactly when no value is one |
| Nodes.QueriesValue | backend/nodes.py:76-85 | the `queries` key wins when present; otherwise the value is a non-empty string list (the first such value in the object, or the fallbacks) |
| Nodes.Truncate | backend/nodes.py:104 | the query list has at most `initial_queries_count` entries, and for a string list it is that list's prefix of that length |
| Nodes.GenerateQueries | backend/nodes.py:44-122 | query generation sets `query_list`, `original_question` and `rationale`, appends nothing but at most one error, and leaves the loop fields alone. On success the list has at most `initial_queries_count` queries and the phase is `search_web`. On an exception the list is `[question]`, with the fallback rationale and the error "Query generation failed: …" |
| Nodes.GenerateQueriesFallback | backend/nodes.py:97-101 | a reply that does not decode to an object yields the truncated "<q> research", "<q> analysis", "<q> facts" with rationale "Generated basic research queries" |
| Nodes.GenerateQueriesFromKey | backend/nodes.py:76-77 | when the decoded object has a `queries` list of strings, the query list is its truncated prefix |
| Nodes.GenerateQueriesFromFirstList | backend/nodes.py:78-85 | without a `queries` key, the query list is the truncated first non-empty string list in the object, or the truncated fallbacks when there is none |
| Nodes.SearchQuery | backend/nodes.py:140-175 | a search task's query is always truthy. It is the value of the first key present among `query`, `current_query` and `original_question`, taken even when empty, if that value is truthy. Otherwise it is the first message's text when there is a non-empty one, and otherwise "General research query" |
| Nodes.EmptyQueryKeyShadows | backend/nodes.py:140-175 | an empty `query` shadows the other keys: the search then uses the first message's text, or "General research query" when there are no messages |
| Nodes.WebSearch | backend/nodes.py:124-244 | a search task returns exactly one result record for its query and task id, and returns only reducer fields. On success: relevance high, summary the reply, sources the URLs found in the reply (also appended to `sources_gathered`), no error. On failure: relevance zero, no sources, exactly one error "Web search failed: …" |
| Nodes.FailureCount | backend/nodes.py:225-244 | the number of failed searches: none exactly when every search replied, all exactly when every search raised, never more than the number of tasks |
| Nodes.FailureCountAppend | backend/nodes.py:225-244 | the failures of two batches of searches add up |
| Nodes.SearchUpdatesCounts | backend/nodes.py:207-244 | the fan-out contributes one result per task and one error per failed task |
| Nodes.SearchFanOut | backend/nodes.py:207-244 | merging the fan-out into a state keeps every non-reducer field, adds one search result per task and one error per failure, and leaves citations and warnings alone |
| Nodes.AsUrls | backend/nodes.py:265-270 | the union of sources is stored as one string entry per URL, in order |
| Nodes.DedupSnoc | backend/nodes.py:265-270 | adding a URL to the union changes it only when the URL was not seen yet, and then appends it |
| Nodes.FlattenResults | backend/nodes.py:257-262 | the flattening loop computes the flattened results: dict results kept, list results spliced in, everything else dropped |
| Nodes.AddUnseen | backend/nodes.py:265-270 | adding one entry's URLs through the `seen` set keeps the union equal to the first-occurrence de-duplication of all URLs so far, and `seen` equal to its members |
| Nodes.UnionSources | backend/nodes.py:265-270 | the source loop yields the duplicate-free union of all string and list entries, in first-occurrence order |
| Nodes.Aggregate | backend/nodes.py:246-288 | aggregation returns the flattened results, the deduplicated sources, the query counter increased by the number of flattened results, and the phase `reflection` |
| Nodes.FlattenAppend | backend/nodes.py:257-262 | flattening distributes over concatenation |
| Nodes.FlattenSingles | backend/nodes.py:257-262 | a list holding only dict results is its own flattening |
| Nodes.SourceStringsMembers | backend/nodes.py:265-270 | a URL is among the gathered source strings exactly when some entry holds it |
| Nodes.AggregatedSources | backend/nodes.py:265-279 | the returned sources hold no duplicates, and a URL is among them exactly when some gathered entry holds it |
| Nodes.AggregateMergeRepeats | backend/nodes.py:276-281 | under the append reducers, aggregation doubles the merged `search_results` (old followed by flattened). It appends the deduplicated union to `sources_gathered` rather than replacing it, increases `total_queries_run` by the number of results, and moves to `reflection` |
| Nodes.AggregateReplacingOnce | backend/nodes.py:246-281 | with replacement, a state of result dicts keeps each result once and counts it once, its sources become duplicate-free with none lost, and a second aggregation changes neither list |
| Nodes.ReflectionCandidate | backend/nodes.py:314-322 | the reflection text to decode is the brace-delimited slice of the reply when it has braces, and the stripped reply wrapped in braces otherwise |
| Nodes.ParseReflection | backend/nodes.py:314-334 | a reply that does not decode to an object means sufficient, with no gap and no follow-ups. Otherwise `is_sufficient` defaults to true, `knowledge_gaps` is preferred over `knowledge_gap`, and `follow_up_queries` is kept as given, whatever its type, defaulting to [] |
| Nodes.Reflection | backend/nodes.py:311-351 | what reflection does once its prompt is built, which only the corrected template reaches. It adds exactly 1 to `research_loop_count` on every path. The phase is `generating_answer` exactly when the result is sufficient. At most one error is appended, and on an exception the result is sufficient with no follow-ups. On success the parsed follow-up value is stored unchanged; a value `len()` rejects is stored only when the result is sufficient or the loop budget is used up, because otherwise `should_continue` raises |
| Nodes.ReflectionParseFailureIsSufficient | backend/nodes.py:331-334 | with the corrected template, an undecodable reflection reply makes the state sufficient, with empty gap and follow-ups, and moves to answer generation without an error. As written this path is never reached (`Nodes.ReflectionAsWrittenFails`) |
| Nodes.ReflectionNode | backend/nodes.py:290-363 | reflection with its prompt built from a given template adds exactly 1 to the loop count and appends at most one error. Results that are not all dicts record a TypeError. A template field that is not an argument raises KeyError before the model is called: the research is then sufficient with no follow-ups, and the error names the key's `repr`. A template that renders hands over to `Nodes.Reflection` |
| Nodes.ReflectionAsWrittenFails | backend/nodes.py:299-363 | as written, whatever the reply, reflection marks the research sufficient with no follow-ups, moves to answer generation and records "Reflection failed: " followed by the template's KeyError (the TypeError when a result is not a dict) |
| Nodes.ReflectionFixedReadsReply | backend/nodes.py:309-351 | with the example's braces doubled, reflection is exactly `Nodes.Reflection`: it reads the model's reply |
| Nodes.NonEmpty | backend/nodes.py:402-407 | the falsy (empty) citations are removed and nothing else |
| Nodes.UniqueCitations | backend/nodes.py:402-407 | the citation list has no duplicates and holds exactly the non-empty citations of the input |
| Nodes.UniqueCitationsPrefix | backend/nodes.py:402-407 | de-duplication keeps first occurrences: more input only extends the result |
| Nodes.NonEmptyAppend | backend/nodes.py:402-407 | removing empty entries distributes over concatenation |
| Nodes.AnswerUpdate | backend/nodes.py:365-435 | the answer step completes exactly when it appends no error. Then the answer is the reply and the citations are the de-duplicated citations of the results. The summary counts queries, results, those citations and loops, and the messages are the question and the answer. On failure there is exactly one error, no citations and the phase `error` |
| Nodes.GatherCitations | backend/nodes.py:390-399 | the collection loop takes each dict result's `citations`, else its `url`, else its `sources` |
| Nodes.DedupCitations | backend/nodes.py:402-407 | the `seen`-set loop computes the order-preserving de-duplication of the non-empty citations |
| Nodes.AnswerGeneration | backend/nodes.py:365-435 | the answer node built from the two loops returns the update the answer step specifies |
| Workflow.Routed | backend/workflow.py:71-94 | routing raises exactly when the follow-ups are truthy but not a list, string or object. Otherwise there is one search task per chosen query, in order: the follow-ups when truthy (every item of a list, whatever its type), else the query list. Task i carries the i-th query, the id `<prefix>_<i>` and the original question (default ""). It is a follow-up exactly when the follow-up value is truthy |
| Workflow.RouteToParallelSearches | backend/workflow.py:71-94 | the append loop builds exactly the routed task list, and raises exactly when routing does |
| Workflow.TaskIdsUnique | backend/workflow.py:79-89 | two task ids are equal only for the same index, the same round kind and, for follow-ups, the same loop count |
| Workflow.RoutedIdsDistinct | backend/workflow.py:85-94 | the tasks of one routing have distinct ids |
| Workflow.RoutedTaskSearched | backend/workflow.py:87-91 | a routed task with a truthy query searches that query under its routed task id |
| Workflow.Decide | backend/workflow.py:96-109 | the decision raises exactly when `len(follow_up_queries)` does, whatever the other conditions say. Otherwise it is answer generation iff `is_sufficient` (default true) holds, or the loop count (default 0) has reached the maximum, or there are no follow-ups; a missing `is_sufficient` means answer generation. Querying again implies routing will yield at least one task |
| Workflow.InitialState | backend/workflow.py:117-136 | the initial state has loop count 0, no results, sources, citations, errors or warnings, follow-ups `[]`, and the question as its one message; it is not sufficient and starts in `generating_queries` |
| Workflow.RoundCountsOnce | backend/nodes.py:345-351 | for either template, in a round whose routing succeeds, query generation leaves the loop count and follow-ups alone, and reflection adds exactly 1 to the count |
| Workflow.QueriesKeepLoopKeys | backend/nodes.py:107-113 | query generation leaves the loop count and the follow-ups alone |
| Workflow.PlayRound | backend/workflow.py:44-62 | a round that gets through routing and reflection adds exactly 1 to the loop count |
| Workflow.NextRoundSearchesFollowUps | backend/workflow.py:73-94 | when the decision is to query again, which only the corrected template allows, the next round searches what iterating the stored follow-ups visits, every list item included, as follow-up tasks with ids `followup_<count>_<i>`, and there is at least one |
| Workflow.RunFrom | backend/workflow.py:44-67 | for either template, the research loop runs reflection at most max(1, maximum minus count) more times, and reaches answer generation only after at least one reflection; routing or the decision raising ends the run as failed |
| Workflow.RunRounds | backend/workflow.py:59-109 | for any round under which a completed round adds one to the loop count, the loop of rounds reflects at most `LoopBudget` times and answers only after a reflection |
| Workflow.UnsizedFollowUpsFailRun | backend/workflow.py:100-104 | a round whose reflection stores a follow-up value `len()` rejects (null, a number, a boolean) ends the run as failed, not answered. Only the corrected template can store such a value |
| Workflow.ReflectedAsWritten | backend/nodes.py:353-363 | merging the as-written reflection into any state appends the reflection's error and leaves the research sufficient, without follow-ups, headed for answer generation, and the loop decision answers |
| Workflow.AsWrittenRoundAnswers | backend/workflow.py:44-62 | as written, a round that gets through routing always ends with the state settled for answering and the reflection's error last in `errors` |
| Workflow.AsWrittenRunReflectsOnce | backend/workflow.py:44-67 | as written, a run fails when routing raises, ends when routing yields no task, and otherwise answers after exactly one reflection |
| Workflow.AsWrittenResearchAnswersOnce | backend/workflow.py:44-67 | as written, a research run from the initial state answers after exactly one reflection, or ends with no query to search; it never loops |
| Workflow.ResearchTerminates | backend/workflow.py:44-67 | for either template and whatever the replies, from the initial state reflection runs at most max(1, `max_research_loops`) times |
| Workflow.CleanMessages | backend/workflow.py:151-164 | message cleaning maps each message to a `{type, content}` record, one per message, in order, and the original message can be read back from it |
| Workflow.MessageRoundTrip | backend/workflow.py:155-159 | a cleaned human or AI message reads back as itself |
| Workflow.MapEvent | backend/workflow.py:250-296 | `on_chain_start`, `on_chain_end`, `on_chain_stream` and `on_chat_model_stream` become `node_start` ("Starting <name>"), `node_complete`, `node_stream` and `llm_token`; anything else is forwarded as `event`; the node name is kept |
| Workflow.Absorb | backend/workflow.py:262-265 | an answer node's output object is merged into the captured data, its keys winning |
| Workflow.EventsPrefixMapped | backend/workflow.py:244-296 | the events yielded so far are exactly the mapped graph events, one per graph event until a failure |
| Workflow.FailureSticks | backend/workflow.py:298-304 | once capturing fails, no further graph event changes the stream |
| Workflow.HandleEvent | backend/workflow.py:250-296 | one graph event updates the captured answer data as specified and, while capturing has not failed, yields that event's mapped form |
| Workflow.EventLoop | backend/workflow.py:244-304 | the `async for` loop yields the mapped events and ends with the captured data and failure state that the specified event prefix gives |
| Workflow.StateValuesWin | backend/workflow.py:313-326 | each key of the final result is present. The graph state's value wins over the captured answer output, which wins over the default |
| Workflow.ReadFailureFallback | backend/workflow.py:330-341 | when reading the final state fails, the final result has three keys and the answer defaults to "Research completed." |
| Workflow.EventStream | backend/workflow.py:243-341 | the stream always ends with exactly one `complete` event carrying the final result, even after an error, and an `error` event can only come just before it |
| Workflow.StreamResearchEvents | backend/workflow.py:206-341 | the event loop yields exactly the specified event stream |
| Api.ValidQuestionHasText | backend/api.py:91 | a question is accepted exactly when it has a non-whitespace character |
| Api.CaptureAnswer | backend/api.py:138-142 | an answer node's completion with an `output` object gives its `final_answer` (default "") and `citations` (default []); one without `output` captures nothing |
| Api.LastAnswer | backend/api.py:138-142 | reading the latest answer never fails |
| Api.FramesNumbered | backend/api.py:155-161 | frame ids run 0, 1, 2, … with no gap. Only `node_start` and `node_complete` events of the five tracked nodes produce frames, one each |
| Api.StartsAreLatest | backend/api.py:122-123 | the recorded start time of a node name is the timestamp of that name's latest start event |
| Api.DurationFromLatestStart | backend/api.py:131-133 | a completion frame's duration is its timestamp minus the latest start of the same name, and 0 with no start |
| Api.AnswerIsLatest | backend/api.py:112-113 | the captured answer and citations come from the latest answer completion that has an `output`, and are "" and [] otherwise |
| Api.StreamShape | backend/api.py:94-243 | without an exception, exactly one `complete` frame follows the node frames, its id is their number, and it carries the latest captured answer and citations ("" and [] without one). After an exception the last frame is a data-only `error` frame without an id and there is no `complete` frame |
| Api.EmitLoop | backend/api.py:114-161 | the per-event loop returns exactly the frames, frame counter, captured answer and citations of the specified emission over all events |
| Api.GenerateStream | backend/api.py:109-185 | the generator loop yields exactly the specified frames |
| Api.JoinFrameLines | backend/api.py:155-159 | a frame is its `id:`, `event:` and `data:` lines followed by a blank line |
| Api.FrameIdReadBack | backend/api.py:155-161 | splitting a frame into lines gives back the three lines and the blank terminator, and the `id:` line parses back to the frame number |
| Api.StreamEndpointAsWritten | backend/api.py:90-258 | the stream endpoint fails, with status 500, exactly on a blank question. Otherwise it streams the generated frames when `stream_mode` is "events" and the unmodelled state-mode stream for any other mode |
| Api.StreamBodyFor | backend/api.py:109-187 | the events-mode frames are streamed exactly when `stream_mode` is "events" |
| Api.BlankQuestionGets500 | backend/api.py:257-258 | a blank question is answered with status 500 and the detail "400: Question cannot be empty", in either stream mode |
| Api.StreamEndpoint | backend/api.py:90-92 | the stream endpoint rejects exactly the blank questions, with status 400 and "Question cannot be empty"; other questions get the stream of their mode |
| Api.RunThread | backend/api.py:446-460 | a run request with missing, non-list or empty messages is rejected with 400 "Missing messages in request". One whose first message has no or empty content gets 400 "First message missing content". Otherwise the content is delegated as the question |
| Api.RunThreadResponse | backend/api.py:446-460 | a run request that passes its own checks is sent with the default `stream_mode` "values": a non-blank question gets the state-mode stream, never the events-mode frames, and a blank one the endpoint's 500. Its own rejections keep their 400 and a failure inside it is a 500 |
| Api.RunThreadBlankContentGets500 | backend/api.py:446-460 | a first message whose content is a single space passes `run_thread` and gets the endpoint's 500 "400: Question cannot be empty" |
| Api.LastCompletion | backend/api.py:413-416 | the collected final result is the data of the last `complete` update, and exists exactly when one arrived |
| Api.CollectFinalResult | backend/api.py:413-416 | the collection loop keeps the last `complete` update's data |
| Api.ResearchEndpoint | backend/api.py:401-436 | `/research` succeeds exactly when the question is valid and a `complete` update arrived. A blank question or a missing result gives `success: False` with the error message. On success the fields default to "", [], {} and [] |
| Streaming.Envelope | backend/streaming.py:18-34 | every envelope carries the phase. `progress` is `in_progress` with the message (default ""); `completion` is `completed` with the data as details; `error` is `error` with the message in both places; an unknown type builds nothing |
| Streaming.Recorded | backend/streaming.py:24 | recording appends the message to that phase's history and leaves every other phase alone |
| Streaming.StreamingWriter.constructor | backend/streaming.py:4-8 | a new writer has an empty history and has delivered nothing |
| Streaming.StreamingWriter.SendUpdate | backend/streaming.py:10-44 | an unknown type changes nothing. A progress update records its message. With a callback, the envelope is handed over; a failing callback changes nothing further |
| Streaming.StreamProgress | backend/streaming.py:46-48 | a progress update records the message and hands over an `in_progress` envelope |
| Streaming.StreamCompletion | backend/streaming.py:50-52 | a completion leaves the history alone and hands over a `completed` envelope with the details |
| Streaming.StreamError | backend/streaming.py:54-56 | an error leaves the history alone and hands over an `error` envelope carrying the message twice |
| Streaming.ThreeUpdatesOnOnePhase | backend/streaming.py:20-31 | one progress, one completion and one error on a phase leave exactly the progress message in its history, and hand over three envelopes in order when there is a callback |
| SearchUtils.UrlPositionsExact | backend/search_utils.py:25-32 | the chunks kept are exactly those with a URL, in increasing position |
| SearchUtils.ResolveUrls | backend/search_utils.py:8-48 | the loop builds the specified records |
| SearchUtils.ResolvedRecords | backend/search_utils.py:19-46 | at most one record per chunk, in order. Each record keeps its chunk's URL (also as `value`) and is numbered `<task>-<i+1>` by the chunk's own position, so skipped chunks leave gaps. The short URL is that id in brackets, and the title and snippet default to "Unknown Source" and "" |
| SearchUtils.ShortIdInjective | backend/search_utils.py:35-44 | different chunk positions get different ids |
| SearchUtils.ResolvedIdsDistinct | backend/search_utils.py:35-44 | the records of one resolution have distinct ids and short URLs |
| SearchUtils.GetCitations | backend/search_utils.py:62-90 | one citation per resolved record, in order, carrying its id, short URL, URL, title and the record itself as its one segment |
| SearchUtils.FirstRelevant | backend/search_utils.py:121-128 | the paragraph chosen is the first one that shares more than 3 words with the snippet and lacks the marker |
| SearchUtils.MarkOneSnippet | backend/search_utils.py:115-128 | the inner loop performs the specified insertion for one snippet |
| SearchUtils.InsertCitationMarkers | backend/search_utils.py:92-130 | the nested loops compute the specified marked text |
| SearchUtils.AppendToParagraph | backend/search_utils.py:126-127 | appending to one paragraph and rejoining with "\n\n" is one insertion into the text |
| SearchUtils.MarkForSnippetInserts | backend/search_utils.py:115-128 | a snippet either leaves the text unchanged or inserts " <marker>" at one place |
| SearchUtils.MarkForSnippetsKeeps | backend/search_utils.py:115-128 | processing a citation's snippets never removes text |
| SearchUtils.MarkedPrefixKeeps | backend/search_utils.py:106-128 | processing citations never removes text |
| SearchUtils.MarkersOnlyInsert | backend/search_utils.py:92-130 | the original text is a subsequence of the marked text |
| SearchUtils.ShortSnippetsChangeNothing | backend/search_utils.py:116 | snippets of 20 characters or fewer change nothing |
| SearchUtils.FormatCitationsForDisplay | backend/search_utils.py:132-151 | one display record per citation, in order, with the title defaulting to "Unknown Source" and the URL to "" |
| SearchUtils.HostRun | backend/search_utils.py:53 | the host run takes every host character (`[\w\d\-\.]`) from the position on and stops at the first other one |
| SearchUtils.PathRun | backend/search_utils.py:53 | the path run takes every path character from the position on and stops at the first other one |
| SearchUtils.SchemeLength | backend/search_utils.py:53 | a scheme found at a position is `http://` or `https://` and lies inside the text |
| SearchUtils.UrlLengthAt | backend/search_utils.py:53 | a URL matched at a position lies inside the text and begins with the scheme found there |
| SearchUtils.ScanUrls | backend/search_utils.py:53-57 | every URL found starts with a scheme and occurs in the text |
| SearchUtils.ExtractUrls | backend/search_utils.py:50-60 | the extracted URLs have no duplicates, each starts with `http://` or `https://` and occurs in the text, and they are exactly the URLs the scan finds |
| Prompts.FormatForReflection | backend/prompts.py:109-121 | the reflection text is empty exactly when there are no results |
| Prompts.ReflectionAppend | backend/prompts.py:113-121 | one more result adds one more block at the end, numbered one past the last |
| Prompts.ReflectionMentionsEach | backend/prompts.py:113-119 | result i appears as block i+1, with its query, summary, source count and first source (or "No sources") |
| Prompts.FormatForAnswer | backend/prompts.py:123-133 | the answer text is empty exactly when there are no results |
| Prompts.AnswerAppend | backend/prompts.py:127-133 | one more result adds its block at the end |
| Prompts.AnswerMentionsEach | backend/prompts.py:127-131 | every result's query and findings appear |
| Prompts.SourceLines | backend/prompts.py:137-138 | at most 20 lines, no duplicates, each "- " followed by an input source; with at most 20 distinct sources every source is listed |
| Prompts.FormatSourcesList | backend/prompts.py:135-138 | no sources give the empty list |
| Prompts.SourcesListLines | backend/prompts.py:137-138 | the lines of the sources list are exactly the source lines when no source contains a line break |
| Prompts.FormatPieces | backend/nodes.py:309 | formatting a template succeeds exactly when every field names an argument. Otherwise it raises KeyError on a missing name, and every field before that one is bound |
| Prompts.RenderedKeepsLiterals | backend/nodes.py:309 | a rendered template contains each of its literal pieces |
| Prompts.ReflectionArgs | backend/nodes.py:309 | the reflection prompt receives exactly the arguments `question`, `research_summary`, `source_count` and `loop_count` |
| Prompts.ReflectionTemplateRaises | backend/prompts.py:63-78 | whatever the argument values, formatting `REFLECTION_USER_TEMPLATE` raises KeyError on the field name `\n  "is_sufficient"` that its undoubled `{` opens |
| Prompts.FixedReflectionTemplateRenders | backend/prompts.py:63-78 | with the example's braces doubled, the template renders and the prompt shows the JSON example |
| Text.StrRepr | backend/nodes.py:353-363 | `str()` of the KeyError, the key's `repr`: the text between quotes chosen as Python chooses them, from which the key reads back unchanged, with no raw newline |

## Left out

- The LLM and web-search calls (client set-up, `ainvoke`, `chat.completions.create`) are inputs: a `Reply` holds either the returned text or the message of the exception raised.
- JSON text encoding and decoding: `json.loads` is a parameter `decode`, and `json.dumps` is outside the model. The frame text takes the serialised payload as a string.
- JSON objects are assumed to hold distinct keys, as `json.loads` produces; `Json.Get` takes the first match.
- Regular expressions are replaced by scanners. Words are runs of ASCII letters, digits and `_`, and a URL is a scheme, a host run with a dot and a path run. Only the properties listed above are stated about them.
- SearchUtils.HostRun, SearchUtils.PathRun: `\w` in the URL pattern is taken as ASCII letters, digits and `_`, while Python 3 matches any Unicode word character there, so a URL such as `https://café.fr/x` is found by the source but not by the model.
- The order of `list(set(...))` is unspecified in Python. The model uses first-occurrence order, in `extract_urls_from_text`, `format_sources_list` and the source union.
- Wall-clock time and floats are not modelled. Timestamps are integer milliseconds, and `relevance_score` is an enumeration (0.9 or 0.0). A web search uses one stamp for both its default task id and its result id. The `timestamp` of a resolved URL, the `completion_time` of the `complete` frame and the float arithmetic of the duration are not modelled.
- Environment reading: `DEMO_MODE` is a parameter of `Config.DemoModeFromEnv`, and the API key is a parameter of `Config.Defaults`.
- The LangGraph runtime (graph compile, `astream`, `astream_events`, `aget_state`) is not modelled. The fan-out is a sequence of updates merged by `State.ApplyAll`; any merge order gives the same state up to element order. A routing that yields no task ends the modelled run (`NoSearchTasks`).
- Workflow.RunFrom: the reply supply per round is a function parameter, and the graph's own step limit is not modelled.
- The WebSocket endpoint, the state-mode branch of the stream endpoint, the `GET /threads/{id}/runs` alias, thread creation and the health and config endpoints are not modelled. `/research` is modelled on the sequence of state updates it consumes.
- Text.StrRepr: backslash, newline, carriage return, tab and the quote are escaped. Other unprintable characters, which Python writes as `\x..` or `\u....`, are kept as they are.
- Prompts.FormatPieces: a template is given already split into literal text and fields, as Python's parser splits it. Format specs, conversions (`!r`) and positional or indexed fields are not applied. Only the reflection template is modelled this way, because the other templates hold only fields their callers pass.
- Nodes.ReflectionNode: an exception from `get_llm` comes after the results are formatted but before the template is. The model takes it as the model call's exception, so as written the template's KeyError is recorded in its place.
- Python exception texts (`TypeError`, `AttributeError`, a Pydantic validation error) are modelled as fixed strings.
- Starlette's text for an `HTTPException` is modelled as `"<status>: <detail>"` (`Api.HttpErrorText`).
- Nodes.GenerateQueries: a `queries` array holding non-strings is reduced to its string items; a string is split into characters, as slicing and iterating it would.
- Workflow.Absorb: an answer output that is a non-empty list or a string is treated as raising, instead of being read as key/value pairs.
- `timeline_updates` (backend/state.py:39) is not modelled: `OverallState` here has no field for it, and no node reads or writes it. `rationale` text beyond its fixed messages and the cleaning of state fields other than `messages` are carried as values without further properties.
- The unused `response` argument of `get_citations`, the unused `original_question` local in `web_search_node`, the dead `should_continue` function and the unreachable `elif not rationale` branch have no effect and are not modelled separately.
- The error path of `aggregate_search_results` cannot be reached on the modelled values and is not modelled.
- Streaming.StreamingWriter.SendUpdate: the callback is not called. The writer records the envelopes it would hand over, and a callback exception has no modelled effect because the source swallows it.

## Findings

`Workflow.RunFrom` takes the reflection template as a parameter, so it covers both halves of the template row. Aggregation and `Api.RunThreadResponse` follow the code as written. The corrected members state what the evidently intended version guarantees.

The rows about a reflection that reads its reply belong to the corrected half of the template row: `Nodes.Reflection`, `Nodes.ReflectionParseFailureIsSufficient`, `Workflow.NextRoundSearchesFollowUps` and `Workflow.UnsizedFollowUpsFailRun`.

| source | as written | input that shows it | evidently intended | confidence | as-written member | corrected member |
|---|---|---|---|---|---|---|
| backend/api.py:90-92, 257-258 | the check for an empty question raises `HTTPException(400)` inside the endpoint's own `try`, and its `except Exception` re-raises every exception as `HTTPException(500, str(e))` | question " " | a blank question is rejected with status 400 and "Question cannot be empty" | high, not executed | Api.BlankQuestionGets500 | Api.StreamEndpoint |
| backend/nodes.py:276-281, backend/state.py:29-30 | aggregation returns the flattened results and the source union under keys that carry the `add` reducer, so they are appended to the lists they were computed from | a state holding one result dict `r` | the aggregated state holds `r` once and counts it once | medium, not executed | Nodes.AggregateMergeRepeats | Nodes.AggregateReplacingOnce |
| backend/prompts.py:73-78, backend/nodes.py:309 | the JSON example in `REFLECTION_USER_TEMPLATE` opens with an undoubled `{`, so `str.format` reads a field named `\n  "is_sufficient"`, which is not an argument. It raises KeyError before the model is called, and the `except` records "Reflection failed: …" and declares the research sufficient. Every run therefore answers after one reflection | any state whose results are dicts, with any model reply | the prompt shows the JSON example, the reply is parsed, and the loop runs again while the research is insufficient | high, not executed | Workflow.AsWrittenResearchAnswersOnce | Nodes.ReflectionFixedReadsReply |
