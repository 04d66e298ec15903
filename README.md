# CommonGround core in Dafny

This project models the deterministic middle of CommonGround, a multi-agent framework. It covers five parts.

- **The three biomedical search connectors.**
  - `ClinicalTrialsNode` turns tool parameters into a ClinicalTrials.gov API v2.0 query. It builds the knowledge-base cache key, normalises each study record and assembles the reply.
  - `NCBISearchNode` builds a PubMed E-utilities term, reads the PMIDs from the `esearch` tree, reads each `PubmedArticle` into a flat record and offers the result set to the knowledge base.
  - `NCBIFetchNode` validates PMIDs and splits them between the knowledge base and one `efetch` request. It reads each detailed article record and creates a knowledge item for every newly fetched article.
- **The prompt ingestors of `events/ingestors.py`.** These are the wrapper-tag, template, generic-message, Markdown, tool-result, protocol-aware and user-prompt ingestors. They include the recursive Markdown formatter, the principal history summary and the ingestor registry.
- **The streaming response aggregator of `llm/call_llm.py`.** It models chunk accumulation, tool-call fragment merging by index, the sticky tool-call-tag trip, the first model name and the contextual event data.
- **The `call_litellm_acompletion` attempt loop.** It models system-prompt insertion, request-parameter assembly and filtering, and the retry on network and application errors with nudges. It also models the empty-response check and the run statistics.

Python values after `json.loads` are the datatype `Json.Json`. It covers `None`, booleans, integers, strings, lists and insertion-ordered dictionaries. A parsed XML document is `XmlTree.Element`, and `find`/`findall` on `.//X` paths are modelled exactly. Code that may raise returns an `Outcomes.Outcome`. Each connector's HTTP reply is an input. An `Effect` log records the store lookups and the requests, in the order they are made, so the model can state when no request happens.

The code does the updating in place, so the model does too:
- loops are methods with invariants, each proved equal to a function that describes its result;
- the aggregator and the registry are classes;
- the properties are lemmas about those functions.

The modules follow the program:
- `ClinicalTrials`, `NcbiSearch`, `NcbiFetch` with `NcbiArticle`, `Ingestors` with `Markdown`, `History` and `Registry`, and `LlmStream` with `LlmCall`;
- shared helpers in `Outcomes`, `PyText`, `Json`, `Seqs` (with `Sorting`), `XmlTree` and `Connectors`.

## Model

| member | source | states |
|---|---|---|
| Connectors.StoreGet | core/agent_core/nodes/custom_nodes/clinical_trials_node.py:132 | a knowledge-base lookup returns the stored item for a known URI and `None` for any other |
| Connectors.TextParam | core/agent_core/nodes/custom_nodes/clinical_trials_node.py:96-99 | a text parameter is its value stripped, an absent key reads as the empty string, and a value that is not a string raises |
| Json.Get | core/agent_core/events/ingestors.py:49 | `v.get(k, default)` raises exactly when `v` is not a dictionary, and otherwise gives the key's value or the default |
| Json.Field | core/agent_core/nodes/custom_nodes/ncbi_fetch_node.py:159 | `d.get(k, default)` on a dictionary gives the key's value when present and the default otherwise |
| Json.PyIn | core/agent_core/events/ingestors.py:128 | `x in container` is list membership by equality, needs a string inside a string, and raises on anything but a list, dictionary or string |
| Json.PyIter | core/agent_core/nodes/custom_nodes/clinical_trials_node.py:217 | iteration yields a list's items, a string's characters or a dictionary's keys, as many as `len`, and raises on anything else |
| Json.Slice | core/agent_core/nodes/custom_nodes/ncbi_fetch_node.py:159 | `v[:n]` keeps the first `n` items of a list or characters of a string, and raises on anything else |
| Json.ClipValue | core/agent_core/events/ingestors.py:210 | a string is truncated to `n` characters plus `"..."`; a list or dictionary passes when its length is within `n` and raises otherwise; a value without a length raises |
| Json.PutAllLookup | core/agent_core/llm/call_llm.py:269 | spreading a dictionary: its keys take its values and every other key keeps its old value |
| Json.PyMin | core/agent_core/nodes/custom_nodes/clinical_trials_node.py:103 | `min(v, bound)` succeeds exactly on integers and booleans and never returns an integer above the bound |
| PyText.Strip | core/agent_core/nodes/custom_nodes/clinical_trials_node.py:96 | a stripped string has no whitespace at either end and is empty exactly when the input is all whitespace |
| PyText.StripIdempotent | core/agent_core/nodes/custom_nodes/clinical_trials_node.py:96 | stripping twice is the same as stripping once |
| PyText.Truncate | core/agent_core/nodes/custom_nodes/clinical_trials_node.py:387 | a text within the limit is kept; a longer one becomes its first n characters followed by "..." |
| PyText.ZFill | core/agent_core/nodes/custom_nodes/ncbi_fetch_node.py:389 | zero-padding reaches the width: a string already that wide is kept, and a shorter unsigned one gets zeros in front |
| PyText.Split | core/agent_core/events/ingestors.py:379 | splitting on a character gives at least one part, no part holds the separator, and joining the parts gives back the input |
| Sorting.SortIgnoresOrder | core/agent_core/nodes/custom_nodes/clinical_trials_node.py:245 | sorting a dictionary's items gives the same list whatever order the items were inserted in |
| XmlTree.FindAll | core/agent_core/nodes/custom_nodes/ncbi_search_node.py:229 | a descendant search returns only elements with the requested tag |
| XmlTree.Find | core/agent_core/nodes/custom_nodes/ncbi_search_node.py:268 | a first-match search finds nothing exactly when the full search is empty, and otherwise returns the full search's first element |
| LlmStream.MergeSlot | core/agent_core/llm/call_llm.py:172-192 | a fragment's name and arguments are appended to its slot's, and its id replaces the slot's id only when non-empty |
| LlmStream.MergeFragment | core/agent_core/llm/call_llm.py:167-192 | a fragment updates exactly its index's slot, and a new index gets an empty slot and joins the end of the order |
| LlmStream.MergeFragments | core/agent_core/llm/call_llm.py:166-192 | the tool-call fragment loop, with no contract of its own; MergeFragmentsOrdered, MergeFragmentsKeys, MergeFragmentsConcat, MergedSlot, MergedSlots and MergedOrder state its result, and MergeToolCalls is the method proved equal to it |
| LlmStream.MergeFragmentOrdered | core/agent_core/llm/call_llm.py:167-170 | merging a fragment keeps every slot index listed exactly once in the order |
| LlmStream.MergeFragmentsOrdered | core/agent_core/llm/call_llm.py:167-170 | a run of fragments keeps every slot index listed exactly once in the order |
| LlmStream.MergeFragmentsKeys | core/agent_core/llm/call_llm.py:167-170 | a run of fragments adds exactly the fragments' indices to the slots |
| LlmStream.IndicesSnoc | core/agent_core/llm/call_llm.py:167-168 | the indices of a run are those of its prefix plus the last fragment's |
| LlmStream.MergeFragmentsStep | core/agent_core/llm/call_llm.py:167-192 | the fragment loop merges one more fragment in each iteration |
| LlmStream.Step | core/agent_core/llm/call_llm.py:114-192 | a chunk is kept and its usage taken; without choices nothing else changes; the first non-empty model name is taken once; content and reasoning deltas are appended |
| LlmStream.StepRaises | core/agent_core/llm/call_llm.py:153-157 | a chunk raises exactly when it carries a content delta and the content then holds `<tool_call>` or `<tool_code>` |
| LlmStream.StepMerges | core/agent_core/llm/call_llm.py:156-192 | a chunk that does not raise merges its tool-call fragments; one that raises leaves the slots alone |
| LlmStream.Handled | core/agent_core/llm/call_llm.py:312-313 | the stream loop processes no more chunks than the stream has |
| LlmStream.HandledTail | core/agent_core/llm/call_llm.py:312-313 | the processed prefix of a stream is its first chunk followed by a prefix of the rest |
| LlmStream.KeptPrefix | core/agent_core/llm/call_llm.py:115 | keeping the first chunk, then a prefix of the rest, keeps a prefix of the stream |
| LlmStream.ConsumeKeepsChunks | core/agent_core/llm/call_llm.py:114-115 | the raw chunks are exactly the processed chunks, in order |
| LlmStream.ConsumeStopsOnlyOnRaise | core/agent_core/llm/call_llm.py:312-313 | a stream that does not raise is processed to its end |
| LlmStream.ConsumeRaisesOnTag | core/agent_core/llm/call_llm.py:153-157 | a stream raises only at a chunk with a content delta, once the content holds a tool-call tag |
| LlmStream.ContentOfPrefix | core/agent_core/llm/call_llm.py:153-154 | the content deltas of a processed prefix split at its first chunk |
| LlmStream.ReasoningOfPrefix | core/agent_core/llm/call_llm.py:143-145 | the reasoning deltas of a processed prefix split at its first chunk |
| LlmStream.ConsumeConcatenatesContent | core/agent_core/llm/call_llm.py:153-154 | the content is the concatenation of the processed chunks' content deltas, in order |
| LlmStream.ConsumeConcatenatesReasoning | core/agent_core/llm/call_llm.py:143-145 | the reasoning is the concatenation of the processed chunks' reasoning deltas, in order |
| LlmStream.TripIsSticky | core/agent_core/llm/call_llm.py:154-157 | once the content holds a tool-call tag, every later content delta raises |
| LlmStream.ModelIdTakenOnce | core/agent_core/llm/call_llm.py:135-136 | a model name already taken is kept; otherwise the first non-empty name among the processed chunks with choices is taken |
| LlmStream.MergeFragmentsConcat | core/agent_core/llm/call_llm.py:166-192 | merging two runs of fragments one after the other is merging their concatenation |
| LlmStream.ConsumeMergesFragments | core/agent_core/llm/call_llm.py:166-192 | a stream that did not raise has merged every fragment of its chunks, in order |
| LlmStream.MergedSlot | core/agent_core/llm/call_llm.py:167-185 | from no slots, an index's slot holds the concatenated names and arguments of its fragments and the last non-empty id |
| LlmStream.MergedSlots | core/agent_core/llm/call_llm.py:167-185 | from no slots there is one slot per index that occurs, listed once, holding exactly what its fragments carried |
| LlmStream.Repaired | core/agent_core/llm/call_llm.py:202-209 | a tool call's arguments are replaced by their repair, or kept when the repair raises; the id and name are untouched |
| LlmStream.Aggregated | core/agent_core/llm/call_llm.py:194-226 | one tool call per slot in the order the indices first appeared, with repaired arguments; content, reasoning, model name and usage as aggregated |
| LlmStream.OrderCoversKeys | core/agent_core/llm/call_llm.py:200 | an order that lists every key once has as many entries as there are keys |
| LlmStream.MergedOrder | core/agent_core/llm/call_llm.py:167-170 | from no slots, the order is the indices in order of first appearance |
| LlmStream.ConsumeOrdered | core/agent_core/llm/call_llm.py:312-313 | the slots stay well ordered over a whole stream |
| LlmStream.Consume | core/agent_core/llm/call_llm.py:300-315 | the stream loop over `process_chunk`, with no contract of its own; StreamResponse, ConsumeKeepsChunks, ConsumeStopsOnlyOnRaise, ConsumeRaisesOnTag, ConsumeConcatenatesContent, ConsumeConcatenatesReasoning, ModelIdTakenOnce, TripIsSticky, ConsumeMergesFragments and ConsumeOrdered state what it computes, and ConsumeStream is the method proved equal to it |
| LlmStream.StreamResponse | core/agent_core/llm/call_llm.py:300-315 | a stream that did not raise aggregates to all content and reasoning deltas in order, the first model name, and one tool call per index in order of first appearance with its concatenated name, repaired arguments and last non-empty id |
| LlmStream.ResponseAggregator.constructor | core/agent_core/llm/call_llm.py:85-101 | a new aggregator is empty and keeps the contextual ids it is given |
| LlmStream.ResponseAggregator.ContextualData | core/agent_core/llm/call_llm.py:103-112 | the associated task numbers when present and the module and dispatch ids when non-empty, each under its key and no other key present, or `None` when none is set |
| LlmStream.PutIfWithin | core/agent_core/llm/call_llm.py:105-111 | a guarded assignment of an allowed key keeps every key of the dictionary among the allowed ones |
| LlmStream.ResponseAggregator.ProcessChunk | core/agent_core/llm/call_llm.py:114-192 | the object's new state and whether it raised are those of `Step` on its old state |
| LlmStream.ResponseAggregator.MergeToolCalls | core/agent_core/llm/call_llm.py:166-192 | the fragment loop merges all fragments and changes nothing else |
| LlmStream.ResponseAggregator.ConsumeStream | core/agent_core/llm/call_llm.py:312-313 | the stream loop's new state and whether it raised are those of `Consume` |
| LlmStream.ResponseAggregator.AggregatedResponse | core/agent_core/llm/call_llm.py:194-226 | the repair loop returns `Aggregated` of the object's state |
| LlmStream.PutIf | core/agent_core/llm/call_llm.py:106-111 | a conditional assignment sets its key only when the condition holds and leaves every other key alone |
| LlmCall.WithSystemPrompt | core/agent_core/llm/call_llm.py:251-256 | without a prompt the messages are kept; with one, a leading system message gets the prompt as content and keeps the rest, otherwise a system message is inserted in front; a first message that is not a dictionary raises |
| LlmCall.Spread | core/agent_core/llm/call_llm.py:269 | `{**llm_config, "messages": …, "stream": True, **kwargs}`, with no contract of its own; SpreadLookup states the value of every key |
| LlmCall.SpreadLookup | core/agent_core/llm/call_llm.py:269 | a keyword argument wins over everything, then `stream` is True and `messages` is the final list, and any other key keeps its configured value |
| LlmCall.WithTools | core/agent_core/llm/call_llm.py:270-273 | the tools are set when given, and the tool choice with them when also given; no other key changes |
| LlmCall.WithUsage | core/agent_core/llm/call_llm.py:274-275 | the stream options get `include_usage: True`, created when missing; a stream-options value that is not a dictionary raises; no other key changes |
| LlmCall.Sent | core/agent_core/llm/call_llm.py:277-280 | the two filters, with no contract of its own; SentEntries gives exactly which entries are sent and SentIsClean that no `None` value or filtered key is sent |
| LlmCall.SentEntries | core/agent_core/llm/call_llm.py:277-280 | an entry is sent exactly when it was assembled, its value is not `None` and its key is not filtered |
| LlmCall.SentIsClean | core/agent_core/llm/call_llm.py:277-280 | no entry sent is `None` or has a filtered key, and no entry is added |
| LlmCall.Assembled | core/agent_core/llm/call_llm.py:269-275 | the parameters of an attempt before filtering, with no contract of its own; StreamAsksForUsage and UsageIsSent state that a streamed attempt asks for usage, and WithTools and WithUsage carry the contracts of its steps |
| LlmCall.StreamAsksForUsage | core/agent_core/llm/call_llm.py:269-280 | a streamed attempt sends stream options that ask for usage |
| LlmCall.UsageIsSent | core/agent_core/llm/call_llm.py:274-280 | the stream options survive the `None` and key filters |
| LlmCall.AfterSuccess | core/agent_core/llm/call_llm.py:323-334 | with a non-empty usage report, prompt and completion tokens (0 when missing) are added, one more success is counted and the largest context grows to this call's total when larger; otherwise nothing changes |
| LlmCall.TokenUsageStats.constructor | core/agent_core/llm/call_llm.py:324 | new statistics are all zero |
| LlmCall.TokenUsageStats.RecordSuccess | core/agent_core/llm/call_llm.py:323-334 | the fields are updated as `AfterSuccess` says |
| LlmCall.TokenUsageStats.RecordFailure | core/agent_core/llm/call_llm.py:366-368 | exactly the failure count grows by one |
| LlmCall.MaxRetries | core/agent_core/llm/call_llm.py:248-258 | `max_retries` defaults to 2; a boolean counts as 0 or 1; any value other than an integer or boolean raises |
| LlmCall.AttemptOnce | core/agent_core/llm/call_llm.py:263-460 | an attempt that sends nothing ends with an unexpected error; every request sent is clean; an answered attempt sent a request and its response is not empty |
| LlmCall.Message | core/agent_core/llm/call_llm.py:393-421 | a message is a dictionary with its role and content |
| LlmCall.LastRequest | core/agent_core/llm/call_llm.py:398 | the content of the last message sent (`""` when it has none); an empty list, a last message that is not a dictionary, or a content that is not a string raises |
| LlmCall.LastRequestOfPrompted | core/agent_core/llm/call_llm.py:251-256 | the message the first nudge reads is the caller's last message, except for a lone system message with a prompt given, whose content is then the prompt |
| LlmCall.Nudged | core/agent_core/llm/call_llm.py:390-422 | the nudge keeps the messages and appends two after the first failure, one after later ones; it raises only when the first nudge cannot read the request |
| LlmCall.NudgeMessages | core/agent_core/llm/call_llm.py:391-422 | after the first failure, an empty assistant turn and the first note with the request as the user; after the second, the second note as the user; after later ones, the final note as the assistant |
| LlmCall.AttemptsSendBeforeRetry | core/agent_core/llm/call_llm.py:263-318 | every attempt that sends nothing ends the call, and no attempt itself reports exhausted retries |
| LlmCall.RunFrom | core/agent_core/llm/call_llm.py:258-466 | the attempt loop from a given attempt, with no contract of its own; RunFromCounts, RunFromSendsClean and RunFromAnswersNonEmpty state its accounting, clean requests and non-empty answers, and AttemptLoop is the method proved equal to it |
| LlmCall.RunFromCounts | core/agent_core/llm/call_llm.py:258-426 | from any loop state: no more than `max_retries + 1` requests; an answer follows one request per failure; exhausted retries mean `max_retries + 1` failed requests |
| LlmCall.RunCall | core/agent_core/llm/call_llm.py:229-466 | a whole call, with no contract of its own; RunCounts, RunSendsClean and RunAnswersNonEmpty state its properties, and CallLlm is the method proved equal to it |
| LlmCall.RunCounts | core/agent_core/llm/call_llm.py:258-466 | a call sends at most `max_retries + 1` requests and none for a negative limit; an answered call failed once per earlier request; exhausted retries mean every attempt failed |
| LlmCall.AttemptsSendClean | core/agent_core/llm/call_llm.py:277-280 | every attempt's request is clean |
| LlmCall.RunFromSendsClean | core/agent_core/llm/call_llm.py:258-426 | from any loop state, every request sent is clean |
| LlmCall.RunSendsClean | core/agent_core/llm/call_llm.py:277-298 | no request of a call carries a `None` value or a filtered key |
| LlmCall.AttemptsAnswerNonEmpty | core/agent_core/llm/call_llm.py:317-318 | every answering attempt has a non-empty response |
| LlmCall.RunFromAnswersNonEmpty | core/agent_core/llm/call_llm.py:317-346 | from any loop state, only a non-empty response is returned |
| LlmCall.RunAnswersNonEmpty | core/agent_core/llm/call_llm.py:317-346 | an answered call never carries a response with blank content and no tool calls |
| LlmCall.AttemptsOfImplements | core/agent_core/llm/call_llm.py:263-318 | the loop's attempts are `AttemptOnce` |
| LlmCall.RunAttempt | core/agent_core/llm/call_llm.py:263-318 | one attempt on a fresh aggregator object does what `AttemptOnce` says |
| LlmCall.AnswerEnd | core/agent_core/llm/call_llm.py:298-460 | an answered attempt had a stream and a non-empty response; a network error, and only that, is retried as a network failure; no attempt fails with exhausted retries |
| LlmCall.StreamedEnd | core/agent_core/llm/call_llm.py:312-318 | a stream that raised asks for an application-level retry; otherwise the attempt is retried exactly when the aggregated response is empty, and an answered attempt carries that response at that attempt's number |
| LlmCall.AwaitAnswer | core/agent_core/llm/call_llm.py:298-318 | the method's attempt end is `AnswerEnd` |
| LlmCall.ConsumeAttempt | core/agent_core/llm/call_llm.py:300-318 | consuming the stream on a fresh aggregator object and reading its response ends the attempt as `StreamedEnd` says |
| LlmCall.NextMessages | core/agent_core/llm/call_llm.py:390-422 | the loop's nudge is `Nudged` |
| LlmCall.NextAttempt | core/agent_core/llm/call_llm.py:263-318 | the loop's attempt is the step the loop is specified with |
| LlmCall.CountFailure | core/agent_core/llm/call_llm.py:366-368 | with statistics, one more failure is counted |
| LlmCall.Settle | core/agent_core/llm/call_llm.py:323-334 | with statistics, an answered call's usage is accounted |
| LlmCall.AttemptLoop | core/agent_core/llm/call_llm.py:258-466 | the loop's result and requests are those of `RunFrom`, and the statistics count every failure and the success |
| LlmCall.Accounted | core/agent_core/llm/call_llm.py:323-334 | the statistics after a run, with no contract of its own; Settle, AttemptLoop and CallLlm prove the statistics object ends as it says |
| LlmCall.CallLlm | core/agent_core/llm/call_llm.py:229-466 | the call's result and requests are those of `RunCall`, and the statistics are accounted as the run says |
| Markdown.Indent | core/agent_core/events/ingestors.py:346 | the indent of a level is two spaces per level |
| Markdown.IndentExtends | core/agent_core/events/ingestors.py:346 | the indent of the next level starts with the indent of this one |
| Markdown.HeadingIndented | core/agent_core/events/ingestors.py:354 | a heading line starts with its indent |
| Markdown.ValueLineIndented | core/agent_core/events/ingestors.py:380-383 | a value line starts with its indent |
| Markdown.PropertyBlock | core/agent_core/events/ingestors.py:350-356 | a property missing from the dictionary shows nothing; a present one starts with a heading of its `x-handover-title` or display name at this level |
| Markdown.PlainLines | core/agent_core/events/ingestors.py:340-385 | rendering without a schema never raises |
| Markdown.FormatLines | core/agent_core/events/ingestors.py:340-385 | the formatter with its `append`/`extend` loops computes `Format` |
| Markdown.FormatFallback | core/agent_core/events/ingestors.py:359-385 | the rendering without an object schema computes `Format` |
| Markdown.FormatText | core/agent_core/events/ingestors.py:377-380 | the string loop gives one value line per part |
| Markdown.FormatProperties | core/agent_core/events/ingestors.py:349-357 | the property loop concatenates the property blocks, and raises when one raises |
| Markdown.RenderProperty | core/agent_core/events/ingestors.py:351-356 | one iteration of the property loop computes `PropertyBlock` |
| Markdown.FormatEntries | core/agent_core/events/ingestors.py:364-368 | the loop over the sorted entries concatenates their blocks |
| Markdown.RenderEntry | core/agent_core/events/ingestors.py:365-368 | one iteration of the entry loop computes `EntryBlock` |
| Markdown.FormatItems | core/agent_core/events/ingestors.py:373-376 | the item loop concatenates the items' lines |
| Markdown.FormatPlainOk | core/agent_core/events/ingestors.py:359-385 | without a schema every value can be rendered |
| Markdown.EntryBlocksOk | core/agent_core/events/ingestors.py:364-368 | without a schema no entry of a dictionary raises |
| Markdown.ItemBlocksOk | core/agent_core/events/ingestors.py:373-376 | without a schema no item of a list raises |
| Markdown.Format | core/agent_core/events/ingestors.py:340-385 | the formatter itself, with no contract of its own; its properties are stated by FormatIndented, FormatEmptyContainer, SchemaNothingPresent, FormatTextLines, SingleItemList, DictionaryInKeyOrder, FormatIgnoresInsertionOrder and FormatPlainOk, and FormatLines is the loop proved equal to it |
| Markdown.FormatIndented | core/agent_core/events/ingestors.py:340-385 | every line rendered at a level starts with that level's indent |
| Markdown.LeafIndented | core/agent_core/events/ingestors.py:360-383 | the `(empty)`, string and scalar lines start with their indent |
| Markdown.PropertyLinesIndented | core/agent_core/events/ingestors.py:350-356 | every line of the properties starts with this level's indent |
| Markdown.PropertyBlockIndented | core/agent_core/events/ingestors.py:352-356 | a property's heading and its deeper lines start with this level's indent |
| Markdown.EntryLinesIndented | core/agent_core/events/ingestors.py:364-368 | every line of the sorted entries starts with this level's indent |
| Markdown.EntryBlockIndented | core/agent_core/events/ingestors.py:365-368 | an entry's heading and its deeper lines start with this level's indent |
| Markdown.ItemLinesIndented | core/agent_core/events/ingestors.py:373-376 | list items are rendered at the list's own level |
| Markdown.FormatEmptyContainer | core/agent_core/events/ingestors.py:360-372 | an empty dictionary or list without an object schema is one `(empty)` line |
| Markdown.SchemaNothingPresent | core/agent_core/events/ingestors.py:349-357 | under an object schema, a dictionary holding none of the properties shows no line at all, not even `(empty)` |
| Markdown.FormatTextLines | core/agent_core/events/ingestors.py:377-380 | a string shows one line per line of its stripped text, each the indent and two spaces before a newline-free text, and those texts joined by newlines give back the stripped string |
| Markdown.TextLinesRoundTrip | core/agent_core/events/ingestors.py:379-380 | the value lines of a string's parts carry the parts, which join back to the stripped string |
| Markdown.SingleItemList | core/agent_core/events/ingestors.py:373-376 | a one-item list shows that item at the list's level under the schema's `items` |
| Markdown.DictionaryInKeyOrder | core/agent_core/events/ingestors.py:360-368 | without an object schema, a non-empty dictionary shows its entries in ascending key order, each as its key's heading followed by its value one level deeper, and never raises |
| Markdown.FormatDictionary | core/agent_core/events/ingestors.py:360-368 | a non-empty dictionary without an object schema is rendered as the blocks of its entries sorted by key |
| Markdown.EntryBlocksPlain | core/agent_core/events/ingestors.py:364-368 | every entry block is its key's heading followed by its value's lines, and none raises |
| Markdown.EntryBlocksOfEntries | core/agent_core/events/ingestors.py:364 | the blocks of a sorted entry list are the same for any dictionary holding those entries |
| Markdown.EntryBlockPlain | core/agent_core/events/ingestors.py:365-368 | an entry shown without a schema is its heading followed by its value's lines one level deeper |
| Markdown.FormatIgnoresInsertionOrder | core/agent_core/events/ingestors.py:364 | without an object schema, dictionaries with the same entries in any insertion order show the same lines |
| Ingestors.Wrap | core/agent_core/events/ingestors.py:244-245 | with a pair of tags the text is the first tag, the content and the second tag, from which the content is recovered; otherwise the content itself |
| Ingestors.TaggedContent | core/agent_core/events/ingestors.py:238-248 | `str(payload)` between the two wrapper tags, or bare when `wrapper_tags` is not a two-item list |
| Ingestors.Interpolate | core/agent_core/events/ingestors.py:22-34 | a non-string or a string without `{{` is returned unchanged; any other string is substituted from the context |
| Ingestors.LookupByValue | core/agent_core/events/ingestors.py:51 | `.get` succeeds exactly on a dictionary with a hashable key; a string key finds its value, any other key nothing |
| Ingestors.TemplatedContent | core/agent_core/events/ingestors.py:43-45 | a payload that is not a dictionary with `content_key` gives the invalid-payload message |
| Ingestors.TemplatedWraps | core/agent_core/events/ingestors.py:47-63 | a template found under its key is interpolated and then wrapped in a pair of tags or returned as it is; one without `{{` is used verbatim |
| Ingestors.TemplateMissing | core/agent_core/events/ingestors.py:48-55 | a missing or empty template gives the not-found message naming the key; a loaded profile that is not a dictionary raises |
| Ingestors.FieldPlaceholder | core/agent_core/events/ingestors.py:72 | the placeholder of a field is fourteen characters around its key |
| Ingestors.GenericMessage | core/agent_core/events/ingestors.py:68-73 | the ingestor succeeds exactly when the template is a string |
| Ingestors.GenericMessageIngest | core/agent_core/events/ingestors.py:66-73 | the ingestor with its loop rebinding the template computes `GenericMessage` |
| Ingestors.DefaultTemplateKept | core/agent_core/events/ingestors.py:68-72 | no field placeholder occurs in the default template, so the field loop leaves it alone |
| Ingestors.DefaultTemplateIsStr | core/agent_core/events/ingestors.py:68-73 | without a `content_template` the message is `str(payload)` |
| Ingestors.PlainTemplateKept | core/agent_core/events/ingestors.py:71-72 | a template without `{{` survives the field loop unchanged |
| Ingestors.NoFieldPlaceholder | core/agent_core/events/ingestors.py:72 | a template without `{{` has no field placeholder to replace |
| Ingestors.PlainTemplateIsMessage | core/agent_core/events/ingestors.py:68-73 | a template without `{{` is the message, whatever the payload |
| Ingestors.FieldLine | core/agent_core/events/ingestors.py:128-131 | an excluded key gives no line; another key gives its line under its rename or its title-cased name |
| Ingestors.MarkdownList | core/agent_core/events/ingestors.py:117-118 | a payload that is not a dictionary gives its `str` |
| Ingestors.MarkdownListIngest | core/agent_core/events/ingestors.py:115-133 | the ingestor with its field loop computes `MarkdownList` |
| Ingestors.ShowAll | core/agent_core/events/ingestors.py:127-131 | one line per kept field, in order, each that field's line |
| Ingestors.MarkdownOneLinePerField | core/agent_core/events/ingestors.py:120-133 | the text is the title followed by exactly one line per field that is not excluded, in payload order, under its rename or display name |
| Ingestors.KeptLines | core/agent_core/events/ingestors.py:127-131 | skipping excluded keys while showing lines is showing the kept fields |
| Ingestors.ToolResult | core/agent_core/events/ingestors.py:78-96 | a non-dictionary result is its `str`, a dehydrated token comes back verbatim, and an error is reported inside `tool_error_report` tags |
| Ingestors.ToolResultRendering | core/agent_core/events/ingestors.py:99-112 | outside dispatch results, `main_content_for_llm` is rendered as Markdown before `_raw_json` is dumped, and otherwise the whole content is rendered as Markdown |
| Ingestors.UserPrompt | core/agent_core/events/ingestors.py:334-338 | a dictionary gives its `prompt`, by default empty; anything else gives its `str` |
| Ingestors.ProtocolAware | core/agent_core/events/ingestors.py:388-400 | a payload without `data` and `schema_for_rendering` gives the malformed-handover message; otherwise the text starts with the `## ` title from the schema or `Agent Briefing` |
| Ingestors.ProtocolAwareBody | core/agent_core/events/ingestors.py:394-406 | the lines after the title are the data rendered under the schema |
| Registry.LastRegistered | core/agent_core/events/ingestors.py:13-20 | the last function registered under a name, which was registered under it, or none when the name never was |
| Registry.LastRegistrationWins | core/agent_core/events/ingestors.py:16-18 | registering again overwrites: each name holds its last registration, and unregistered names keep their starting entry |
| Registry.RegistryNames | core/agent_core/events/ingestors.py:11-20 | the registry's names are the starting ones and the registered ones |
| Registry.IngestorRegistry.Register | core/agent_core/events/ingestors.py:13-20 | the function is stored under its name, replacing any earlier one, and handed back unchanged |
| Registry.RegistryAfter | core/agent_core/events/ingestors.py:13-20 | the registry after a run of decorations, with no contract of its own; LastRegistrationWins and RegistryNames state its lookups and names, and RegisterAll is the method proved equal to it |
| Registry.IngestorRegistry.RegisterAll | core/agent_core/events/ingestors.py:13-20 | decorating in order gives `RegistryAfter` of the registrations |
| Registry.LoadedRegistry | core/agent_core/events/ingestors.py:37-387 | after loading, the registry holds the thirteen ingestors, each under the function defined with it |
| Registry.NamesDistinct | core/agent_core/events/ingestors.py:37-387 | each of the thirteen names is registered once |
| History.MaxMessages | core/agent_core/events/ingestors.py:195-196 | `max_messages` defaults to 10; only an integer or a boolean can be negated for the slice, anything else raises |
| History.TailStart | core/agent_core/events/ingestors.py:196 | `payload[-m:]` keeps the last `m` messages (all when there are fewer) for a positive `m`, everything for `0`, and drops the first `-m` for a negative `m` |
| History.ToolCallText | core/agent_core/events/ingestors.py:209-212 | a tool call is shown only when the call and its `function` are dictionaries |
| History.MessageEntry | core/agent_core/events/ingestors.py:200-216 | an entry exists only for a dictionary message with a string role |
| History.LogParts | core/agent_core/events/ingestors.py:198-221 | the parts exist exactly when every shown message has an entry |
| History.Summary | core/agent_core/events/ingestors.py:192-193 | a payload that is not a non-empty list gives the fixed no-activity log |
| History.FormatEntry | core/agent_core/events/ingestors.py:200-216 | the loop building one entry computes `MessageEntry` |
| History.FormatCalls | core/agent_core/events/ingestors.py:207-212 | the tool-call loop shows every call, or raises when one raises |
| History.SummarizeHistory | core/agent_core/events/ingestors.py:188-222 | the ingestor with its list of output parts computes `Summary` |
| History.FormatEntries | core/agent_core/events/ingestors.py:199-216 | the message loop shows every shown message, or raises when one raises |
| History.JoinEndsWith | core/agent_core/events/ingestors.py:221-222 | the joined text ends with the last part |
| History.LogPartsLayout | core/agent_core/events/ingestors.py:198-221 | the parts are the opening tag, one entry per shown message in order, the omission line when there is one, and the closing tag |
| History.Framed | core/agent_core/events/ingestors.py:198-221 | where each piece sits in the list of output parts |
| History.JoinedInTags | core/agent_core/events/ingestors.py:198-222 | the log starts with its opening tag and ends with its closing tag |
| History.JoinedBetween | core/agent_core/events/ingestors.py:222 | joined parts start with the first part and end with the last |
| History.SummaryTagged | core/agent_core/events/ingestors.py:195-222 | a summary is its parts joined by newlines inside the log tags, and a positive limit shows the last that many messages, or all when there are fewer |
| History.EntryClipsContent | core/agent_core/events/ingestors.py:200-204 | an entry shows the upper-cased role and the content clipped to 200 characters, with `...` when it was longer, and nothing more without tool calls |
| History.HeadLeads | core/agent_core/events/ingestors.py:204 | whatever follows it, the entry head starts with the role and the clipped content and is at most 203 characters longer than its prefix |
| History.ToolCallClipsArguments | core/agent_core/events/ingestors.py:209-212 | string arguments are clipped to 70 characters plus `...`; longer arguments of another kind raise |
| History.ZeroLimitShowsAllOmitsAll | core/agent_core/events/ingestors.py:195-219 | with `max_messages = 0` every message is shown and yet all of them are reported as omitted |
| History.ClampedStart | core/agent_core/events/ingestors.py:196 | a clamped limit shows the last `min(max(m, 0), len)` messages |
| History.ClampedSummary | core/agent_core/events/ingestors.py:192-193 | the corrected summary keeps the fixed text for an empty or non-list payload |
| History.ClampedSummaryAccounts | core/agent_core/events/ingestors.py:195-222 | with the clamped limit no more than `max(m, 0)` messages are shown, and the omission line appears only when some are hidden and counts exactly those |
| History.ClampedAgrees | core/agent_core/events/ingestors.py:195-222 | for a positive limit the corrected summary equals the ingestor's own |
| ClinicalTrials.StatusTableUppercase | core/agent_core/nodes/custom_nodes/clinical_trials_node.py:253-267 | every value of the status table is an upper-case API enum |
| ClinicalTrials.PhaseTableUppercase | core/agent_core/nodes/custom_nodes/clinical_trials_node.py:276-289 | every value of the phase table is an upper-case API enum |
| ClinicalTrials.TypeTableUppercase | core/agent_core/nodes/custom_nodes/clinical_trials_node.py:298-302 | every value of the study-type table is an upper-case API enum |
| ClinicalTrials.MapRecruitmentStatus | core/agent_core/nodes/custom_nodes/clinical_trials_node.py:248-269 | a mapped status never holds a lower-case letter, in the table or echoed |
| ClinicalTrials.MapStudyPhase | core/agent_core/nodes/custom_nodes/clinical_trials_node.py:271-291 | a mapped phase never holds a lower-case letter |
| ClinicalTrials.MapStudyType | core/agent_core/nodes/custom_nodes/clinical_trials_node.py:293-304 | a mapped study type never holds a lower-case letter |
| ClinicalTrials.StatusKeyNormalised | core/agent_core/nodes/custom_nodes/clinical_trials_node.py:251 | the status key has no spaces and no commas left |
| ClinicalTrials.PhaseKeyNormalised | core/agent_core/nodes/custom_nodes/clinical_trials_node.py:274 | the phase key has no spaces and no hyphens left |
| ClinicalTrials.MappingsIgnoreCase | core/agent_core/nodes/custom_nodes/clinical_trials_node.py:248-304 | two spellings that differ only in letter case map to the same status, phase and study type |
| ClinicalTrials.UnknownValuesEcho | core/agent_core/nodes/custom_nodes/clinical_trials_node.py:269 | a status, phase or type outside its table is echoed upper-cased |
| ClinicalTrials.StatusExample | core/agent_core/nodes/custom_nodes/clinical_trials_node.py:251-269 | "Active, not recruiting" loses its comma and maps to ACTIVE_NOT_RECRUITING |
| ClinicalTrials.PhaseSpacedExample | core/agent_core/nodes/custom_nodes/clinical_trials_node.py:274-291 | "Phase 1" maps to PHASE1 through its key phase_1 |
| ClinicalTrials.PhaseUnspacedExample | core/agent_core/nodes/custom_nodes/clinical_trials_node.py:274-291 | "phase1" maps to the same PHASE1 |
| ClinicalTrials.PhaseHyphenExample | core/agent_core/nodes/custom_nodes/clinical_trials_node.py:274-291 | a hyphen is normalised like a space: "Early-Phase 1" maps to EARLY_PHASE1 |
| ClinicalTrials.TypeSpacedExample | core/agent_core/nodes/custom_nodes/clinical_trials_node.py:296-304 | "Expanded Access" maps to EXPANDED_ACCESS |
| ClinicalTrials.TypeHyphenExample | core/agent_core/nodes/custom_nodes/clinical_trials_node.py:296-304 | a hyphen is not normalised in a study type, so "expanded-access" is echoed as EXPANDED-ACCESS |
| ClinicalTrials.MapStrings | core/agent_core/nodes/custom_nodes/clinical_trials_node.py:217 | mapping a list succeeds exactly when every item is a string, and maps each in order |
| ClinicalTrials.StatusFilter | core/agent_core/nodes/custom_nodes/clinical_trials_node.py:215-218 | an empty or missing status list adds no status filter |
| ClinicalTrials.PhaseFilterShape | core/agent_core/nodes/custom_nodes/clinical_trials_node.py:225-228 | a single phase is a bare AREA[Phase] term; several are an OR-group in parentheses |
| ClinicalTrials.Parenthesised | core/agent_core/nodes/custom_nodes/clinical_trials_node.py:228 | the parentheses keep the group's first term right after the opening one |
| ClinicalTrials.PhaseTerm | core/agent_core/nodes/custom_nodes/clinical_trials_node.py:223-229 | an empty or missing phase list adds no phase term |
| ClinicalTrials.TypeTerm | core/agent_core/nodes/custom_nodes/clinical_trials_node.py:231-234 | a non-empty study type other than any spelling of interventional adds its AREA[StudyType] term; an empty one adds nothing; a non-string raises |
| ClinicalTrials.InterventionalOmitted | core/agent_core/nodes/custom_nodes/clinical_trials_node.py:231 | every spelling of the default study type is left out of the filter |
| ClinicalTrials.AdvancedTerms | core/agent_core/nodes/custom_nodes/clinical_trials_node.py:221-234 | the phase term comes first and the study-type term last, each only when present |
| ClinicalTrials.AdvancedFilter | core/agent_core/nodes/custom_nodes/clinical_trials_node.py:236-238 | filter.advanced is absent exactly when neither term is present |
| ClinicalTrials.SortValue | core/agent_core/nodes/custom_nodes/clinical_trials_node.py:200-202 | sort is absent exactly when the field is empty, and is the bare field when the order is empty |
| ClinicalTrials.IfNonEmpty | core/agent_core/nodes/custom_nodes/clinical_trials_node.py:205-212 | a query term is set exactly when it is non-empty, to its text |
| ClinicalTrials.AsJsonText | core/agent_core/nodes/custom_nodes/clinical_trials_node.py:218 | a status filter is set exactly when there is one |
| ClinicalTrials.Entry | core/agent_core/nodes/custom_nodes/clinical_trials_node.py:200-238 | a guarded assignment adds its pair only when there is a value |
| ClinicalTrials.PresentSnoc | core/agent_core/nodes/custom_nodes/clinical_trials_node.py:200-238 | one more guarded assignment adds at most one pair, at the end |
| ClinicalTrials.AssignIf | core/agent_core/nodes/custom_nodes/clinical_trials_node.py:201-238 | assigning a new key appends its pair when there is a value |
| ClinicalTrials.PresentLookup | core/agent_core/nodes/custom_nodes/clinical_trials_node.py:194-240 | a set key is found with its value; an unset or unknown key is not found |
| ClinicalTrials.FindKeyAppendFront | core/agent_core/nodes/custom_nodes/clinical_trials_node.py:194-240 | an entry under another key does not change a lookup |
| ClinicalTrials.PresentUnique | core/agent_core/nodes/custom_nodes/clinical_trials_node.py:194-240 | the built parameters hold no key twice |
| ClinicalTrials.ParamSlots | core/agent_core/nodes/custom_nodes/clinical_trials_node.py:194-238 | the builder has ten assignments |
| ClinicalTrials.QuerySlots | core/agent_core/nodes/custom_nodes/clinical_trials_node.py:194-212 | eight of them are the fixed keys, the sort and the four query terms |
| ClinicalTrials.ParamSlotsKeys | core/agent_core/nodes/custom_nodes/clinical_trials_node.py:194-238 | the ten assignments name ten distinct known keys |
| ClinicalTrials.SearchParamsLookup | core/agent_core/nodes/custom_nodes/clinical_trials_node.py:190-240 | pageSize, countTotal and format are always set; every other key is set exactly when its input is present; no other key appears and none twice |
| ClinicalTrials.BuildSearchParams | core/agent_core/nodes/custom_nodes/clinical_trials_node.py:190-240 | the builder raises exactly when a status, phase or type cannot be mapped, and otherwise fills the keys in the order of `ParamSlots` |
| ClinicalTrials.QueryParams | core/agent_core/nodes/custom_nodes/clinical_trials_node.py:194-212 | the first eight assignments fill the pairs of `QuerySlots` under eight known keys |
| ClinicalTrials.PageSizeBounded | core/agent_core/nodes/custom_nodes/clinical_trials_node.py:103 | the page size sent is never more than 1000 |
| ClinicalTrials.Pairs | core/agent_core/nodes/custom_nodes/clinical_trials_node.py:246 | each pair is rendered as key=value in order |
| ClinicalTrials.CacheUri | core/agent_core/nodes/custom_nodes/clinical_trials_node.py:129 | the cache key is under clinical_trials:// |
| ClinicalTrials.CacheKey | core/agent_core/nodes/custom_nodes/clinical_trials_node.py:242-246 | the cache key, with no contract of its own; CacheKeyOfSorted gives its form and CacheKeyIgnoresOrder shows it does not depend on insertion order |
| ClinicalTrials.CacheKeyIgnoresOrder | core/agent_core/nodes/custom_nodes/clinical_trials_node.py:242-246 | parameters with the same pairs in any insertion order give the same cache key |
| ClinicalTrials.CacheKeyOfSorted | core/agent_core/nodes/custom_nodes/clinical_trials_node.py:245-246 | parameters already in key order are rendered in that order, joined by underscores |
| ClinicalTrials.ClippedField | core/agent_core/nodes/custom_nodes/clinical_trials_node.py:387 | a missing field reads as empty, and a string field is cut to its limit plus `...` |
| ClinicalTrials.InterventionRecord | core/agent_core/nodes/custom_nodes/clinical_trials_node.py:384-388 | an intervention is read exactly when it is a dictionary whose description can be cut; its name and type are the given ones (default `""`) and its description is the given one cut to 200 characters and "..." |
| ClinicalTrials.LocationRecord | core/agent_core/nodes/custom_nodes/clinical_trials_node.py:404-410 | a location is read exactly when it is a dictionary; its facility, city, state, country and status are the given ones, `""` when missing |
| ClinicalTrials.LocationEntries | core/agent_core/nodes/custom_nodes/clinical_trials_node.py:404-410 | a location record lists facility, city, state, country and status, in that order |
| ClinicalTrials.LocationLookups | core/agent_core/nodes/custom_nodes/clinical_trials_node.py:404-410 | each of the five location keys reads back the value assigned to it |
| ClinicalTrials.FirstRecords | core/agent_core/nodes/custom_nodes/clinical_trials_node.py:382-390 | a falsy list gives no records; otherwise the first `limit` items are read in order and reading fails when one fails |
| ClinicalTrials.ReadStudy | core/agent_core/nodes/custom_nodes/clinical_trials_node.py:350-437 | a study read has a truthy NCT id, at most five interventions and at most ten locations |
| ClinicalTrials.Identify | core/agent_core/nodes/custom_nodes/clinical_trials_node.py:353-363 | a study is identified only with a truthy NCT id |
| ClinicalTrials.ReadSections | core/agent_core/nodes/custom_nodes/clinical_trials_node.py:366-416 | the modules keep the NCT id and title; the interventions are the records of the first five given and the locations those of the first ten, in order; the criteria are cut to 500 characters |
| ClinicalTrials.StudyJson | core/agent_core/nodes/custom_nodes/clinical_trials_node.py:418-437 | the normalised record has its thirteen keys in order |
| ClinicalTrials.ProcessSingleStudy | core/agent_core/nodes/custom_nodes/clinical_trials_node.py:350-441 | one study normalised, with no contract of its own; ProcessSingleStudyForm, StudySkipped and MinimalStudy state when a record is made and what a minimal study gives |
| ClinicalTrials.ProcessSingleStudyForm | core/agent_core/nodes/custom_nodes/clinical_trials_node.py:350-441 | a record comes back exactly when reading the study neither raises nor skips it, and it is that study's normalised record |
| ClinicalTrials.StudySkipped | core/agent_core/nodes/custom_nodes/clinical_trials_node.py:353-363 | a study without a protocol section or without an NCT id is skipped |
| ClinicalTrials.SectionDefaults | core/agent_core/nodes/custom_nodes/clinical_trials_node.py:366-416 | missing modules read as their documented defaults |
| ClinicalTrials.MinimalRead | core/agent_core/nodes/custom_nodes/clinical_trials_node.py:350-416 | a study that only names its NCT id is read with every default |
| ClinicalTrials.MinimalStudy | core/agent_core/nodes/custom_nodes/clinical_trials_node.py:350-437 | a study that only names its NCT id gets the record with every default |
| ClinicalTrials.StudyKeysUnique | core/agent_core/nodes/custom_nodes/clinical_trials_node.py:418-437 | the record holds no key twice |
| ClinicalTrials.StudyUrls | core/agent_core/nodes/custom_nodes/clinical_trials_node.py:419-436 | both links are built from the NCT id |
| ClinicalTrials.TrialResultsJson | core/agent_core/nodes/custom_nodes/clinical_trials_node.py:338-348 | the result set has its five keys in order, counting and listing the kept studies |
| ClinicalTrials.StudyItems | core/agent_core/nodes/custom_nodes/clinical_trials_node.py:322-326 | the studies can be iterated exactly when the reply is a dictionary whose studies are a sequence |
| ClinicalTrials.ProcessTrialResults | core/agent_core/nodes/custom_nodes/clinical_trials_node.py:320-348 | every study is normalised in order, skipped or failing ones are dropped, and totalCount defaults to the number of studies |
| ClinicalTrials.ReadTrialsRequest | core/agent_core/nodes/custom_nodes/clinical_trials_node.py:92-105 | the tool parameters are read with their documented defaults, and reading fails exactly when a text is not a string or max_results cannot be compared with 1000 |
| ClinicalTrials.SearchParamsOf | core/agent_core/nodes/custom_nodes/clinical_trials_node.py:122-125 | building the parameters raises exactly when a status, phase or type cannot be mapped |
| ClinicalTrials.CachedReply | core/agent_core/nodes/custom_nodes/clinical_trials_node.py:135-142 | a cache hit returns the cached content with source set to knowledge_base_cache |
| ClinicalTrials.FetchFailure | core/agent_core/nodes/custom_nodes/clinical_trials_node.py:306-318 | status 429 is the rate-limit failure; any other status but 200 reports the status and the body; 200 fails only when the body is not JSON |
| ClinicalTrials.NoTrialsPayload | core/agent_core/nodes/custom_nodes/clinical_trials_node.py:148-156 | a reply without studies reports zero results and an empty list |
| ClinicalTrials.KnowledgeItem | core/agent_core/nodes/custom_nodes/clinical_trials_node.py:164-175 | the knowledge item carries the result set and the cache URI |
| ClinicalTrials.KnowledgeItems | core/agent_core/nodes/custom_nodes/clinical_trials_node.py:162-175 | there is one knowledge item when studies were kept, none otherwise |
| ClinicalTrials.TrialsReply | core/agent_core/nodes/custom_nodes/clinical_trials_node.py:147-181 | the reply after a fetched response, with no contract of its own; FinishSearch is the method proved equal to it and KnowledgeItemIffStudies states when a knowledge item is made |
| ClinicalTrials.FinishSearch | core/agent_core/nodes/custom_nodes/clinical_trials_node.py:147-181 | the tail of the call computes `TrialsReply` |
| ClinicalTrials.SearchReply | core/agent_core/nodes/custom_nodes/clinical_trials_node.py:84-188 | the whole connector call, with no contract of its own; SearchTrials is the method proved equal to it, and SentPageSizeCapped and NoTermsNoEffects state its effects |
| ClinicalTrials.SearchTrials | core/agent_core/nodes/custom_nodes/clinical_trials_node.py:84-188 | the whole call computes `SearchReply`, with its store lookup and request as effects |
| ClinicalTrials.CacheOrFetch | core/agent_core/nodes/custom_nodes/clinical_trials_node.py:127-181 | the cache-then-fetch step, with no contract of its own; ConsultAndFetch is the method proved equal to it, and SentRequest, CacheHitSkipsRequest and RequestFailureReported state its effects and failures |
| ClinicalTrials.ConsultAndFetch | core/agent_core/nodes/custom_nodes/clinical_trials_node.py:127-181 | the cache-then-fetch part computes `CacheOrFetch` |
| ClinicalTrials.ParamsPageSize | core/agent_core/nodes/custom_nodes/clinical_trials_node.py:195 | the built parameters carry the request's page size |
| ClinicalTrials.RequestPageSizeCapped | core/agent_core/nodes/custom_nodes/clinical_trials_node.py:103 | the page size read from the tool parameters is capped at 1000 |
| ClinicalTrials.SentRequest | core/agent_core/nodes/custom_nodes/clinical_trials_node.py:145 | the only request sent is the studies query with the built parameters |
| ClinicalTrials.SentPageSizeCapped | core/agent_core/nodes/custom_nodes/clinical_trials_node.py:84-188 | every request sent goes to the studies endpoint with a page size of at most 1000 |
| ClinicalTrials.NoTermsNoEffects | core/agent_core/nodes/custom_nodes/clinical_trials_node.py:107-112 | with all search terms empty the call fails before any store lookup or request |
| ClinicalTrials.CacheHitSkipsRequest | core/agent_core/nodes/custom_nodes/clinical_trials_node.py:127-145 | with a knowledge base the first effect is the cache lookup; a request is sent exactly when it misses; a hit returns the cached content |
| ClinicalTrials.RequestFailureReported | core/agent_core/nodes/custom_nodes/clinical_trials_node.py:183-188 | a rate-limited or failed request is reported with its status and text |
| ClinicalTrials.KnowledgeItemIffStudies | core/agent_core/nodes/custom_nodes/clinical_trials_node.py:159-181 | a successful fetch carries a knowledge item exactly when some studies were kept, pointing at the cache URI |
| ClinicalTrials.ResultsItems | core/agent_core/nodes/custom_nodes/clinical_trials_node.py:159-181 | the result set lists its studies, and the knowledge item is present exactly when there are some |
| NcbiSearch.PubFilter | core/agent_core/nodes/custom_nodes/ncbi_search_node.py:180-190 | a listed publication type gives its [ptyp] filter and is the only kind that does; an unhashable type raises |
| NcbiSearch.TypeGroup | core/agent_core/nodes/custom_nodes/ncbi_search_node.py:179-192 | no types give no group; a group is always parenthesised |
| NcbiSearch.DateTerm | core/agent_core/nodes/custom_nodes/ncbi_search_node.py:195-203 | an empty range gives no date term; a truthy range that is not a dictionary raises; a date term ends in [pdat] |
| NcbiSearch.DateTermBoth | core/agent_core/nodes/custom_nodes/ncbi_search_node.py:198-199 | both years give start:end[pdat] |
| NcbiSearch.DateTermStartOnly | core/agent_core/nodes/custom_nodes/ncbi_search_node.py:200-201 | a start year alone is open up to 3000 |
| NcbiSearch.DateTermEndOnly | core/agent_core/nodes/custom_nodes/ncbi_search_node.py:202-203 | an end year alone starts at 1900 |
| NcbiSearch.DateTermNeither | core/agent_core/nodes/custom_nodes/ncbi_search_node.py:196-203 | a range with neither year gives no date term |
| NcbiSearch.SearchParts | core/agent_core/nodes/custom_nodes/ncbi_search_node.py:176-203 | the query comes first, followed by the group and the date when present |
| NcbiSearch.SearchTerm | core/agent_core/nodes/custom_nodes/ncbi_search_node.py:174-205 | building the term raises exactly when the type group or the date term does |
| NcbiSearch.SearchTermStartsWithQuery | core/agent_core/nodes/custom_nodes/ncbi_search_node.py:176-205 | the term starts with the query, and without filters it is the query itself |
| NcbiSearch.BuildSearchQuery | core/agent_core/nodes/custom_nodes/ncbi_search_node.py:174-205 | building the list of parts computes `SearchTerm` |
| NcbiSearch.NonEmptyText | core/agent_core/nodes/custom_nodes/ncbi_search_node.py:230 | an element is kept exactly when its text is present and non-empty, as that text |
| NcbiSearch.NonEmptyTexts | core/agent_core/nodes/custom_nodes/ncbi_search_node.py:228-231 | the appending loop keeps the non-empty texts in order |
| NcbiSearch.NonEmptyTextsMembers | core/agent_core/nodes/custom_nodes/ncbi_search_node.py:228-231 | a text is kept exactly when it is non-empty and some element carries it |
| NcbiSearch.ExtractPmids | core/agent_core/nodes/custom_nodes/ncbi_search_node.py:227-233 | the PMIDs are the non-empty Id texts in document order |
| NcbiSearch.AuthorName | core/agent_core/nodes/custom_nodes/ncbi_search_node.py:288-294 | an author without LastName is skipped; one with a last-name text is that text followed by ", " and the first name when there is one |
| NcbiSearch.CollectAuthors | core/agent_core/nodes/custom_nodes/ncbi_search_node.py:284-294 | the author loop computes the names of the authors that have one, or raises when one raises |
| NcbiSearch.DoiIndex | core/agent_core/nodes/custom_nodes/ncbi_search_node.py:322-325 | the position found is the first DOI id, and there is none exactly when no id is a DOI |
| NcbiSearch.DoiOf | core/agent_core/nodes/custom_nodes/ncbi_search_node.py:319-325 | the DOI is the first DOI id's text, or empty when there is none |
| NcbiSearch.FindDoi | core/agent_core/nodes/custom_nodes/ncbi_search_node.py:319-325 | the scan that stops at the first DOI id computes `DoiOf` |
| NcbiSearch.DoiIndexAt | core/agent_core/nodes/custom_nodes/ncbi_search_node.py:322-325 | the first DOI id is found at its position |
| NcbiSearch.DoiIndexNone | core/agent_core/nodes/custom_nodes/ncbi_search_node.py:322-325 | without a DOI id none is found |
| NcbiSearch.TextOr | core/agent_core/nodes/custom_nodes/ncbi_search_node.py:273 | a missing element reads as the default, a present one as its text |
| NcbiSearch.PubDateString | core/agent_core/nodes/custom_nodes/ncbi_search_node.py:301-309 | without a PubDate or a Year the date is "Unknown date" |
| NcbiSearch.AuthorElements | core/agent_core/nodes/custom_nodes/ncbi_search_node.py:285-287 | without an AuthorList there are no authors |
| NcbiSearch.AbstractOf | core/agent_core/nodes/custom_nodes/ncbi_search_node.py:312-316 | no abstract when abstracts are not wanted or there is none |
| NcbiSearch.IdElements | core/agent_core/nodes/custom_nodes/ncbi_search_node.py:320-322 | without an ArticleIdList there are no ids |
| NcbiSearch.TypeElements | core/agent_core/nodes/custom_nodes/ncbi_search_node.py:329-331 | without a PublicationTypeList there are no types |
| NcbiSearch.ReadArticle | core/agent_core/nodes/custom_nodes/ncbi_search_node.py:268-277 | an article without MedlineCitation or without Article is skipped |
| NcbiSearch.ArticleFields | core/agent_core/nodes/custom_nodes/ncbi_search_node.py:272-333 | a read article has the documented defaults, the first DOI and the non-empty publication types in document order |
| NcbiSearch.DoiUrl | core/agent_core/nodes/custom_nodes/ncbi_search_node.py:345 | the DOI link is empty exactly when the DOI is, and otherwise ends with the DOI |
| NcbiSearch.ArticleJson | core/agent_core/nodes/custom_nodes/ncbi_search_node.py:335-346 | the record has its ten keys in order, lists at most the first ten authors and links the PMID and the DOI |
| NcbiSearch.ArticleOfForm | core/agent_core/nodes/custom_nodes/ncbi_search_node.py:265-349 | an article is kept exactly when reading it neither skips it nor raises, as its truthy record |
| NcbiSearch.AuthorsKept | core/agent_core/nodes/custom_nodes/ncbi_search_node.py:286-294 | when every author has a last name, every author is kept |
| NcbiSearch.ArticleOf | core/agent_core/nodes/custom_nodes/ncbi_search_node.py:265-349 | one PubMed article read, with no contract of its own; ArticleOfForm states when it is kept and ParseArticle is the method proved equal to it |
| NcbiSearch.ParseArticle | core/agent_core/nodes/custom_nodes/ncbi_search_node.py:265-349 | the parser with its loops computes `ArticleOf` |
| NcbiSearch.CollectArticles | core/agent_core/nodes/custom_nodes/ncbi_search_node.py:257-263 | the article loop keeps, in document order, every article that parses |
| NcbiSearch.KeepArticle | core/agent_core/nodes/custom_nodes/ncbi_search_node.py:259-261 | a parsed article is appended when there is one |
| NcbiSearch.ReadPubmedRequest | core/agent_core/nodes/custom_nodes/ncbi_search_node.py:72-79 | the parameters are read with their defaults, the query stripped and max_results capped at 100 |
| NcbiSearch.SearchCacheUri | core/agent_core/nodes/custom_nodes/ncbi_search_node.py:95 | the cache key starts with ncbi_search:// and the query |
| NcbiSearch.ESearchParams | core/agent_core/nodes/custom_nodes/ncbi_search_node.py:209-215 | the esearch query carries the term and max_results as text |
| NcbiSearch.EFetchParams | core/agent_core/nodes/custom_nodes/ncbi_search_node.py:240-245 | the efetch query joins the PMIDs with commas and asks for abstracts only when they are wanted |
| NcbiSearch.CachedPayload | core/agent_core/nodes/custom_nodes/ncbi_search_node.py:101-111 | a cache hit rebuilds the payload with source knowledge_base_cache, and raises when the content is not a dictionary |
| NcbiSearch.NoArticlesPayload | core/agent_core/nodes/custom_nodes/ncbi_search_node.py:120-128 | no PMIDs give zero results and no articles |
| NcbiSearch.SearchResultsJson | core/agent_core/nodes/custom_nodes/ncbi_search_node.py:134-145 | the result set counts and lists the articles |
| NcbiSearch.SearchKnowledgeItem | core/agent_core/nodes/custom_nodes/ncbi_search_node.py:150-159 | the knowledge item carries the result set and the cache URI |
| NcbiSearch.FetchedArticles | core/agent_core/nodes/custom_nodes/ncbi_search_node.py:235-263 | the efetch and assembly, with no contract of its own; FetchDetails is the method proved equal to it |
| NcbiSearch.FetchDetails | core/agent_core/nodes/custom_nodes/ncbi_search_node.py:235-263 | the efetch step and the result assembly compute `FetchedArticles` |
| NcbiSearch.SearchAndFetch | core/agent_core/nodes/custom_nodes/ncbi_search_node.py:113-165 | the steps after a cache miss, with no contract of its own; RunSearch is the method proved equal to it, and RequestsInOrder and CacheHitSkipsRequest state its requests |
| NcbiSearch.RunSearch | core/agent_core/nodes/custom_nodes/ncbi_search_node.py:113-165 | the steps after a cache miss compute `SearchAndFetch` |
| NcbiSearch.PubmedReply | core/agent_core/nodes/custom_nodes/ncbi_search_node.py:64-172 | the whole connector call, with no contract of its own; SearchPubmed is the method proved equal to it, and EmptyQueryNoEffects and QueryConsultsCache state its effects |
| NcbiSearch.SearchPubmed | core/agent_core/nodes/custom_nodes/ncbi_search_node.py:64-172 | the whole call computes `PubmedReply`, with its store lookup and requests as effects |
| NcbiSearch.EmptyQueryNoEffects | core/agent_core/nodes/custom_nodes/ncbi_search_node.py:81-85 | an empty query fails before any store lookup or request |
| NcbiSearch.RetmaxCapped | core/agent_core/nodes/custom_nodes/ncbi_search_node.py:76 | esearch is asked for at most 100 records |
| NcbiSearch.CacheOrSearch | core/agent_core/nodes/custom_nodes/ncbi_search_node.py:96-165 | the cache consultation and miss path, with no contract of its own; CacheHitSkipsRequest states what a hit and a miss do |
| NcbiSearch.QueryConsultsCache | core/agent_core/nodes/custom_nodes/ncbi_search_node.py:75-96 | a request that reads and has a non-empty query goes on to the cache and the search |
| NcbiSearch.CacheHitSkipsRequest | core/agent_core/nodes/custom_nodes/ncbi_search_node.py:96-111 | with a store the cache is looked up first; a hit is returned rebuilt from the cached content with no request, and a miss makes the search's requests, esearch first |
| NcbiSearch.RequestsInOrder | core/agent_core/nodes/custom_nodes/ncbi_search_node.py:113-131 | after a cache miss, the first request is esearch with the built term, and efetch with the found PMIDs follows exactly when some were found |
| NcbiSearch.KnowledgeItemIffArticles | core/agent_core/nodes/custom_nodes/ncbi_search_node.py:134-165 | a knowledge item is offered exactly when some article was read, pointing at the cache URI, and total_results counts the articles |
| NcbiFetch.ArticleUri | core/agent_core/nodes/custom_nodes/ncbi_fetch_node.py:118 | the article cache key, with no contract of its own; ArticleUriInjective shows distinct PMIDs get distinct keys and ItemUriIsCacheKey that items use the lookup key |
| NcbiFetch.ArticleUriInjective | core/agent_core/nodes/custom_nodes/ncbi_fetch_node.py:118 | the article key is the PMID between the ncbi_article:// scheme and the _detailed suffix, so different PMIDs have different keys |
| NcbiFetch.ReadFetchRequest | core/agent_core/nodes/custom_nodes/ncbi_fetch_node.py:74-78 | a truthy pmid replaces the pmids list; MeSH terms and grants are on and references off by default |
| NcbiFetch.ValidPmid | core/agent_core/nodes/custom_nodes/ncbi_fetch_node.py:89-91 | a PMID is kept exactly when its stripped text is all digits, as that text |
| NcbiFetch.ValidatePmids | core/agent_core/nodes/custom_nodes/ncbi_fetch_node.py:87-93 | the validation loop keeps the stripped numeric PMIDs in order |
| NcbiFetch.ValidPmidsNumeric | core/agent_core/nodes/custom_nodes/ncbi_fetch_node.py:87-93 | the valid PMIDs are never more than the inputs and are exactly the stripped inputs that are numeric |
| NcbiFetch.CacheStep | core/agent_core/nodes/custom_nodes/ncbi_fetch_node.py:118-124 | a PMID misses exactly when the store holds nothing truthy under its key, and raises when the stored item is not a dictionary |
| NcbiFetch.SplitStep | core/agent_core/nodes/custom_nodes/ncbi_fetch_node.py:117-124 | once the loop has raised nothing happens; otherwise the PMID's key is looked up |
| NcbiFetch.LookupsAt | core/agent_core/nodes/custom_nodes/ncbi_fetch_node.py:117-119 | the i-th lookup is of the i-th PMID's key |
| NcbiFetch.LookupsLength | core/agent_core/nodes/custom_nodes/ncbi_fetch_node.py:117-119 | there is one lookup per PMID |
| NcbiFetch.SplitStepOk | core/agent_core/nodes/custom_nodes/ncbi_fetch_node.py:120-124 | a PMID goes to exactly one of the two lists |
| NcbiFetch.SplitRunOk | core/agent_core/nodes/custom_nodes/ncbi_fetch_node.py:116-124 | the misses in order are the PMIDs to fetch, the hits' contents in order are the cached articles, and together they account for every PMID |
| NcbiFetch.SplitRunLookups | core/agent_core/nodes/custom_nodes/ncbi_fetch_node.py:116-119 | every PMID is looked up once, in order |
| NcbiFetch.SplitPartition | core/agent_core/nodes/custom_nodes/ncbi_fetch_node.py:116-124 | a valid PMID is fetched exactly when the store has nothing truthy under its key |
| NcbiFetch.SplitRunStops | core/agent_core/nodes/custom_nodes/ncbi_fetch_node.py:116-124 | once an item cannot be read, the rest of the loop does not run |
| NcbiFetch.SplitRun | core/agent_core/nodes/custom_nodes/ncbi_fetch_node.py:116-124 | the cache loop, with no contract of its own; SplitRunOk, SplitRunLookups, SplitPartition and SplitRunStops state its result, and SplitCache is the method proved equal to it |
| NcbiFetch.SplitCache | core/agent_core/nodes/custom_nodes/ncbi_fetch_node.py:116-124 | the cache loop computes `SplitRun` |
| NcbiFetch.Consult | core/agent_core/nodes/custom_nodes/ncbi_fetch_node.py:116-126 | without a store every valid PMID is fetched and nothing is looked up |
| NcbiFetch.EFetchDetailedParams | core/agent_core/nodes/custom_nodes/ncbi_fetch_node.py:193-198 | the efetch query joins the PMIDs with commas and asks for the full records |
| NcbiFetch.FetchEffects | core/agent_core/nodes/custom_nodes/ncbi_fetch_node.py:130-133 | one request is made exactly when some PMID is to be fetched |
| NcbiFetch.FetchDetailed | core/agent_core/nodes/custom_nodes/ncbi_fetch_node.py:187-218 | nothing to fetch gives no articles; a status other than 200 fails with the status; otherwise every PubmedArticle that can be read is returned in order |
| NcbiFetch.FetchDetailedArticles | core/agent_core/nodes/custom_nodes/ncbi_fetch_node.py:187-218 | the status check, the parse and the article loop compute `FetchDetailed` |
| NcbiFetch.ArticleItem | core/agent_core/nodes/custom_nodes/ncbi_fetch_node.py:151-163 | an article without a truthy pmid gives no knowledge item; an item holds the article under its PMID's article key, and its metadata title is the article title cut to 100 characters; with a pmid the item is built exactly when that cut succeeds |
| NcbiFetch.NoArticlesPayload | core/agent_core/nodes/custom_nodes/ncbi_fetch_node.py:138-147 | no articles give the requested PMIDs, zero found and an empty list |
| NcbiFetch.ArticlesPayload | core/agent_core/nodes/custom_nodes/ncbi_fetch_node.py:165-176 | the payload lists the cached articles then the fetched ones, and counts them |
| NcbiFetch.ArticlesReply | core/agent_core/nodes/custom_nodes/ncbi_fetch_node.py:136-178 | no articles give the no-articles payload; otherwise the articles with a knowledge item per fetched article with a PMID, failing when an item cannot be made |
| NcbiFetch.AssembleReply | core/agent_core/nodes/custom_nodes/ncbi_fetch_node.py:136-178 | the knowledge-item loop and the assembly compute `ArticlesReply` |
| NcbiFetch.FetchAndAssemble | core/agent_core/nodes/custom_nodes/ncbi_fetch_node.py:128-136 | the request made after the split is the fetch of the misses |
| NcbiFetch.Validate | core/agent_core/nodes/custom_nodes/ncbi_fetch_node.py:74-99 | an accepted request has some valid PMID; a rejected one fails with one of the documented messages |
| NcbiFetch.ValidateRequest | core/agent_core/nodes/custom_nodes/ncbi_fetch_node.py:70-99 | the checks with the validation loop compute `Validate` |
| NcbiFetch.ConsultStore | core/agent_core/nodes/custom_nodes/ncbi_fetch_node.py:111-126 | the store consultation computes `Consult` |
| NcbiFetch.FetchAndReply | core/agent_core/nodes/custom_nodes/ncbi_fetch_node.py:128-178 | the fetch and the reply compute `FetchAndAssemble` |
| NcbiFetch.ValidReply | core/agent_core/nodes/custom_nodes/ncbi_fetch_node.py:101-178 | the steps after validation, with no contract of its own; RunFetch is the method proved equal to it, and NoStoreFetchesAll and StoreEffectsInOrder state its effects |
| NcbiFetch.RunFetch | core/agent_core/nodes/custom_nodes/ncbi_fetch_node.py:101-178 | the steps after validation compute `ValidReply` |
| NcbiFetch.FetchReply | core/agent_core/nodes/custom_nodes/ncbi_fetch_node.py:62-185 | the whole connector call, with no contract of its own; FetchArticles is the method proved equal to it and RejectedNoEffects states that a rejection has no effect |
| NcbiFetch.FetchArticles | core/agent_core/nodes/custom_nodes/ncbi_fetch_node.py:62-185 | the whole call computes `FetchReply`, with its lookups and request as effects |
| NcbiFetch.RejectedNoEffects | core/agent_core/nodes/custom_nodes/ncbi_fetch_node.py:80-99 | a rejected request makes no lookup and no request |
| NcbiFetch.NoPmidsNoEffects | core/agent_core/nodes/custom_nodes/ncbi_fetch_node.py:80-84 | no PMID at all is rejected with its message |
| NcbiFetch.InvalidPmidsNoEffects | core/agent_core/nodes/custom_nodes/ncbi_fetch_node.py:95-99 | a list with no numeric PMID is rejected with its message |
| NcbiFetch.SinglePmidReplacesList | core/agent_core/nodes/custom_nodes/ncbi_fetch_node.py:74-99 | a truthy single pmid is the whole request, accepted stripped when numeric and rejected otherwise |
| NcbiFetch.NoStoreFetchesAll | core/agent_core/nodes/custom_nodes/ncbi_fetch_node.py:125-133 | without a store every valid PMID is fetched in one request, and no lookup is made |
| NcbiFetch.StoreEffectsInOrder | core/agent_core/nodes/custom_nodes/ncbi_fetch_node.py:116-133 | with a store: one lookup per valid PMID in order, then one efetch for the misses when there are any |
| NcbiFetch.ArticlesFoundCount | core/agent_core/nodes/custom_nodes/ncbi_fetch_node.py:136-178 | articles are the cached ones followed by the fetched ones, articles_found counts them, and knowledge items come only with some article |
| NcbiFetch.ItemsFromFetched | core/agent_core/nodes/custom_nodes/ncbi_fetch_node.py:149-163 | knowledge items come only from fetched articles with a truthy PMID, under that PMID's key, never more than the fetched articles |
| NcbiFetch.ItemUriIsCacheKey | core/agent_core/nodes/custom_nodes/ncbi_fetch_node.py:118-156 | a fetched record is offered under the key the store is consulted with for its PMID |
| NcbiArticle.FoundText | core/agent_core/nodes/custom_nodes/ncbi_fetch_node.py:351-352 | a field is assigned exactly when its element was found |
| NcbiArticle.NameFields | core/agent_core/nodes/custom_nodes/ncbi_fetch_node.py:317-332 | no name fields without a last name; otherwise the last name and the full name "Last, First", else "Last, Initials", else "Last"; extending a missing last-name text raises |
| NcbiArticle.AuthorFields | core/agent_core/nodes/custom_nodes/ncbi_fetch_node.py:315-339 | an author's dictionary is empty exactly when it has neither a last name nor an affiliation |
| NcbiArticle.AuthorRecordFields | core/agent_core/nodes/custom_nodes/ncbi_fetch_node.py:314-340 | an author is kept exactly when it has a last name or an affiliation, raises exactly when a missing last-name text must be extended, and carries its full name |
| NcbiArticle.ParseAuthors | core/agent_core/nodes/custom_nodes/ncbi_fetch_node.py:309-342 | the author loop keeps every kept author in order, with no cap |
| NcbiArticle.AllAuthorsListed | core/agent_core/nodes/custom_nodes/ncbi_fetch_node.py:309-342 | when every author has a last name with text, every author is listed |
| NcbiArticle.JournalAssignments | core/agent_core/nodes/custom_nodes/ncbi_fetch_node.py:349-369 | the journal assignments name distinct keys |
| NcbiArticle.JournalFieldsFound | core/agent_core/nodes/custom_nodes/ncbi_fetch_node.py:349-369 | each journal field is present exactly when its element exists, holding its text; the ISSN type defaults to empty |
| NcbiArticle.JournalInfo | core/agent_core/nodes/custom_nodes/ncbi_fetch_node.py:344-371 | without a Journal the journal dictionary is empty |
| NcbiArticle.ZFillText | core/agent_core/nodes/custom_nodes/ncbi_fetch_node.py:389 | padding succeeds exactly when the text exists, and pads it |
| NcbiArticle.ArticleDateFields | core/agent_core/nodes/custom_nodes/ncbi_fetch_node.py:379-393 | article_date is Y, Y-MM or Y-MM-DD, the day counting only after a month; nothing without a year; a missing text that must be padded or extended raises |
| NcbiArticle.JournalDateFields | core/agent_core/nodes/custom_nodes/ncbi_fetch_node.py:397-404 | journal_date is Y or "Y M"; nothing without a year; extending a missing year text raises |
| NcbiArticle.ArticleDateInfo | core/agent_core/nodes/custom_nodes/ncbi_fetch_node.py:378-393 | without an ArticleDate nothing is added |
| NcbiArticle.JournalDateInfo | core/agent_core/nodes/custom_nodes/ncbi_fetch_node.py:396-404 | without a PubDate nothing is added |
| NcbiArticle.PubDateInfo | core/agent_core/nodes/custom_nodes/ncbi_fetch_node.py:373-406 | without either date the dictionary is empty |
| NcbiArticle.AbstractTexts | core/agent_core/nodes/custom_nodes/ncbi_fetch_node.py:412-414 | without an Abstract there are no abstract texts |
| NcbiArticle.AbstractPartForm | core/agent_core/nodes/custom_nodes/ncbi_fetch_node.py:421-431 | a labelled part is "Label: text", an unlabelled one the text itself |
| NcbiArticle.SectionOf | core/agent_core/nodes/custom_nodes/ncbi_fetch_node.py:424-428 | a part becomes a section exactly when it has a label |
| NcbiArticle.AbstractParts | core/agent_core/nodes/custom_nodes/ncbi_fetch_node.py:420-431 | one part per AbstractText, in order |
| NcbiArticle.AbstractInfo | core/agent_core/nodes/custom_nodes/ncbi_fetch_node.py:410-436 | without abstract texts the abstract is the empty text with no sections |
| NcbiArticle.ParseAbstract | core/agent_core/nodes/custom_nodes/ncbi_fetch_node.py:408-436 | the abstract loop computes `AbstractInfo` |
| NcbiArticle.AbstractStep | core/agent_core/nodes/custom_nodes/ncbi_fetch_node.py:420-431 | one turn of the loop appends one part, and a section when labelled |
| NcbiArticle.SectionsAreLabelled | core/agent_core/nodes/custom_nodes/ncbi_fetch_node.py:416-434 | the sections are exactly the labelled parts, never more than the abstract texts |
| NcbiArticle.IdStepKeeps | core/agent_core/nodes/custom_nodes/ncbi_fetch_node.py:445-454 | an id leaves alone every key other than its type and the link it adds |
| NcbiArticle.IdsLastKeeps | core/agent_core/nodes/custom_nodes/ncbi_fetch_node.py:444-454 | the last id leaves alone every key other than its type and its link |
| NcbiArticle.IdsLastLink | core/agent_core/nodes/custom_nodes/ncbi_fetch_node.py:451-454 | the last id adds its DOI or PMC link |
| NcbiArticle.IdsOf | core/agent_core/nodes/custom_nodes/ncbi_fetch_node.py:438-456 | the id loop, with no contract of its own; IdsLastValue, IdsLastKeeps, IdsLastLink and the IdsDoiUrl/IdsPmcUrl lemmas state its result, and ParseArticleIds is the method proved equal to it |
| NcbiArticle.ParseArticleIds | core/agent_core/nodes/custom_nodes/ncbi_fetch_node.py:438-456 | the id loop computes `IdsOf` of the ArticleId elements |
| NcbiArticle.IdStep | core/agent_core/nodes/custom_nodes/ncbi_fetch_node.py:445-454 | one article id stored, with no contract of its own; IdStepKeeps, IdStepValue and IdStepLinks state what it changes, and StoreId is the method proved equal to it |
| NcbiArticle.StoreId | core/agent_core/nodes/custom_nodes/ncbi_fetch_node.py:445-454 | the loop body computes `IdStep` |
| NcbiArticle.IdsLastValue | core/agent_core/nodes/custom_nodes/ncbi_fetch_node.py:444-448 | each id type holds the value of the last id of that type |
| NcbiArticle.IdStepValue | core/agent_core/nodes/custom_nodes/ncbi_fetch_node.py:448 | an id is stored under its type |
| NcbiArticle.IdsLastValueEarlier | core/agent_core/nodes/custom_nodes/ncbi_fetch_node.py:444-448 | a later id of another type keeps an earlier id's value |
| NcbiArticle.IdStepLinks | core/agent_core/nodes/custom_nodes/ncbi_fetch_node.py:451-454 | a DOI id adds its doi.org link and a PMC id its PMC link |
| NcbiArticle.IdsDoiUrl | core/agent_core/nodes/custom_nodes/ncbi_fetch_node.py:444-452 | doi_url is the link of the last DOI |
| NcbiArticle.IdsDoiUrlEarlier | core/agent_core/nodes/custom_nodes/ncbi_fetch_node.py:444-452 | a later id that is not a DOI keeps doi_url |
| NcbiArticle.IdsNoDoiUrl | core/agent_core/nodes/custom_nodes/ncbi_fetch_node.py:444-452 | without a DOI there is no doi_url |
| NcbiArticle.IdsPmcUrl | core/agent_core/nodes/custom_nodes/ncbi_fetch_node.py:444-454 | pmc_url is the link of the last PMC id |
| NcbiArticle.IdsPmcUrlEarlier | core/agent_core/nodes/custom_nodes/ncbi_fetch_node.py:444-454 | a later id that is not a PMC id keeps pmc_url |
| NcbiArticle.IdsNoPmcUrl | core/agent_core/nodes/custom_nodes/ncbi_fetch_node.py:444-454 | without a PMC id there is no pmc_url |
| NcbiArticle.KeywordElements | core/agent_core/nodes/custom_nodes/ncbi_fetch_node.py:473-476 | without a KeywordList there are no keywords |
| NcbiArticle.QualifierJson | core/agent_core/nodes/custom_nodes/ncbi_fetch_node.py:499-502 | a qualifier holds its name and its own major-topic flag |
| NcbiArticle.Qualifiers | core/agent_core/nodes/custom_nodes/ncbi_fetch_node.py:498-502 | one qualifier per QualifierName, in order |
| NcbiArticle.MeshTermOf | core/agent_core/nodes/custom_nodes/ncbi_fetch_node.py:489-504 | a heading is kept exactly when it has a descriptor |
| NcbiArticle.MeshTermShape | core/agent_core/nodes/custom_nodes/ncbi_fetch_node.py:489-502 | a MeSH term holds the descriptor, whether it is a major topic, and one qualifier per QualifierName |
| NcbiArticle.MeshHeadings | core/agent_core/nodes/custom_nodes/ncbi_fetch_node.py:485-488 | without a MeshHeadingList there are no headings |
| NcbiArticle.ParseQualifiers | core/agent_core/nodes/custom_nodes/ncbi_fetch_node.py:498-502 | the qualifier loop computes `Qualifiers` |
| NcbiArticle.ParseMeshTerms | core/agent_core/nodes/custom_nodes/ncbi_fetch_node.py:482-506 | the heading loop keeps the terms of the headings with a descriptor, in order |
| NcbiArticle.ParseMeshHeading | core/agent_core/nodes/custom_nodes/ncbi_fetch_node.py:489-504 | the loop body computes `MeshTermOf` |
| NcbiArticle.MeshTermsFromHeadings | core/agent_core/nodes/custom_nodes/ncbi_fetch_node.py:482-506 | every MeSH term comes from a heading with a descriptor, and only those are dropped |
| NcbiArticle.GrantOf | core/agent_core/nodes/custom_nodes/ncbi_fetch_node.py:515-530 | a grant is kept exactly when its id, agency or country exists |
| NcbiArticle.GrantAssignments | core/agent_core/nodes/custom_nodes/ncbi_fetch_node.py:517-527 | the grant assignments name distinct keys |
| NcbiArticle.GrantFields | core/agent_core/nodes/custom_nodes/ncbi_fetch_node.py:515-527 | a grant holds exactly the id, agency and country that exist |
| NcbiArticle.GrantElements | core/agent_core/nodes/custom_nodes/ncbi_fetch_node.py:511-514 | without a GrantList there are no grants |
| NcbiArticle.ParseGrants | core/agent_core/nodes/custom_nodes/ncbi_fetch_node.py:508-532 | the grant loop keeps the non-empty grants in order |
| NcbiArticle.StatementText | core/agent_core/nodes/custom_nodes/ncbi_fetch_node.py:550 | a statement is found exactly when the element exists with non-empty text |
| NcbiArticle.CoiOf | core/agent_core/nodes/custom_nodes/ncbi_fetch_node.py:540-551 | the statement is the first non-empty of CoiStatement and ConflictOfInterestStatement, empty exactly when neither has one |
| NcbiArticle.ParseCoi | core/agent_core/nodes/custom_nodes/ncbi_fetch_node.py:548-551 | the scan returning at the first statement computes `CoiOf` |
| NcbiArticle.Urls | core/agent_core/nodes/custom_nodes/ncbi_fetch_node.py:297-301 | the PubMed link is built from the PMID; the DOI and PMC links default to empty |
| NcbiArticle.BibliographicEntries | core/agent_core/nodes/custom_nodes/ncbi_fetch_node.py:282-289 | the record starts with pmid, title, authors and the other bibliographic keys |
| NcbiArticle.ContentEntries | core/agent_core/nodes/custom_nodes/ncbi_fetch_node.py:290-302 | the record ends with language, MeSH terms, grants, always-empty references and the links |
| NcbiArticle.DetailedJson | core/agent_core/nodes/custom_nodes/ncbi_fetch_node.py:282-303 | the record has its sixteen keys in order and is truthy |
| NcbiArticle.ReadDetailed | core/agent_core/nodes/custom_nodes/ncbi_fetch_node.py:224-233 | an article without MedlineCitation or without Article is skipped |
| NcbiArticle.DetailedDefaults | core/agent_core/nodes/custom_nodes/ncbi_fetch_node.py:228-277 | a read article has PMID "Unknown", title "No title available" and language "eng" by default, and no MeSH terms or grants unless asked for |
| NcbiArticle.DetailedOf | core/agent_core/nodes/custom_nodes/ncbi_fetch_node.py:220-307 | a record comes back exactly when reading neither skips nor raises, and it is truthy |
| NcbiArticle.ParseDetailedArticle | core/agent_core/nodes/custom_nodes/ncbi_fetch_node.py:220-307 | the parser with every helper's loop computes `DetailedOf` |
| NcbiArticle.CollectDetailed | core/agent_core/nodes/custom_nodes/ncbi_fetch_node.py:210-218 | the article loop keeps, in document order, every article that parses |
| NcbiArticle.KeepDetailed | core/agent_core/nodes/custom_nodes/ncbi_fetch_node.py:212-216 | a parsed record is appended when there is one |

## Left out

- HTTP I/O is left out: `aiohttp` sessions, timeouts and the fetch helpers. The status code and the parsed body are parameters of each connector.
- `ET.fromstring` and `json.loads` are left out. The model starts from the parsed tree or value, and a body that fails to parse is a `Raised` outcome.
- Floats are not modelled. Every number is an integer, including usage counts and `max_results`.
- Two entries with the same key in one dictionary are not modelled. Lookups take the first match, and assignment overwrites it in place.
- `datetime.utcnow()` timestamps are string parameters. Each connector call gets one stamp. In the article-fetch connector, `datetime.utcnow()` is called at core/agent_core/nodes/custom_nodes/ncbi_fetch_node.py lines 161, 174 and 302, once per item or record. The model gives all those stamps the same value. No property depends on them.
- Logging calls are left out.
- The catch-all `except Exception` handlers are modelled only as "returns an error reply or `None`". The exception text is not modelled.
- `str()` of non-string values is the function `Json.PyStr`. It approximates Python's rendering and does not model quote choice or escapes inside `repr`.
- `str.upper`, `str.lower`, `str.title`, `str.isdigit` and `str.isspace` are modelled over ASCII only. Unicode case mapping and Unicode digits are not modelled.
- The regular-expression substitution in `_apply_simple_template_interpolation` is a parameter, `substitute`. Only its guard is modelled: a non-string, or a string without `{{`, is returned unchanged.
- `get_nested_value_from_context`, `json.dumps` and `dispatch_result_ingestor` are function parameters of the ingestors that use them. `json_repair.repair_json` is a function parameter of the aggregator.
- `work_modules_ingestor`, `available_associates_ingestor`, `json_history_ingestor`, `observer_failure_ingestor` and `dispatch_result_ingestor` are only registered in the registry, not modelled. Their bodies depend on helpers outside the modelled files, or on `json.dumps`.
- The `tool_registry` decorator metadata is left out. The connectors' `prep_async` and `post_async` are left out too.
- The events the aggregator and the attempt loop emit are left out (`emit_llm_*`, `send_json`). So are the stream ids made with `uuid`, `final_stream_id` and the event-only constructor arguments of `LLMResponseAggregator`.
- LlmCall.RunAttempt: the attempt loop builds its aggregator with no task numbers, module id or dispatch id. In the source these only reach the events, which are not modelled.
- `asyncio.sleep` back-off, `CancelledError` handling and all concurrency are left out. The model is sequential.
- `litellm.acompletion` is a parameter that says, for each attempt and request, whether the attempt streams chunks or fails. The litellm exception classes are collapsed into network errors, unrecoverable errors (authentication, bad request and context-window errors) and unexpected errors.
- LlmCall.WithSystemPrompt: with a non-empty prompt, the source writes the prompt into the caller's own first system message (core/agent_core/llm/call_llm.py:253). That dictionary is shared with the caller's list, so the caller sees the change after the call returns. The model returns a new list and leaves the caller's messages unchanged. Inside the call the sharing is modelled: `LastRequest` reads the prompted list.
- LlmStream.SlotIndex: a tool-call fragment whose `index` attribute exists but holds `None` would be keyed under `None` in the source (core/agent_core/llm/call_llm.py:168). The model has no such fragment, because litellm types the index as an integer. A fragment without the attribute goes to slot 0, as in the source.
- `litellm.token_counter` and `estimate_prompt_tokens` are left out. Only the usage the stream reports is accounted.
- LlmStream.Aggregated: each tool call keeps its id, name and arguments. The constant `"type": "function"` field of the returned dictionaries is not modelled.
- NcbiSearch.SearchCacheUri: the contract states only the key's prefix, `ncbi_search://` followed by the query. The rest of the key renders `max_results`, the publication types and the date range with `str()`, which is approximated (see `Json.PyStr`).
- History.ClampedSummaryAccounts: the contract fixes the number of parts and the omission line, but not the entry of each message. Those entries are stated by `History.LogPartsLayout`.

## Findings

| source | as written | input that shows it | evidently intended | confidence | as-written member | corrected member |
|---|---|---|---|---|---|---|
| core/agent_core/events/ingestors.py:195-219 | `payload[-max_messages:]` with `max_messages = 0` is `payload[0:]`, so every message is shown, yet the omission line also reports all of them as omitted | a non-empty message list with `max_messages` 0 | a limit of 0 shows no messages, with all of them reported as omitted | not executed | History.ZeroLimitShowsAllOmitsAll | History.ClampedSummaryAccounts |
