# aichatbot core in Dafny

A model of the core of a chat agent. The agent passes a conversation to a
large-language-model backend (Amazon Bedrock's Converse API). It gives the
model the tools of every connected tool server (Model Context Protocol, MCP),
runs the tool calls the model asks for, and reports the results back. On top
of that sits the browser playground, which streams the answer into a chat
bubble and keeps the transcript.

Each module follows one source file:

- `common.dfy` (`Common`) holds the shared values: `Option`, `Result`, JSON values, messages and content blocks. It also holds the JavaScript string operations the code relies on, each with its meaning proved: `split`/`join`, `replace` with a string pattern, `trim`, `includes`/`indexOf`.
- `safe_json.dfy` (`SafeJson`) models `safeJSONStringify`: bounded JSON text for logging.
- `mcp_manager.dfy` (`McpRegistry`) is the registry `MCPManager`, a class. `clients` and `servers` are maps, and the insertion order of `clients` is kept as a sequence, because JavaScript `Map` iteration order decides the order of tools and prompt sections. It covers connect, disconnect, config lookup, tool listing with per-server degradation, and call dispatch.
- `bedrock_manager.dfy` (`Bedrock`) models `BedrockManager`:
  - the request builder;
  - the buffered call;
  - the streamed call, as a fold of the stream events (text deltas, tool starts, tool-input fragments, stop reason), then assembly of the final message;
  - the model-catalog queries.
- `chat_orchestrator.dfy` (`ChatOrchestrator`) models `ChatOrchestrator` as its code is written:
  - the tools are flattened to `serverId__toolName` with a dictionary back to the server;
  - a system prompt lists every server and tool;
  - one model call is made;
  - when the model stops for tool use, one round of tool calls runs and there is one more model call without tools.
- `playground.dfy` (`Playground`) is the browser controller `ChatPlayground`, a class whose fields the methods update:
  - the `data: ` frame splitter over the response chunks;
  - the event handler, including the text-merge heuristic;
  - send, suggestion and reset.

Foreign calls enter as function-typed parameters standing for their outcome (`None` when the call throws):

- the MCP SDK's `listTools` and `callTool`;
- Bedrock's `send`;
- `JSON.parse`, `JSON.stringify`;
- the chunks a `fetch` response delivers.

A method whose source is a loop is proved against a function of its inputs. The properties the source promises are then lemmas about that function.

Behaviour the model makes explicit:

- **The orchestrator is not a loop.** `processUserMessage` runs at most one tool round and makes at most two model calls (`ChatOrchestrator.ProcessUserMessage`). The second call offers no tools, so a second tool-use stop is not acted on.
  - An unresolvable tool request is silently skipped. So is a failing call; nothing reports the failure to the model.
  - The successes are reported as two text messages: "Used tool X", then "Tool result: " followed by the JSON text of the result's content.
- **Flattened names are not unique in general.** `ChatOrchestrator.FlatNamesCanCollide` exhibits two pairs that produce the same name. Server `a` with tool `b__c` and server `a__b` with tool `c` both give `a__b__c`. The dictionary then keeps the later server, so the earlier server's tool can no longer be called. `ChatOrchestrator.FlatNameInjective` proves uniqueness when server ids contain no `_`.
- **An empty message list fails.** `generateResponse` and `generateStreamResponse` throw on it rather than returning an empty result, so `processUserMessage` fails too. The model follows the code.
- **Playground chunking.** The splitter falls back to the escaped separator (backslash-n backslash-n) when a buffer holds no real blank line.
  - For streams that never hold the escaped separator, the frames handled do not depend on how the stream is cut into chunks (`Playground.ChunkingInvariant`). That covers every stream without backslashes (`Playground.RealChosen`), and also JSON text with escaped quotes or single escaped newlines.
  - With escaped newlines inside a JSON payload, they do (`Playground.EscapedPairDependsOnChunking`). The same bytes yield a text event in one chunk. In two chunks the frame is cut at the escaped pair, its first piece fails to parse, and the stream ends with an error.
  - An unterminated last frame is dropped when the stream ends.
- **A malformed frame ends the stream.** The `catch` around a frame's parse logs `jsonStr`, a `const` declared inside the `try`, so the handler itself throws a `ReferenceError`. The same happens for a `null` payload, whose `type` cannot be read.
  - The frame loop and the read loop end there; no later frame or chunk is handled (`Playground.HandleFramesStop`, `Playground.FeedAllStop`).
  - The reader is released, and `sendMessage` shows a connection error on the page.
  - The transcript keeps the replies streamed before that frame, and the page returns to idle (`Playground.ChatPlayground.SendMessage`).
- **A stream that fails midway.** When Bedrock's event stream throws after some events, `generateStreamResponse` has already passed their text to `onChunk`; it then fails without a message (`Bedrock.GenerateStreamResponse`).
- **The playground's text merge** treats a longer text that starts with the current content as a cumulative snapshot.
  - Streams of deltas in which a delta repeats or extends the whole text so far lose text (`Playground.PiecesCanBeLost`).
  - A `stop` event closes the bubble but keeps `assistantContent`. A later text event in the same stream then repeats the finished reply in its new bubble.

## Model

| member | source | states |
|---|---|---|
| Common.SplitJoin | src/app/playground.ts:595-598 | `split` loses nothing: joining the parts with the separator gives the string back, and no part contains the separator |
| Common.SplitLastSuffix | src/app/playground.ts:595-598 | the last part of a `split`, which `pop` keeps, is a suffix of the string |
| Common.RemoveFirstOfPrefix | src/utils/chat/orchestrator.ts:115 | `replace(prefix, '')` on a name that starts with the prefix yields exactly the rest |
| Common.BlankIffAllWhitespace | src/app/playground.ts:601 | a string is blank after `trim()` exactly when every character is white space |
| SafeJson.SafeJsonStringify | src/helpers/json.ts:1-8 | an unserialisable value gives the fixed placeholder; a text within the bound is returned unchanged; a longer one is cut to `maxLength` characters followed by the truncation marker; a non-negative bound caps the length at `maxLength + 15` and keeps a prefix of the text |
| SafeJson.SafeJsonStringifyDefault | src/helpers/json.ts:1 | the default bound is 100 characters |
| SafeJson.SliceTo | src/helpers/json.ts:4 | `slice(0, end)` gives a prefix; its length is `min(end, len)` for a non-negative end, and `len + end` (at least 0) for a negative one |
| SafeJson.TruncatedLength | src/helpers/json.ts:4 | a truncated text is exactly `maxLength + 15` characters long |
| SafeJson.NegativeBound | src/helpers/json.ts:4 | a negative bound drops that many characters from the end before the marker is added |
| McpRegistry.ClientFor | src/utils/mcp-manager/manager.ts:11-17 | the client created for a server is named `<id>-client`, has version 1.0.0, and uses the server's URL |
| McpRegistry.MCPManager.constructor | src/utils/mcp-manager/manager.ts:7-8 | a new registry has no clients and no servers |
| McpRegistry.MCPManager.ConnectServer | src/utils/mcp-manager/manager.ts:10-21 | a failed connect changes nothing and reports the server; a successful one maps the id to its new client and to its descriptor, and appends the id to the iteration order only when it is new; the registry invariant is kept |
| McpRegistry.MCPManager.DisconnectServer | src/utils/mcp-manager/manager.ts:23-29 | an unknown id is a no-op; a failed close changes nothing; a successful close removes the id from the clients and the order only; `servers` keeps its entry |
| McpRegistry.MCPManager.GetServerConfig | src/utils/mcp-manager/manager.ts:31-33 | returns the stored descriptor exactly when the id has one |
| McpRegistry.MCPManager.GetAvailableTools | src/utils/mcp-manager/manager.ts:35-49 | one entry per connected server, in connection order, holding that server's listing, or `[]` when its listing throws; every connected server appears |
| McpRegistry.MCPManager.ExecuteCallTool | src/utils/mcp-manager/manager.ts:51-61 | an id without a client fails with "not connected"; otherwise the tool name and arguments go unchanged to that server's client, and its outcome is the result |
| McpRegistry.Listing | src/utils/mcp-manager/manager.ts:37-46 | the listing of each given server, in the given order, a thrown listing counting as empty |
| McpRegistry.CallThrough | src/utils/mcp-manager/manager.ts:51-61 | the call succeeds exactly when the server has a client and that client's call succeeds, and then yields its result |
| McpRegistry.Without | src/utils/mcp-manager/manager.ts:27 | removing an id keeps exactly the other ids; a one-element order loses its element exactly when it is the id |
| McpRegistry.WithoutAppend | src/utils/mcp-manager/manager.ts:27 | removing an id keeps the order of the rest: removing from a concatenation concatenates the removals |
| McpRegistry.WithoutSnoc | src/utils/mcp-manager/manager.ts:27 | removing an id from an order extended by one more id extends the removal by that id unless it is the one removed |
| McpRegistry.WithoutKeepsNoDuplicates | src/utils/mcp-manager/manager.ts:27 | removing an id from a duplicate-free order leaves it duplicate-free |
| McpRegistry.ConnectDisconnectScenario | src/utils/mcp-manager/manager.ts:10-61 | after connecting and disconnecting a server, its descriptor is still returned, while calling a tool on it fails with "not connected" |
| Bedrock.ToolSpecs | src/utils/bedrock/manager.ts:171-183 | one tool specification per flattened tool, in order, carrying its name, description and schema |
| Bedrock.Request | src/utils/bedrock/manager.ts:155-190 | the request always has the model, messages and inference settings; it has a tool configuration exactly when the tool list is non-empty, and a system block exactly when the prompt is non-empty |
| Bedrock.BuildInputCommand | src/utils/bedrock/manager.ts:155-190 | the command the method assembles step by step is `Request` |
| Bedrock.GenerateResponse | src/utils/bedrock/manager.ts:52-79 | an empty message list fails before anything is sent; otherwise exactly the built request is sent, and the reply or the send failure is returned |
| Bedrock.ConsumeStream | src/utils/bedrock/manager.ts:113-141 | the `for await` loop over the events ends in the fold of the events |
| Bedrock.FoldTextAndStop | src/utils/bedrock/manager.ts:114-118 | the accumulated text is the concatenation of the non-empty text deltas, each passed to `onChunk` once and in order; the stop reason is that of the last stop event, `end_turn` when none arrived |
| Bedrock.FoldRecordsFollowStarts | src/utils/bedrock/manager.ts:120-127 | exactly one tool record per tool start, in start order, with that start's id and name |
| Bedrock.StepKeepsIdentities | src/utils/bedrock/manager.ts:113-141 | one event never alters the id or name of an existing record; a start leaves the earlier records unchanged and appends a record with its own id and name, whose input starts empty and so holds only the event's own tool-input fragment |
| Bedrock.FoldRecordInput | src/utils/bedrock/manager.ts:120-136 | a start followed by events without a start appends exactly one record, with the start's id and name and as input the tool-input fragments from that start up to the next, in arrival order; earlier records stay as they were |
| Bedrock.Step | src/utils/bedrock/manager.ts:113-140 | one event: a non-empty text delta is appended to the text and passed on as a chunk; a tool start appends a record; a tool-input fragment is appended to the newest record; a stop event sets the stop reason |
| Bedrock.Fold | src/utils/bedrock/manager.ts:109-141 | the accumulator after the events, in arrival order, from empty text, no records and `end_turn` |
| Bedrock.StepWithoutStart | src/utils/bedrock/manager.ts:129-136 | an event without a start appends its tool-input fragment to the newest record, if there is one |
| Bedrock.NewestGainsTrans | src/utils/bedrock/manager.ts:129-136 | two appends to the newest record compose into one append of both fragments in order |
| Bedrock.FoldAppendsToNewest | src/utils/bedrock/manager.ts:129-136 | events without a start change only the newest record, which gains their tool-input fragments in arrival order; with no record the fragments are dropped |
| Bedrock.ConstructStreamResponse | src/utils/bedrock/manager.ts:207-246 | fails naming the first record whose input does not parse, and fails only then; otherwise an assistant message with the text block (only for non-empty text), then one tool-use block per record in order, with the input `{}` for empty input text; the stop reason is passed through |
| Bedrock.ParsedInput | src/utils/bedrock/manager.ts:219-224 | a record's input is `{}` when its text is empty, and otherwise the parse of its text |
| Bedrock.GenerateStreamResponse | src/utils/bedrock/manager.ts:81-153 | an empty message list fails before sending; a rejected send or a missing stream fails with no chunks; a stream that throws midway fails after passing on the text deltas of the events delivered before; otherwise the chunks are the text deltas of the fold and the outcome is the assembled message of the fold |
| Bedrock.FilterActive | src/utils/bedrock/manager.ts:202-204 | keeps exactly the models whose lifecycle status is `ACTIVE`; a one-model list is kept exactly when that model is active |
| Bedrock.FilterActiveAppend | src/utils/bedrock/manager.ts:202-204 | `filter` keeps the catalog order: filtering a concatenation concatenates the filterings |
| Bedrock.GetActiveFoundationModels | src/utils/bedrock/manager.ts:192-205 | fails exactly when the catalog call fails; absent summaries give `[]`; otherwise the active models, in catalog order |
| Bedrock.FindModel | src/utils/bedrock/manager.ts:34-36 | `find` returns the first model with the id, or none when no model has it |
| Bedrock.IsResponseStreamingSupported | src/utils/bedrock/manager.ts:30-50 | a failing catalog call fails; otherwise the answer is defined exactly when some active model has the id, and it is an "unrecognized model" error otherwise |
| Bedrock.FindFirstActive | src/utils/bedrock/manager.ts:34-36 | the first match among the active models is the first active model listed with the id |
| Bedrock.StreamingFlagOfFirstMatch | src/utils/bedrock/manager.ts:34-42 | the answer is that first model's streaming flag, `false` when the flag is absent |
| ChatOrchestrator.Flatten | src/utils/chat/orchestrator.ts:81-85 | a flattened tool is named `serverId__toolName`, has its description prefixed with `[serverId] `, and keeps its schema |
| ChatOrchestrator.FlattenAll | src/utils/chat/orchestrator.ts:79-88 | the flattened tools of every server, server by server in listing order |
| ChatOrchestrator.Dictionary | src/utils/chat/orchestrator.ts:86 | the map from each flattened name to its server, a later server overwriting an earlier one |
| ChatOrchestrator.FlattenServer | src/utils/chat/orchestrator.ts:80-87 | one flattened tool per tool of the server, in order |
| ChatOrchestrator.GetMCPTools | src/utils/chat/orchestrator.ts:70-95 | the two loops build exactly the flattened list and the name dictionary of the listing |
| ChatOrchestrator.FlattenAllAppend | src/utils/chat/orchestrator.ts:79-88 | flattening follows the server order: flattening a concatenation concatenates the flattenings |
| ChatOrchestrator.FlattenAllPairs | src/utils/chat/orchestrator.ts:79-88 | the flattened list has one entry per (server, tool) pair, and a tool is in it exactly when it is the flattening of such a pair |
| ChatOrchestrator.EnterServerEntries | src/utils/chat/orchestrator.ts:86 | entering a server's tools adds exactly its flattened names, maps each to that server, and leaves the other entries alone |
| ChatOrchestrator.DictionaryKeys | src/utils/chat/orchestrator.ts:86 | the dictionary's keys are exactly the flattened names of all pairs |
| ChatOrchestrator.DictionaryValues | src/utils/chat/orchestrator.ts:86 | every name maps to the server of a pair that produces it |
| ChatOrchestrator.DictionaryLaterWins | src/utils/chat/orchestrator.ts:79-88 | a later server overwrites an earlier one for a shared name |
| ChatOrchestrator.ResolveRoundTrip | src/utils/chat/orchestrator.ts:109-115 | resolving a dictionary name and removing the first `serverId__` gives back the name of a tool of that server |
| ChatOrchestrator.Resolve | src/utils/chat/orchestrator.ts:103-115 | a block is called only when it is a tool use with a non-empty name in the dictionary whose server id is non-empty; it is then called with the name stripped of its first `serverId__` and with its input |
| ChatOrchestrator.RoundStep | src/utils/chat/orchestrator.ts:117-151 | a successful call appends its name to `toolsUsed`, its server to `mcpServersUsed` when new, and the two report messages; anything else leaves the round as it is |
| ChatOrchestrator.Round | src/utils/chat/orchestrator.ts:97-159 | the round is the blocks taken in order from empty lists |
| ChatOrchestrator.FirstUnderscore | src/utils/chat/orchestrator.ts:82 | in a flattened name whose server id has no `_`, the first `_` ends the server id |
| ChatOrchestrator.FlatNameInjective | src/utils/chat/orchestrator.ts:82 | two pairs whose server ids contain no `_` produce the same name only when they are the same pair |
| ChatOrchestrator.FlatNamesCanCollide | src/utils/chat/orchestrator.ts:82 | without that condition two distinct pairs can share a name |
| ChatOrchestrator.RoundStepReports | src/utils/chat/orchestrator.ts:117-151 | one block adds its call (un-prefixed name and result) exactly when the call succeeds; each call stays reported by "Used tool X" from the assistant and "Tool result: " plus the JSON text of its content from the user |
| ChatOrchestrator.RoundMessages | src/utils/chat/orchestrator.ts:97-159 | `toolsUsed` lists exactly the successful calls, in block order; each is reported by the assistant's "Used tool X" and then the user's "Tool result: " followed by the JSON text of that call's content |
| ChatOrchestrator.RoundServers | src/utils/chat/orchestrator.ts:127-130 | `mcpServersUsed` has no duplicates and is exactly the set of servers of the successful calls |
| ChatOrchestrator.ProcessToolResponse | src/utils/chat/orchestrator.ts:97-159 | the loop, skipping non-tool blocks, unknown names, an empty server id and failing calls, ends with the round's three lists |
| ChatOrchestrator.BuildToolSystemPrompt | src/utils/chat/orchestrator.ts:161-176 | the prompt is the header, then one section per server in listing order, then the footer |
| ChatOrchestrator.SystemPrompt | src/utils/chat/orchestrator.ts:161-176 | the header, the sections of the servers in listing order, then the footer |
| ChatOrchestrator.ServerHeading | src/utils/chat/orchestrator.ts:167 | a section starts with the server id and its configured description, or "No description" |
| ChatOrchestrator.ToolLine | src/utils/chat/orchestrator.ts:170 | a tool line holds the tool's name and description |
| ChatOrchestrator.SectionInPrompt | src/utils/chat/orchestrator.ts:165-172 | each server's section occurs in the prompt |
| ChatOrchestrator.SectionLines | src/utils/chat/orchestrator.ts:167-170 | a section holds its heading and each of its tool lines |
| ChatOrchestrator.SystemPromptEnumerates | src/utils/chat/orchestrator.ts:161-176 | the prompt starts with the header, ends with the footer, and names every server with its configured description (or "No description"), and every tool with its un-prefixed name and description |
| ChatOrchestrator.FilterToolUse | src/utils/chat/orchestrator.ts:39 | keeps exactly the tool-use blocks; a one-block list is kept exactly when the block is a tool use |
| ChatOrchestrator.FilterToolUseAppend | src/utils/chat/orchestrator.ts:39 | `filter` keeps message order: filtering a concatenation concatenates the filterings |
| ChatOrchestrator.ToolUseBlocks | src/utils/chat/orchestrator.ts:39 | the tool requests are the tool-use blocks of the model's message, in message order, and none when there is no message |
| ChatOrchestrator.ProcessUserMessage | src/utils/chat/orchestrator.ts:15-68 | an empty history fails without a request; the first request carries the registry's flattened tools and the system prompt; a send failure fails; a stop other than tool use returns the first text (or "No response") with no tools; after a tool-use stop, exactly one more request, with the round's report messages appended and no tools or prompt, and its first text together with the round's tools and servers |
| ChatOrchestrator.FirstText | src/utils/chat/orchestrator.ts:57-64 | the reply text is the first content block's text, or "No response" when there is none |
| ChatOrchestrator.FirstRequestShape | src/utils/chat/orchestrator.ts:31-36 | the first request offers tools exactly when some connected server lists one, and always carries the system prompt |
| ChatOrchestrator.PairCountZero | src/utils/chat/orchestrator.ts:79-88 | there are no (server, tool) pairs exactly when no server lists a tool |
| ChatOrchestrator.FlattenEmptyIffNoTools | src/utils/chat/orchestrator.ts:79-88 | the flattened list is empty exactly when no server lists a tool |
| Playground.MergeTextShape | src/app/playground.ts:676-698 | merging never loses the content already shown, always ends with the new text, and leaves the content unchanged exactly when the new text is empty or equal to it |
| Playground.CumulativeSnapshots | src/app/playground.ts:676-698 | a stream of strictly growing snapshots leaves exactly the last snapshot |
| Playground.DeltaPieces | src/app/playground.ts:676-698 | a stream of pieces, none of which repeats or extends the whole text so far, leaves their concatenation |
| Playground.DeltaPrefix | src/app/playground.ts:676-698 | the condition on pieces holds for every prefix of the stream |
| Playground.MergeAppends | src/app/playground.ts:690-697 | a text that does not extend the current content is appended |
| Playground.PiecesCanBeLost | src/app/playground.ts:676-698 | a piece equal to the text so far is dropped, and a piece that happens to extend it replaces it |
| Playground.MergeText | src/app/playground.ts:676-698 | a longer text that starts with non-empty content replaces it; a text equal to the content leaves it; any other text is appended |
| Playground.ApplyEvent | src/app/playground.ts:633-729 | `thinking` closes an open bubble, saving its non-blank content as a reply; `text` opens a bubble (empty on the first text) and merges the text; `stop` closes the bubble and saves non-blank content; `error` and other events change nothing |
| Playground.ApplyEventExtends | src/app/playground.ts:633-729 | every event keeps the transcript and adds at most one message, an assistant reply holding exactly the streamed content |
| Playground.ApplyEventBubble | src/app/playground.ts:633-729 | a text event leaves a bubble open; `stop` and `thinking` leave it closed; a later text event never loses content already shown |
| Playground.DelimiterFound | src/app/playground.ts:590-593 | whenever a buffer holds either separator, it holds the chosen one |
| Playground.Delimiter | src/app/playground.ts:590-593 | the escaped separator is chosen exactly when the buffer holds it and no real blank line |
| Playground.FramesRemainder | src/app/playground.ts:595-598 | the frames and the kept remainder, joined with the chosen separator, give back the buffer; none of them holds that separator |
| Playground.InitLast | src/app/playground.ts:598 | `pop` leaves all parts but the last |
| Playground.DataFramePayload | src/app/playground.ts:601-607 | a frame `data: <text>` yields exactly `<text>` |
| Playground.FramePayload | src/app/playground.ts:601-607 | a blank frame or one without the `data: ` prefix yields nothing; otherwise the text after the prefix |
| Playground.HandleFrame | src/app/playground.ts:600-622 | after a frame has thrown nothing changes; a frame without payload is skipped; a payload that fails to parse throws; a parsed event is applied, and a text event ends `isFirstText` |
| Playground.HandleFramesAborted | src/app/playground.ts:600-622 | once handling a frame has thrown, later frames change nothing |
| Playground.HandleFramesStop | src/app/playground.ts:600-625 | the frames after the one that throws are not handled |
| Playground.HandleFramesAppend | src/app/playground.ts:600-625 | handling two lists of frames in turn is handling their concatenation |
| Playground.FeedAllSnoc | src/app/playground.ts:580-626 | one more read extends the state by one step |
| Playground.Feed | src/app/playground.ts:587-625 | one read appends the chunk, handles the buffer's complete frames and keeps its remainder; after a throw nothing is read |
| Playground.FeedAll | src/app/playground.ts:577-626 | the reads of the chunks in order |
| Playground.FeedAllAborted | src/app/playground.ts:577-626 | once a frame has thrown, no later chunk is read |
| Playground.FeedAllAppend | src/app/playground.ts:577-626 | reading two lists of chunks in turn is reading their concatenation |
| Playground.FeedAllStop | src/app/playground.ts:577-626 | the chunks after the read in which a frame threw are not read |
| Playground.Streamed | src/app/playground.ts:551-631 | the view left by `startStreaming`: unchanged when the request fails, otherwise the view after reading the chunks up to a throw |
| Playground.StreamThrows | src/app/playground.ts:564-620 | `startStreaming` throws exactly when the request fails or a frame throws |
| Playground.HandleFramesExtends | src/app/playground.ts:600-625 | the frames of a read only add assistant replies, and once a text event has been seen `isFirstText` stays false |
| Playground.FeedAllExtends | src/app/playground.ts:580-626 | reading the whole response keeps the transcript and adds only assistant replies; `isFirstText` never becomes true again |
| Playground.StreamedExtends | src/app/playground.ts:551-631 | streaming a response, or failing to, only adds assistant replies to the transcript |
| Playground.RealChosen | src/app/playground.ts:590-593 | a backslash-free buffer cannot hold the escaped separator, so the real separator is chosen |
| Playground.HeadsTailAppend | src/app/playground.ts:587-598 | appending a chunk to a buffer cut at the real separator cuts the kept remainder plus the chunk |
| Playground.InitAppend | src/app/playground.ts:598 | all but the last of a concatenation ending in a non-empty list |
| Playground.ChunkingInvariant | src/app/playground.ts:580-626 | for a stream that never holds the escaped separator, every way of cutting it into chunks handles the frames of the whole stream, in order, up to the one that throws; unless one threw, the buffer keeps the stream's unterminated end |
| Playground.TailThenChunk | src/app/playground.ts:587-598 | the kept remainder plus the next chunk is a piece of the stream, so it lacks the escaped separator when the stream does |
| Playground.TailWithoutSeparator | src/app/playground.ts:595-598 | a buffer without a separator is kept whole |
| Playground.EscapedPairDependsOnChunking | src/app/playground.ts:590-621 | with an escaped newline pair inside a payload, one chunk yields the text event, while two chunks split at the separator cut the frame; its first piece fails to parse, so the stream ends there without the event |
| Playground.DropLast | src/app/playground.ts:560 | `slice(0, -1)` is all elements but the last, or empty |
| Playground.DropLastSnoc | src/app/playground.ts:560 | the history sent with a query is the transcript before the query was added |
| Playground.ChatPlayground.constructor | src/app/playground.ts:315-328 | a new page has an empty transcript, no bubble, empty content, and every control enabled |
| Playground.ChatPlayground.UpdateSendButtonState | src/app/playground.ts:342-355 | the send button is disabled exactly when the field is blank or a request is in flight; nothing else changes |
| Playground.ChatPlayground.DisableAllInputs | src/app/playground.ts:357-364 | the field, the send button and the suggestions are disabled; the view is unchanged |
| Playground.ChatPlayground.EnableAllInputs | src/app/playground.ts:366-373 | the field and the suggestions are enabled; the send button follows the send rule |
| Playground.ChatPlayground.HandleStreamEvent | src/app/playground.ts:633-729 | the view after an event is `ApplyEvent` of the view before it; the controls are unchanged |
| Playground.ChatPlayground.ReadChunk | src/app/playground.ts:587-625 | one pass of the outer loop is one `Feed` step, and reports whether a frame threw |
| Playground.ChatPlayground.HandleLines | src/app/playground.ts:600-625 | the inner loop handles the frames of one read in order, stops at the first frame whose handling throws, and reports whether one did |
| Playground.ChatPlayground.StartStreaming | src/app/playground.ts:551-631 | the request carries the query and the transcript before it; the view after reading is the streamed view, unchanged when the request fails and cut at the first frame that throws; it throws exactly when the request fails or a frame throws; the controls are unchanged |
| Playground.ChatPlayground.SendMessage | src/app/playground.ts:515-549 | a blank field or a request in flight does nothing. Otherwise the trimmed text is sent with the previous transcript. The transcript is the streamed one, starting from the previous transcript plus the user message, so it only adds assistant replies. An error is shown exactly when streaming throws. The page ends idle, with no bubble, empty content and an empty field; the controls are enabled and sending is disabled |
| Playground.ChatPlayground.FinishSending | src/app/playground.ts:542-548 | the `finally` block ends processing, closes the bubble, empties the content and re-enables the controls |
| Playground.ChatPlayground.SendSuggestion | src/app/playground.ts:731-735 | ignored while a request is in flight. A blank suggestion is left in the field and nothing else changes. Otherwise it is sent as `sendMessage` sends a field holding it: the trimmed text with the previous transcript, the streamed transcript, the error shown exactly when streaming throws, and the page idle afterwards |
| Playground.ChatPlayground.ResetChat | src/app/playground.ts:746-770 | the transcript, bubble and content are cleared and processing ends; the controls are re-enabled only when a request was in flight |

## Left out

- The DOM and rendering are not modelled: message bubbles, the thinking and loading indicators, timestamps, scrolling and focus are presentation only. `handleKeyPress` is left out too; it only calls `sendMessage` on Enter, and `sendMessage` is modelled.
- The playground's `lastProcessedLength` and `cleanup` are not modelled. `cleanup` cancels the reader; cancellation and concurrency are outside the model.
- `fetch`, `TextDecoder` and the stream reader enter as the list of decoded chunks. A `reader.read()` that itself fails midway through the stream is not modelled; a request that fails before reading is (`response == None`), and so is a frame whose handling throws.
- Playground.HandleFrame: an event whose handling throws partway (a DOM failure in `handleStreamEvent`) is not modelled; only a payload that fails to parse, or a `null` payload whose `type` cannot be read, throws in the model. A payload without a `type` field does not throw; it falls to the `default` branch.
- Logging (`console.*`) is not modelled. `safeJSONStringify` is modelled on its own, since it only feeds logs.
- `async`/`await`, timing and cancellation are not modelled. Every call is taken to complete in program order.
- JSON values are a small datatype with integer numbers. `JSON.parse` and `JSON.stringify` are parameters, so the model proves nothing about the JSON text grammar.
- `stringify` in `ChatOrchestrator` is a total function. In `processToolResponse` (src/utils/chat/orchestrator.ts:144) `JSON.stringify` runs on a tool result's content, a value the MCP client decoded from JSON, so it cannot throw; the `catch` path for a throwing `stringify` is therefore not modelled.
- The inference settings (maximum tokens, temperature, top-p) are one opaque `InferenceConfig` value. The model does not state their constants.
- The MCP transport, the client's protocol handshake and the tool servers' behaviour are parameters (`connected`, `closed`, `listTools`, `callTool`).
- `src/app/app.ts`, `src/index.ts`, `src/lambda.ts`, `src/utils/config.ts`, `src/utils/mcp-manager/servers.ts` and `src/helpers/greet.ts` are not part of this model. They hold the HTTP server, the entry points, the configuration and the static server list.
- `processUserMessage` declares three parameters: the model id, the session id and the messages. `src/app/app.ts` passes a fourth, `streaming`, which the method does not declare; JavaScript drops it. `processUserMessage` never calls `generateStreamResponse`, so `Bedrock.GenerateStreamResponse` is modelled on its own.
- `ChatOrchestrator.ProcessUserMessage` does not call the model-catalog check, because the code does not. `Bedrock.IsResponseStreamingSupported` is modelled on its own.
- `Bedrock.ConsumeStream`, `Playground.ChatPlayground.ReadChunk`, `Playground.ChatPlayground.HandleLines` and `Playground.ChatPlayground.FinishSending` are not separate functions in the source. They are the bodies of the loops and of the `finally` block they are cited at, taken out as methods.
- The stream-event fields are simplified: an event's text and its tool-input fragment are strings, with the empty string standing for an absent field, since both are falsy in the source.
- SafeJson.SafeJsonStringify: lengths are counted in Unicode scalar values (Dafny `char`), not in JavaScript's UTF-16 code units, so for text with characters outside the Basic Multilingual Plane the bound is measured and the text is cut differently, and a cut can never fall inside a surrogate pair.
- SafeJson.SliceTo: `slice` is modelled on scalar values, not on UTF-16 code units (see above).
- SafeJson.TruncatedLength: the length `maxLength + 15` is in scalar values, not UTF-16 code units (see above).
- SafeJson.SafeJsonStringifyDefault: the default bound of 100 is measured in scalar values, not UTF-16 code units (see above).
- SafeJson.NegativeBound: the cut from the end is counted in scalar values, not UTF-16 code units (see above).
