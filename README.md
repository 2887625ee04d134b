# mcp-chat-server: a verified model of the reply pipeline and the server's bookkeeping

mcp-chat-server is a chat web application. A FastAPI server (`web_server.py`)
runs an agent that can call MCP tools. It keeps conversations in memory and
streams each reply to the browser as newline-delimited JSON frames. The page
(`static/script.js`) reads those frames and turns them into the displayed
answer and a set of tool cards.

This project models, in Dafny:

- **The page's stream reader** (`handleStreamRequest`).
  - Every chunk is split on `'\n'` on its own.
  - Blank lines and lines that do not parse are skipped.
  - Each remaining line is dispatched on its `type`:
    - `content` appends to `buffer`;
    - `final` replaces `buffer` and sets `hasFinalContent`;
    - `tool_call` and `tool_result` go to the tool-card registry;
    - `error` only changes what is displayed.
  - At the end of the stream the buffer is rendered if no `final` came.
  - Modelled as a class `StreamSession.ReplySession`, proved against the reducer functions of `StreamReducer`.
- **The tool-card registry** (`createToolCardManager`): a map keyed by `tool_call_id`.
  - Modelled as the class `ToolCards.ToolCardRegistry`.
  - Its get-or-create, update-if-present and clear operations are proved against map functions.
- **The tool-icon classifier** of `createToolCard`: an eight-group keyword chain.
  - Proved equal to a first-match reading of a rule table.
- **The config-status poll rule** (`pollConfigUpdateStatus`): when to poll again and how long to wait.
- **The server's conversation store.** It covers:
  - the endpoints that list, get, create, retitle, delete and clear conversations;
  - the history window sent to the agent;
  - the automatic title;
  - the listing sorted by `updated_at`.
- **The streaming accumulator** `generate_stream`.
  - Frames are written, and `full_response` is built, from the agent's run.
  - The stored reply is appended when the stream ends.
- **The config-update status record.**
  - `update_config` validates the config and starts an update under a fresh id.
  - The background restart writes progress records only while the record still carries its own id.
- **Both ends of `/api/stream` put together** (`ServerToPage`).
  - The body is the frames' JSON lines, each followed by `'\n'`.
  - It may reach the page in any chunks cut at line boundaries.
  - The page's buffer then ends equal to the reply the server stores.

The following are inputs to the model:

- what `JSON.parse` makes of a line;
- the agent's answers and its run, given as a sequence of nodes;
- the outcome of a restart;
- fresh uuids, clock readings and their formatted form.

Time stamps are integers. Python's dict insertion order is kept as a sequence of keys next to the map.

Four behaviours of the code that the model keeps:

- The code does not carry a partial line from one chunk to the next (`static/script.js:855-858`). `StreamReducer.LineCutAcrossChunksIsLost` shows that a line cut by a chunk boundary is lost.
- A second `final` replaces the buffer again. It is not refused.
- An `error` line does not end the read loop. Later lines are still applied, and the end-of-stream fallback overwrites the error display when no `final` came.
- The default time stamps of `ChatMessage` and `Conversation` are class-level `datetime.now()` values, evaluated once at import.
  - They are modelled as one constant `bootTime`.
  - So every stored message carries it, and so do both time stamps of a conversation created inside a query.

## Model

| member | source | states |
|---|---|---|
| StreamProtocol.SplitLines | static/script.js:858 | `chunk.split('\n')` yields at least one piece |
| StreamProtocol.JoinSplit | static/script.js:858 | joining the pieces with `'\n'` gives back the chunk, so splitting loses no character |
| StreamProtocol.SplitPiecesHaveNoNewline | static/script.js:858 | no piece contains `'\n'` |
| StreamProtocol.SplitAtNewline | static/script.js:858 | splitting `a + "\n" + b` gives the pieces of `a` followed by those of `b` |
| StreamProtocol.Classify | static/script.js:861-865 | a line is blank iff `line.trim()` is empty; malformed iff non-blank and unparsable; otherwise it is the parsed event |
| StreamProtocol.ClassifyAll | static/script.js:860-862 | the lines of a chunk are classified one by one, in order |
| StreamReducer.ErrorText | static/script.js:900-906 | the display starts with the header "⚠️ **错误**" and is longer than it; what follows the header is the message, or "未知错误" when the message is empty |
| StreamReducer.Apply | static/script.js:866-906 | `hasFinalContent` becomes true exactly on a non-empty `final` and never falls; only `content`/`final` touch the buffer; only tool events touch the cards; tool and unknown events keep the display; an `error` event shows Markdown that starts with the error header and continues with the message, or "未知错误" for an empty one |
| StreamReducer.Step | static/script.js:861-911 | blank and malformed lines change nothing |
| StreamReducer.Finish | static/script.js:915-923 | at end of stream the display becomes the buffer as Markdown unless a `final` arrived; buffer, latch and cards are kept |
| StreamReducer.ReduceAppend | static/script.js:848-912 | reading `a + b` is reading `a` then `b` |
| StreamReducer.SkippedLineChangesNothing | static/script.js:861-911 | removing a blank or malformed line anywhere does not change the result; later lines are still applied |
| StreamReducer.BufferIsContentConcat | static/script.js:882-886 | without a `final`, the buffer grows by exactly the concatenated non-empty `content` texts, in order, and the latch is kept |
| StreamReducer.FinalLatch | static/script.js:785-889 | the latch is set after a stream iff it was set before or the stream holds a non-empty `final` |
| StreamReducer.FinalReplacesBuffer | static/script.js:887-899 | after the last non-empty `final` the buffer is its text followed by the later contents, however many finals came before |
| StreamReducer.FallbackShowsContent | static/script.js:915-923 | with no `final`, the page ends showing the concatenation of all contents as Markdown, even after an `error` line |
| StreamReducer.FinalSupersedesDeltas | static/script.js:882-899 | concrete run: deltas "Hel", "lo" followed by final "Hello, world!" end displayed as the final text |
| StreamReducer.ClassifyAllAppend | static/script.js:858-862 | classification distributes over concatenation of line lists |
| StreamReducer.ChunkAtLineBoundary | static/script.js:855-858 | two chunks whose boundary falls right after a `'\n'` are read as their concatenation would be |
| StreamReducer.JoinedEndsLine | static/script.js:855-858 | chunks that all end at a line boundary run together to text that does too |
| StreamReducer.ChunksAtLineBoundaries | static/script.js:848-858 | when every chunk but the last ends with `'\n'`, reading the chunks one by one is reading their concatenation as one chunk |
| StreamProtocol.SplitWithoutNewline | static/script.js:858 | a text without `'\n'` splits into itself alone |
| StreamProtocol.TerminatedLine | static/script.js:858 | a line followed by `'\n'` splits into the line and an empty remainder |
| StreamReducer.LineCutAcrossChunksIsLost | static/script.js:855-858 | concrete run: a line delivered whole is applied, the same line cut over two chunks is not |
| StreamSession.RequestFailureText | static/script.js:827-837 | a 503 shows the maintenance header, any other status the request-error header with its decimal code; a non-empty detail ends the text; a body that is not JSON ends it with "未知错误"; an empty detail ends a 503 with the restart notice and any other status with `statusText` |
| StreamSession.AfterFailure | static/script.js:924-958 | an abort keeps the display; a fetch failure shows the unreachable-server text; any other exception shows the failure header followed by its message |
| StreamSession.ReplySession.constructor | static/script.js:783-802 | the reader starts with an empty buffer, no final and an empty registry |
| StreamSession.ReplySession.ProcessLine | static/script.js:860-911 | the new state is the reducer's step on the classified line |
| StreamSession.ReplySession.ProcessChunk | static/script.js:855-912 | the new state is the reducer applied to the chunk's lines |
| StreamSession.ReplySession.FinishStream | static/script.js:915-923 | the new state is the end-of-stream fallback of the old |
| StreamSession.ReplySession.ReadStream | static/script.js:848-923 | the final state is every chunk read in order, then the fallback; from the placeholder state that is `StreamReducer.Run` of the chunks |
| StreamSession.ReplySession.RejectResponse | static/script.js:827-837 | a failed response only sets the display to the failure text |
| StreamSession.ReplySession.Fail | static/script.js:924-958 | an exception only changes the display, as `AfterFailure` says |
| ToolCards.ToolIconIsFirstMatch | static/script.js:549-577 | the if-chain picks the icon of the first keyword group, in the source's order, with a keyword in the name; otherwise the wrench |
| ToolCards.DefaultIconIffNoKeyword | static/script.js:549-577 | for any table whose icons differ from the default, the default is chosen iff no group matches |
| ToolCards.WrenchIffNoKeyword | static/script.js:549-577 | `fa-wrench` is drawn exactly for names holding none of the keywords |
| ToolCards.NewCard | static/script.js:542-713 | a new card has the name, arguments, classified icon, no result and is collapsed |
| ToolCards.AfterGetOrCreate | static/script.js:722-736 | with an id and a container the id is added, otherwise nothing; existing cards are never changed |
| ToolCards.GetOrCreateReturn | static/script.js:722-736 | a missing id returns null; an existing id returns the stored card; a new id returns the new card only if a container was given |
| ToolCards.AfterResult | static/script.js:746-753 | only the named card changes, taking the result; an unknown id changes nothing |
| ToolCards.AfterArgs | static/script.js:739-744 | only the named card changes, taking the arguments; an unknown id changes nothing |
| ToolCards.FirstWriterWins | static/script.js:722-736 | a second get-or-create with the same id keeps the first card and the same key set |
| ToolCards.ToolCardRegistry.constructor | static/script.js:717-718 | the registry starts empty |
| ToolCards.ToolCardRegistry.GetOrCreateCard | static/script.js:722-736 | the map and the returned card are those of `AfterGetOrCreate` and `GetOrCreateReturn` |
| ToolCards.ToolCardRegistry.UpdateCardArgs | static/script.js:739-744 | the map becomes `AfterArgs` of the old map |
| ToolCards.ToolCardRegistry.UpdateCardResult | static/script.js:746-753 | the map becomes `AfterResult` of the old; a warning is issued iff the id is unknown |
| ToolCards.ToolCardRegistry.Clear | static/script.js:755-762 | the registry is empty afterwards |
| ConfigPoll.RetryDelay | static/script.js:1364 | the delay after a transport error is `1000 + 100*attempts` capped at 3000: it is one of the two, at most each, and never below 1000 |
| ConfigPoll.RetryDelayMonotone | static/script.js:1364 | the delay never decreases as attempts grow |
| ConfigPoll.NextPoll | static/script.js:1287-1371 | polls again, with attempts + 1, exactly when `attempts < 60` and the poll failed or the same update is still running: after the backoff or after 1000 ms; past 60 it gives up or times out; a different `update_id` stops polling; a finished update reports its `success` and its message, or the default success or failure text when the message is empty |
| ConfigPoll.PollsBounded | static/script.js:1297-1356 | from `attempts` at most `61 - attempts` polls are made, whatever the replies |
| ConfigPoll.TotalWaitBounded | static/script.js:1323-1365 | the total wait is at most 3000 ms per poll |
| Conversations.FreshTitle | web_server.py:956-960 | a fresh conversation's title starts with "新对话" (the same title is made at line 492) |
| Conversations.HistoryWindow | web_server.py:500-516 | for `history_turns > 0` the window has `2*min(history_turns, len/2)` messages and is a suffix; otherwise it is empty |
| Conversations.HistoryWindowIsLongest | web_server.py:504-508 | no longer even-length suffix within the turn limit exists |
| Conversations.ToModelMessages | web_server.py:509-516 | one model message per stored message, same content, user prompts exactly for user messages |
| Conversations.TitleFromQuery | web_server.py:566-568 | a query over 30 characters becomes its first 30 characters plus "..." (33 in all); a shorter one is kept |
| Conversations.AutoTitle | web_server.py:564-568 | only the title may change, and it changes to the query title exactly when it starts with "新对话" and there are exactly 2 messages (the same rule at lines 777-781) |
| Conversations.Put | web_server.py:964 | storing keeps the store well-formed, updates the map, keeps the key's place or appends a new key (also line 497) |
| Conversations.Delete | web_server.py:931 | removes exactly that key; an unknown key changes nothing |
| Conversations.Resolve | web_server.py:487-497 | a request naming a stored conversation keeps the store; otherwise a fresh unnamed conversation is filed under the fresh id |
| Conversations.OrderedValues | web_server.py:903-907 | the values in insertion order |
| Conversations.SortByUpdatedDesc | web_server.py:903-907 | the result is sorted by `updated_at` descending and is a permutation of the input |
| Conversations.Listing | web_server.py:897-909 | the listing is sorted by `updated_at` descending, a permutation of the stored values, holds every stored conversation and each only once |
| ReplyStream.OnToolEvent | web_server.py:718-733 | a tool call appends its `tool_call` frame and a tool return its `tool_result` frame, with the event's fields; `full_response` is left alone |
| ReplyStream.OnEnd | web_server.py:735-742 | a `final` frame is written iff the result is non-empty and differs from `full_response`; a non-empty result becomes `full_response` |
| ReplyStream.GenerateStream | web_server.py:682-760 | the loop, with the node dispatch as written at line 718, yields the frames and `full_response` of `GenerateAsWritten`: the reply is the concatenation of all deltas and no `final` frame is written |
| ReplyStream.DeltasAppend | web_server.py:713-717 | content deltas append exactly their concatenation (empty ones skipped) and write no `final` |
| ReplyStream.ToolEventsKeepReply | web_server.py:718-733 | tool events leave the reply and write no `final` |
| ReplyStream.WithoutEndReplyIsDeltas | web_server.py:708-742 | a run without an end node stores exactly the concatenation of all deltas and writes no `final` |
| ReplyStream.EndNodeDecidesReply | web_server.py:735-742 | a run ending with a non-empty result stores that result |
| ReplyStream.AsWrittenNeverFinal | web_server.py:718 | as written, no `final` frame is ever written and the reply is always the concatenation of the deltas |
| ReplyStream.AsWrittenReplyIsDeltas | web_server.py:708-760 | as written, a whole stream stores the concatenation of all deltas and its body carries no `final` frame |
| ReplyStream.PreambleIsStoredAsWritten | web_server.py:718-742 | concrete run where the stored reply differs between the code as written and the intended dispatch |
| ConfigUpdate.BuildProgress | web_server.py:316-396 | one to three progress records of the task, all still updating with no verdict; the first reports creating, the second (if the build got that far) loading, the third starting |
| ConfigUpdate.RestartRecords | web_server.py:284-446 | every record the restart task writes carries its id; all but the last are progress records; the last closes the record with success iff the restart succeeded |
| ConfigUpdate.StaleTaskWritesNothing | web_server.py:293-439 | a task whose id is no longer in the record changes nothing, however many writes it tries |
| ConfigUpdate.CurrentTaskEndsWithLast | web_server.py:293-446 | a task owning the record keeps it and leaves it equal to its last write |
| ConfigUpdate.RestartVerdict | web_server.py:284-446 | after a restart task the record is closed with its outcome if the task still owned it, and untouched otherwise |
| ConfigUpdate.NewerUpdateWins | web_server.py:818-824 | once a newer update has installed its record, the older task's remaining writes leave it alone whose guard is at line 293 |
| ChatServer.Admit | web_server.py:471-485 | the query gates never touch the conversation store (the same gates at lines 609-623) |
| ChatServer.Server.constructor | web_server.py:65-81 | the server starts with no conversations, the initial status record and no pending restart |
| ChatServer.Server.ListConversations | web_server.py:897-909 | the listing is sorted newest first and holds each stored conversation exactly once |
| ChatServer.Server.GetConversation | web_server.py:912-920 | returns the stored conversation iff the id is known, otherwise 404 "对话不存在" |
| ChatServer.Server.DeleteConversation | web_server.py:923-933 | a known id is removed and nothing else; an unknown id raises 404 and changes nothing |
| ChatServer.Server.DeleteAll | web_server.py:936-943 | the store is empty afterwards, the rest of the state kept |
| ChatServer.Server.CreateConversation | web_server.py:946-966 | a fresh unnamed conversation created and updated now, filed under the fresh id |
| ChatServer.Server.UpdateTitle | web_server.py:969-981 | an unknown id raises 404 and changes nothing; otherwise the title becomes the given one or "新对话", and `updated_at` becomes now |
| ChatServer.Server.WriteStatusIfCurrent | web_server.py:293-301 | the record is replaced only when its id equals the task's |
| ChatServer.Server.WriteBuildProgress | web_server.py:316-396 | building the new agent writes, each guarded by the task id, the progress records of `BuildProgress` up to the step that raised, and touches nothing else |
| ChatServer.Server.RestartAgentTask | web_server.py:284-446 | the new state is `AfterRestart`: the guarded writes of `RestartRecords`, the flag set iff the restart failed, an agent after success |
| ChatServer.Server.RestartCrashed | web_server.py:434-446 | when closing or restarting raises, the new state is `AfterRestart` for that crash: the closing report, then the failed verdict, and the restart flag set again |
| ChatServer.Server.RestartBuildFailed | web_server.py:420-432 | when building the new agent raises, the new state is `AfterRestart` for that failure: the closing report, the build steps reached, the failed verdict, and the restart flag set again |
| ChatServer.Server.RestartSucceeded | web_server.py:397-418 | after a successful build the new state is `AfterRestart` for success: all reports, the success verdict, the flag cleared and an agent ready |
| ChatServer.Server.AdmitQuery | web_server.py:471-485 | the state and refusal are those of `Admit` (the same gates at lines 609-623) |
| ChatServer.Server.ResolveConversation | web_server.py:487-497 | the store becomes `Resolve` of the old and the returned id is stored (the same at lines 625-635) |
| ChatServer.Server.Query | web_server.py:458-593 | state, answer and history sent are those of `QuerySpec` |
| ChatServer.Server.QueryAdmitted | web_server.py:487-593 | once admitted, state, answer and history sent are those of `QueryReply`, the admitted branch of `QuerySpec` |
| ChatServer.Server.QueryStream | web_server.py:596-791 | state, frames and history sent are those of `StreamSpec`, which runs the node dispatch as written |
| ChatServer.Server.StreamAdmitted | web_server.py:625-791 | once admitted, state, frames and history sent are those of `StreamReply`, the admitted branch of `StreamSpec` |
| ChatServer.Server.UpdateConfig | web_server.py:795-857 | state, response and scheduled task are those of `UpdateConfigSpec` |
| ChatServer.UpdatingRefusesQueries | web_server.py:471-475 | while an update runs both query endpoints raise 503 and change nothing (lines 609-614 for the stream) |
| ChatServer.QueryStoresExchange | web_server.py:487-561 | an answered query appends exactly question and answer, sets `updated_at`, keeps every other conversation and the key set, and sent the window of the earlier messages |
| ChatServer.QueryReplyStoresExchange | web_server.py:487-561 | the admitted branch alone: question and answer appended to the resolved conversation, `updated_at` set, every other conversation and the key set kept, the window of the earlier messages sent |
| ChatServer.FailedQueryStoresNoMessage | web_server.py:546-593 | when the agent raises, the answer is 500 with the message and no message is stored |
| ChatServer.StreamStoresPromptFirst | web_server.py:637-781 | the question is stored before the run; the reply is appended iff it is non-empty; the history never holds the new question |
| ChatServer.StreamReplyStoresPromptFirst | web_server.py:637-781 | the admitted branch alone: the question is appended first, the reply after it iff it is non-empty, and the history sent never holds the new question |
| ChatServer.StreamAgreesWithQuery | web_server.py:546-781 | a non-empty streamed reply leaves the same state and sends the same history as the plain query with that answer |
| ChatServer.FirstQueryTitlesConversation | web_server.py:487-568 | the first answered query on an unnamed new conversation titles it after the question |
| ChatServer.MissingServersChangesNothing | web_server.py:810-814 | a config without "mcpServers" is refused and the state is unchanged |
| ChatServer.UpdateThenRestart | web_server.py:817-837 | an accepted update refuses queries (gate at lines 471-475) until its task has run; the task (lines 284-446) closes the record with its outcome; after success queries are admitted |
| ChatServer.SecondUpdateOwnsRecord | web_server.py:818-824 | with two updates, the first task leaves the second's record alone and the second task closes it |
| ServerToPage.FrameLines | web_server.py:690-761 | each frame the server yields, read as one whole line, is parsed by the page (static/script.js:858-865) into the matching event |
| ServerToPage.BodySplit | web_server.py:690-761 | the body, split on `'\n'`, gives back each frame's JSON text in order and an empty remainder, provided json.dumps writes a frame as one line |
| ServerToPage.BodyLines | static/script.js:858-865 | the page classifies the whole body as the frames' events followed by one blank line |
| ServerToPage.ChunkedBodyReadsAsFrames | static/script.js:848-912 | the body delivered in any chunks cut at line boundaries leaves the page exactly where reading the frames as whole lines does |
| ServerToPage.ChunkedPageBufferIsStoredReply | web_server.py:682-791 | for every agent run, with either node dispatch, the page's buffer after reading the body in line-aligned chunks equals the reply the server stores |
| ServerToPage.ChunkedAsWrittenPageShowsStoredReply | static/script.js:915-923 | with the server as written and the body in line-aligned chunks, the page ends showing the stored reply as Markdown |
| ServerToPage.PageBufferIsStoredReply | web_server.py:682-791 | for every agent run, the page's buffer after reading every frame as a whole line (static/script.js:848-912) equals the reply the server stores, with either node dispatch |
| ServerToPage.AsWrittenPageShowsStoredReply | static/script.js:915-923 | with the server as written (web_server.py:718) and every frame read as a whole line, the page always ends on its fallback and shows the stored reply as Markdown |

## Left out

- The DOM is not modelled: rendering (`updateMarkdownContent`, `updateStreamingContent`, `addMessage`), the card HTML, cursor blinking, scrolling, and the `marked`/`DOMPurify`/`hljs` calls. The display is the abstract `View`.
- The regex inline formatter of the streaming display is not modelled. `Streaming(text)` records only which text is shown.
- `fetch`, `TextDecoder`, `AbortController` and `setTimeout` are not modelled. Chunks, failures and poll outcomes are inputs, and the poll rule returns the delay instead of scheduling it.
- `JSON.parse` is a parameter `parse`, and json.dumps a parameter `encode`. The end-to-end lemmas assume that `encode` writes each frame as one non-blank line without a raw `'\n'` and that `parse` reads it back. The `args`/`result` JSON pretty-printing inside a card is not modelled; they stay strings.
- The registry's card objects are values, not DOM-bearing objects. A `tool_call_id` equal to an inherited JavaScript property name (such as "constructor") is not distinguished from a missing key.
- ServerToPage.ChunkedPageBufferIsStoredReply: covers chunks cut at line boundaries only. The reader does not carry a partial line over (see `LineCutAcrossChunksIsLost`), so a frame cut by a chunk boundary is lost and the buffer can differ from the stored reply.
- A `tool_call` line without `tool_name` is not modelled. For a new `tool_call_id`, `toolName.includes` throws in `createToolCard` (static/script.js:553); the catch skips the line and no card is made.
- A `content` or `final` field holding a non-string JSON value is not modelled. `buffer += data.content` appends its JavaScript string form, and a falsy value such as 0 is skipped. The model's event fields are strings, as the server writes them.
- ConfigPoll.RetryDelay: uses the integer form `1000 + 100*attempts` of the floating-point `1000*(1 + attempts*0.1)`.
- The CodeMirror editor, modals, tabs and conversation-list UI wiring are not modelled.
- `client.py` is not part of this model.
- Agent and MCP server construction, `AsyncExitStack`, and `agent.run`/`agent.iter` are not modelled. A query gets the agent's answer or exception message as input, and a streaming query gets the run as a node sequence.
- The system prompt choice (`use_default_system_prompt`, the config file) and the usage statistics are not modelled. They do not touch the stored state.
- Reading and writing `mcp_config.json`, `GET /api/config` and `load_mcp_servers_from_config` are not modelled. Whether the config has "mcpServers" and whether saving raised are inputs.
- `restart_agent_task`, the compatibility wrapper, is not modelled. It only calls the modelled task with a fresh id.
- ChatServer.Server.RestartAgentTask: every record of one task carries the same time stamp, although the source reads the clock at each write. A crash of the outer block is modelled only right after the first progress write.
- ReplyStream.GenerateStream: a crash is modelled after the nodes given. A crash in the middle of a node is the same run with its node list cut.
- Concurrency is not modelled. Requests, the background restart and a streaming body are applied one after another. An interleaving in which the conversation is deleted while its reply streams (the source logs a KeyError) is not covered.
- `UpdateTitle` takes the body's "title" as an optional string. A non-string JSON value is not modelled.
- Python's `sorted` is stable. `SortByUpdatedDesc` is a stable insertion sort, but the listing's order among equal `updated_at` values is not stated as a contract.

## Findings

| source | as written | input that shows it | evidently intended | confidence | as-written member | corrected member |
|---|---|---|---|---|---|---|
| web_server.py:718 | `elif agent.is_call_tools_node:` tests the method object, which is always truthy. Every node that is not a model request takes the tool-call branch, so the end-node branch at lines 735-742 never runs: no `final` frame is ever sent, and any text streamed before a tool call stays in the stored reply | agent run: model request streaming "Let me search. ", tool-call node, model request streaming "Answer", end node with result "Answer". The stored reply is "Let me search. Answer" | `elif agent.is_call_tools_node(node):`. The end node reaches its branch, a `final` frame carries the result, and the stored reply is "Answer" | not executed | ReplyStream.GenerateAsWritten, ReplyStream.GenerateStream, ReplyStream.AsWrittenNeverFinal, ReplyStream.PreambleIsStoredAsWritten | ReplyStream.Generate, ReplyStream.OnEnd, ReplyStream.EndNodeDecidesReply |
