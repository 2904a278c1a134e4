# A verified model of the MCP gateway and the prompt editor

This project models, in Dafny, the logic of two cooperating programs.

- **The local MCP gateway** is written in Python. It has four parts:
  - the stdio JSON-RPC client that talks to a child MCP server;
  - the process supervisor with its persisted server configuration;
  - the gateway routes, which cache clients, merge tool catalogs and dispatch JSON-RPC messages to SSE queues;
  - the stdio bridge that forwards an editor's MCP requests to the gateway.
- **The prompt editor's front end** is written in JavaScript. The model covers:
  - template migration, versioning, drafts, filtering and copying in `App.jsx`;
  - the tag tree of the tag manager and the tag filter;
  - the plain-text editor's conversion between text and paragraphs;
  - variable extraction in the prompt-to-skill dialog;
  - the variable substitution of the Markdown preview and the visual editor;
  - the language-model adapter with its chunked SSE reader;
  - the media-path handling of the desktop service;
  - the API-key scan before publishing;
  - the grouping of tools by server;
  - the small helpers for unique keys, localized text and string hashing.

Each core source file has a module of its own. Shared modules hold the value types the sources share:
- `JsonValues`: decoded JSON, `json.dumps`, truthiness in both languages;
- `Dicts`: insertion-ordered dictionaries;
- `Text`: string built-ins;
- `Scanner`: global regular-expression scanning, as `match`, `replace` and `split` do it;
- `Placeholders`: the `{{key}}` syntax;
- `Selections`: the bank choices stored on a template;
- `Lists`: filtering.

Objects whose fields the source updates become classes:
- the JSON-RPC client with its futures;
- the process records and the process supervisor;
- the gateway with its client cache and SSE queues;
- the prompt-to-skill dialog's state.

Their methods are specified against functions of their old state. Code that computes values becomes functions and lemmas. Loops in the source are methods with loop invariants, proved equal to a specification function.

I/O is replaced by values:
- an OS process is a success or failure outcome and a sequence of reply lines;
- the file system is an in-memory document;
- an HTTP call or `fetch` is a function parameter, and a response body is a sequence of chunks.

Where the documentation and the code disagree, the model follows the code. In particular, `get_client` keeps any client it has cached. The test of `_is_running` in `mcp_host/api/mcp_routes.py:32-34` runs only for names that are not cached, so it never fires for a cached client.

## Specification functions

Several operations are specification functions without a contract of their own. Each one models the source lines given, and the lemmas of its module (rows below) state its properties.

- `LlmAdapter.InvokeLlm` (`prompt_fill/src/services/llm-adapter.js:70-80`): `LlmAdapter.InvokeSends`, `LlmAdapter.CallbackOnce`, `LlmAdapter.HttpErrorRejected`, `LlmAdapter.UnknownTypeAsCustom`.
- `LlmAdapter.InvokeCustom` (`prompt_fill/src/services/llm-adapter.js:82-124`): `LlmAdapter.CustomSends`.
- `LlmAdapter.InvokeGemini` (`prompt_fill/src/services/llm-adapter.js:126-154`): `LlmAdapter.GeminiSends`.
- `LlmAdapter.InvokeQwen` (`prompt_fill/src/services/llm-adapter.js:156-195`): `LlmAdapter.QwenSends`.
- `LlmAdapter.IsLlmConfigured` (`prompt_fill/src/services/llm-adapter.js:202-215`): `LlmAdapter.ConfiguredIffRequest`, `LlmAdapter.NonObjectNotConfigured`.
- `LlmAdapter.ChatAnswer` (`prompt_fill/src/services/llm-adapter.js:110-123`): `LlmAdapter.ChatAnswerCalls`.
- `LlmAdapter.StreamOutcome` (`prompt_fill/src/services/llm-adapter.js:24-56`): `LlmAdapter.PlainBodyIgnored`, `LlmAdapter.IntendedAgrees`, `LlmAdapter.StreamOpenAICompatibleResponse`.
- `App.Migrate` (`prompt_fill/src/App.jsx:194-212`): `App.MigrateMeaning`, `App.MigrateIdempotent`, `App.LookupMigrate`.
- `App.DisplayTemplates` (`prompt_fill/src/App.jsx:370-384`): `App.DisplayTemplatesMeaning`.
- `App.DeleteTemplate` (`prompt_fill/src/App.jsx:424-439`): `App.DeleteTemplateMeaning`.
- `App.NewVersion` (`prompt_fill/src/App.jsx:273-291`): `App.NewVersionMeaning`.
- `App.ApplyDraft` (`prompt_fill/src/App.jsx:584-610`): `App.VersionHandlers`.
- `App.RestoreVersion` (`prompt_fill/src/App.jsx:273-291`): `App.VersionHandlers`.
- `App.TagMenuToggle` (`prompt_fill/src/App.jsx:789-793`): `App.TagMenuToggleMeaning`.
- `App.ToggleDirectory` (`prompt_fill/src/App.jsx:82-96`): `App.ToggleDirectoryMeaning`.
- `Bridge.CallTool` (`ps-mcp-bridge.py:38-64`): `Bridge.CallToolOutcome`, `Bridge.CallToolFirstMatch`, `Bridge.CallToolFailures`, `Bridge.CallToolFrame`.
- `Bridge.Answer` (`ps-mcp-bridge.py:66-98`): `Bridge.AnswerKinds`, `Bridge.AnswerFrame`, `Bridge.HandleLine`.
- `Bridge.Session` (`ps-mcp-bridge.py:66-100`): `Bridge.SessionFrames`, `Bridge.SessionSkips`, `Bridge.Serve`.
- `McpRoutes.AnswerFrom` and `McpRoutes.AfterCall` (`mcp_host/api/mcp_routes.py:87-112`): what a call on a client in a given state returns, and the state it leaves; `McpRoutes.AnswerFromReply`, `McpRoutes.CallOnState`.
- `McpRoutes.Catalog` and `McpRoutes.ListPass` (`mcp_host/api/mcp_routes.py:84-96`): the merged answers of one `list_tools` pass, and the client states it leaves; `McpRoutes.ListPassBegin`, `McpRoutes.ListStep`, `McpRoutes.MergeSplit`.
- `McpRoutes.Called` and `McpRoutes.CallStep` (`mcp_host/api/mcp_routes.py:108-112`): the result of one `tools/call` request through `get_client`, and the client states it leaves; `McpRoutes.AnswerFromReply`.
- `McpRoutes.Respond` (`mcp_host/api/mcp_routes.py:166-249`): `McpRoutes.RespondShape`, `McpRoutes.RespondFixedMethods`, `McpRoutes.RespondToolsCall`.
- `TagTree.RemoveByPath` (`prompt_fill/src/components/TagManager.jsx:4-20`): `TagTree.RemoveByPathShape`.
- `TauriService.ConvertHtml` (`prompt_fill/src/services/tauri-service.js:243-251`): `TauriService.HtmlOfReferences`, `TauriService.HtmlWithoutSrc`.
- `TauriService.MediaFileName` (`prompt_fill/src/services/tauri-service.js:14-22`): `TauriService.FileNameParts`.
- `MarkdownPreview.ProcessedContent` (`prompt_fill/src/components/MarkdownPreview.jsx:26-61`): `MarkdownPreview.NoSelectionsKeepsContent`, `MarkdownPreview.NoVariablesKeepsContent`, `MarkdownPreview.PlaceholderThenRest`.
- `McpService.ListMcpTools` (`prompt_fill/src/services/mcp-service.js:6-15`): `McpService.FetchFallbacks`.
- `StdioClient.Deliver` (`mcp_host/services/stdio_client.py:66-87`): `StdioClient.DeliverOnlyTarget`, `StdioClient.DeliverIdempotent`.

## Model

| member | source | states |
|---|---|---|
| StdioClient.Future.constructor | mcp_host/services/stdio_client.py:93 | a new future is not done |
| StdioClient.RequestFrameFields | mcp_host/services/stdio_client.py:96-101 | a request frame carries `jsonrpc` "2.0", its id, its method and its parameters (`{}` by default) |
| StdioClient.NotificationHasNoId | mcp_host/services/stdio_client.py:114-118 | a notification frame has no `id` and carries its method |
| StdioClient.ErrorMessage | mcp_host/services/stdio_client.py:73-81 | an error object gives a non-empty message: `"message data"` stripped, or the object's JSON text when that is blank; any other error value gives its `str()` |
| StdioClient.DeliverOnlyTarget | mcp_host/services/stdio_client.py:66-87 | a message completes at most the entry its id names, and only while it is waiting; every other entry and the key set are unchanged |
| StdioClient.DeliverIdempotent | mcp_host/services/stdio_client.py:70-72 | a repeated answer changes nothing, because a done future is skipped |
| StdioClient.ReadLine | mcp_host/services/stdio_client.py:50-58 | reading one line never adds or drops a pending key |
| StdioClient.ReadLines | mcp_host/services/stdio_client.py:41-64 | the read loop over any lines never adds or drops a pending key |
| StdioClient.ReadLinesKeepsDone | mcp_host/services/stdio_client.py:70-72 | a future that is done keeps its outcome whatever the child prints later |
| StdioClient.AnswerSettles | mcp_host/services/stdio_client.py:83-84 | a success answer for a waiting request, alone on its line, resolves it with `result` and keeps the loop running |
| StdioClient.ErrorAnswerFails | mcp_host/services/stdio_client.py:73-82 | an error answer for a waiting request fails it with the error's message |
| StdioClient.AnswerCompletes | mcp_host/services/stdio_client.py:66-84 | an answer whose id names a waiting request completes exactly that entry |
| StdioClient.StdioRpcClient.constructor | mcp_host/services/stdio_client.py:11-15 | a new client has request id 0, no pending request, is not running and has written nothing |
| StdioClient.StdioRpcClient.Start | mcp_host/services/stdio_client.py:17-23 | without a process handle `start` fails with the not-started message; a second `start` on a running client creates no second read loop; otherwise exactly one loop is started |
| StdioClient.StdioRpcClient.HandleMessage | mcp_host/services/stdio_client.py:66-87 | a message without an object shape or with an unhashable id raises and changes nothing; otherwise the futures become `Deliver` of the old ones |
| StdioClient.StdioRpcClient.ReadOne | mcp_host/services/stdio_client.py:45-58 | one pass of the loop body: a blank or unparsable line is skipped; the new futures and the running flag are `ReadLine` of the old ones |
| StdioClient.StdioRpcClient.Pump | mcp_host/services/stdio_client.py:41-64 | a running loop leaves the futures and the running flag as `ReadLines` describes, and is not running after end of stream or a raising message; a loop that is not running reads nothing |
| StdioClient.StdioRpcClient.SendRequest | mcp_host/services/stdio_client.py:89-106 | the request id grows by exactly 1 and is the new id, which was not pending; one newline-terminated request frame with that id is written; without a process handle nothing is written and the id is not left pending |
| StdioClient.StdioRpcClient.Await | mcp_host/services/stdio_client.py:108-110 | the wait yields the future's result or exception, or the timeout when it is still waiting (the future is then cancelled); the id leaves the pending table in every case |
| StdioClient.StdioRpcClient.Collect | mcp_host/services/stdio_client.py:41-110 | what the wait yields is the answer the read loop finds for the id among the child's replies; the running flag and the other futures are what the read loop leaves (untouched when the loop was not running); the id is removed from the pending table afterwards |
| StdioClient.StdioRpcClient.Call | mcp_host/services/stdio_client.py:89-110 | each call raises the request id by 1 and uses it, writes exactly one frame, and leaves the pending table's keys as it found them (the id is gone whether the call succeeds, fails or times out); the result is `CallResult` of the futures before the call; the other futures and the running flag end as the read loop over the replies leaves them; without a process handle nothing is written and nothing else changes |
| StdioClient.StdioRpcClient.Notify | mcp_host/services/stdio_client.py:112-121 | a notification frame (no id) is written; the request id and the pending table are untouched |
| StdioClient.StdioRpcClient.Stop | mcp_host/services/stdio_client.py:25-39 | every waiting future fails with "Client stopped", done ones keep their outcome, the pending table is emptied and the client is not running |
| ProcessManager.MergeEnvLookup | mcp_host/services/process_manager.py:30-32 | in the child's environment a custom variable overrides the system one; every other system variable passes through |
| ProcessManager.McpProcess.constructor | mcp_host/services/process_manager.py:15-22 | a new process keeps its name, command, arguments, directory and environment, and has no handle and is not running |
| ProcessManager.McpProcess.Start | mcp_host/services/process_manager.py:24-47 | the start succeeds exactly when the command line and the environment can be built and the spawn succeeds; it then runs `[command] + args` with the merged environment; a failure leaves it not running |
| ProcessManager.McpProcess.Stop | mcp_host/services/process_manager.py:49-58 | a process with a handle is no longer running; one without is left as it was |
| ProcessManager.ConfigOf | mcp_host/services/process_manager.py:94-100 | an unreadable or unparsable file reads as `{"servers": {}}` |
| ProcessManager.StartedRecordFields | mcp_host/services/process_manager.py:124-133 | the saved record says running and has the requested command, arguments and environment (a missing one saved as `None`); every other field is kept |
| ProcessManager.FreshRecordWithoutArgs | mcp_host/services/process_manager.py:125-131 | a new name whose record has no `args` never starts: saving it set `args` to `None` in the caller's own record |
| ProcessManager.LaunchRecordSettings | mcp_host/services/process_manager.py:141-144 | a record that names its arguments starts with the same command, arguments and environment whether or not the name is new |
| ProcessManager.SkillInfoFields | mcp_host/services/process_manager.py:157-175 | a skill runs as `uv run <runner> <script>` when the uv path contains "uv", otherwise as `<python> <runner> <script>`, with `auto_start` true and `last_status` running |
| ProcessManager.StoppedDiskRecords | mcp_host/services/process_manager.py:178-183 | stopping a name never creates a record; an existing record says stopped; every other record is unchanged |
| ProcessManager.StoppedDiskAllRecords | mcp_host/services/process_manager.py:189-193 | after stopping several names, each of them that has a record says stopped and the records of the other names are unchanged |
| ProcessManager.ActiveNames | mcp_host/services/process_manager.py:114-120 | every active name is a configured name |
| ProcessManager.ActiveNamesExact | mcp_host/services/process_manager.py:114-120 | a name is active exactly when some record under it says `last_status` running |
| ProcessManager.McpProcessManager.constructor | mcp_host/services/process_manager.py:70-92 | no child is registered; the uv path is the one found on the search path or the running interpreter; a missing configuration file is created as `{"servers": {}}` |
| ProcessManager.McpProcessManager.LoadConfig | mcp_host/services/process_manager.py:94-100 | an unreadable configuration reads as no servers |
| ProcessManager.McpProcessManager.GetLastActiveServers | mcp_host/services/process_manager.py:114-120 | the result is exactly the configured names whose record says running, in file order |
| ProcessManager.McpProcessManager.StartServer | mcp_host/services/process_manager.py:122-155 | the record is saved as running before anything else, even when the start then fails; a server already running keeps its process and the table is unchanged; a missing command, an unbuildable command line or environment, or a failed spawn registers nothing; otherwise exactly one new child is registered last under the name, running with the saved record's command, arguments, directory and environment, its argv `[command] + args` and the system environment overridden by the record's |
| ProcessManager.McpProcessManager.Launch | mcp_host/services/process_manager.py:137-155 | the registration half of `start_server`: the table and the order change only by one new running child appended under the name, only when the server was not running and the settings and the spawn succeed; the child has exactly the settings' command line, directory and merged environment |
| ProcessManager.McpProcessManager.StartSkill | mcp_host/services/process_manager.py:157-176 | the skill's record (`uv run` or the interpreter, the runner and the script) is saved as `start_server` saves it and launched as `start_server` launches it; a skill already running keeps its process |
| ProcessManager.McpProcessManager.StopServer | mcp_host/services/process_manager.py:178-187 | the record, if any, says stopped; the name leaves the process table; the other children are untouched |
| ProcessManager.McpProcessManager.Shutdown | mcp_host/services/process_manager.py:189-193 | afterwards no child is registered, every registered name's record says stopped, and every child that was registered is no longer running |
| McpRoutes.Tagged | mcp_host/api/mcp_routes.py:87-95 | a server contributes only tool objects; a failed call or a malformed result contributes nothing |
| McpRoutes.TaggedFields | mcp_host/api/mcp_routes.py:90-91 | each contributed tool has `_server_name` equal to its server and keeps every other field |
| McpRoutes.TaggedFailure | mcp_host/api/mcp_routes.py:93-95 | a server whose lookup or call raises contributes no tools |
| McpRoutes.Merge | mcp_host/api/mcp_routes.py:84-96 | every catalog entry is a tool object |
| McpRoutes.MergeSplit | mcp_host/api/mcp_routes.py:84-96 | per-server isolation: the catalog is the servers before `i`, then server `i`'s tools, then the servers after it, so one server's answer or failure changes no other server's tools |
| McpRoutes.MergeTagged | mcp_host/api/mcp_routes.py:90-92 | every catalog tool is tagged with one of the servers |
| McpRoutes.FindOwnerFirst | mcp_host/api/mcp_routes.py:203-209 | a found owner is the `_server_name` of a tool with that name, and no earlier tool has that name |
| McpRoutes.FindOwnerAbsent | mcp_host/api/mcp_routes.py:206-211 | a catalog without a tool of that name yields no owner |
| McpRoutes.RpcResultShaped | mcp_host/api/mcp_routes.py:169-179 | a result response has `jsonrpc` "2.0", the request's id, and a `result` but no `error` |
| McpRoutes.RpcErrorShaped | mcp_host/api/mcp_routes.py:191-195 | an error response has `jsonrpc` "2.0", the request's id, and an `error` but no `result` |
| McpRoutes.RespondShape | mcp_host/api/mcp_routes.py:166-249 | every response the dispatcher builds is such a message, with exactly one of `result` and `error` |
| McpRoutes.RespondFixedMethods | mcp_host/api/mcp_routes.py:168-249 | `initialize` and `ping` always answer with a result; `notifications/initialized` never gets an answer; an unknown method gets -32601 "Method not found" when it has an id and no answer otherwise |
| McpRoutes.RespondToolsCall | mcp_host/api/mcp_routes.py:197-236 | a tool no catalog entry names is answered -32601 "Tool <name> not found"; a tool with a truthy owner relays the owner's result, or -32603 with the failure |
| McpRoutes.RespondUnowned | mcp_host/api/mcp_routes.py:231-236 | no owner found: -32601 "Tool <name> not found" |
| McpRoutes.MessagesUrl | mcp_host/api/mcp_routes.py:131-132 | the endpoint ends with `/api/v1/mcp/messages` |
| McpRoutes.MessagesUrlSlashes | mcp_host/api/mcp_routes.py:131-132 | the base URL comes first with its trailing slashes removed, so the slash before the path is never doubled |
| McpRoutes.SseQueue.constructor | mcp_host/api/mcp_routes.py:125 | a new queue is empty |
| McpRoutes.SkillEntriesExact | mcp_host/api/mcp_routes.py:263-270 | there is an entry `{name: f[:-3], filename: f}` exactly for each `.py` file of the listing, and no other entry |
| McpRoutes.AddReady | mcp_host/api/mcp_routes.py:49 | caching a new ready client keeps every cached client ready |
| McpRoutes.AnswerFromReply | mcp_host/services/stdio_client.py:66-87 | a running client whose child's first reply line answers its next request id gets that reply's `result`, or its error's message, whatever the child prints after it; a client whose read loop has stopped always gets the timeout |
| McpRoutes.CallOnState | mcp_host/services/stdio_client.py:89-110 | a call on a client with a handle, as the client's `call` reports it, answers `AnswerFrom` its state and leaves it in `AfterCall` |
| McpRoutes.ListPassBegin | mcp_host/api/mcp_routes.py:84-96 | one pass of `list_tools` over distinct server names leaves each of them exactly one `tools/list` call further and every other client as it was |
| McpRoutes.ListStep | mcp_host/api/mcp_routes.py:84-92 | the pass over the first i+1 servers is the pass over the first i followed by the call on server i, which starts from that server's state before the pass; its answer is appended to the answers |
| McpRoutes.CatalogServes | mcp_host/api/mcp_routes.py:84-96 | when a server's running client's child answers that client's next request id first, the catalog is that of the servers before it, then exactly the tools of that reply tagged with the server's name, then the catalog of the servers after it |
| McpRoutes.CalledServes | mcp_host/api/mcp_routes.py:108-113 | a `tools/call` request to a served server whose running client's child answers its next request id first gives that reply's `result`, or its error's message |
| McpRoutes.Reply500 | mcp_host/api/mcp_routes.py:113-115 | the REST reply is the call's result on success and a 500 with the failure's message otherwise |
| McpRoutes.Gateway.constructor | mcp_host/api/mcp_routes.py:15 | the gateway starts with no cached client and no SSE queue |
| McpRoutes.Gateway.GetClient | mcp_host/api/mcp_routes.py:17-50 | a cached client is returned as it is, and nothing is started or created; without a cache entry, a name with no child and no configured record (or a child that does not start) gives the 404 and caches nothing; otherwise a new client is cached whose first frame is the `initialize` request with protocol version "2024-11-05", even when the handshake fails |
| McpRoutes.Gateway.ClientOf | mcp_host/api/mcp_routes.py:17-50 | after `get_client` a client is cached for the name exactly when one was before or a child is registered under it; only that client's state may change, to its cached state or the state of a new client after its handshake |
| McpRoutes.Gateway.Connect | mcp_host/api/mcp_routes.py:18-49 | the uncached half of `get_client`: a client exactly when a child is registered afterwards, cached under the name |
| McpRoutes.Gateway.Attach | mcp_host/api/mcp_routes.py:36-49 | a new client for the registered child: handshaken (request id 1, `initialize` written first) and cached |
| McpRoutes.Gateway.Remember | mcp_host/api/mcp_routes.py:49 | `clients[name] = client` adds the new client's state under the name and keeps every cached client ready |
| McpRoutes.Gateway.EnsureProcess | mcp_host/api/mcp_routes.py:19-28 | the registered child is used as it is; an unregistered name with a non-empty configured record is started: the record is saved as started and exactly one child is launched from it; without a record the configuration is untouched and there is no child |
| McpRoutes.Gateway.Handshake | mcp_host/api/mcp_routes.py:36-48 | the new client has written the `initialize` request with id 1 first and has no request left pending |
| McpRoutes.Gateway.FetchTools | mcp_host/api/mcp_routes.py:84-88 | the listing call leaves the supervisor untouched and a client cached for the name; its result is `AnswerFrom` the state the server's client was in (the cached one, or a new client after its handshake): the reply the read loop finds for that client's next request id among the child's `tools/list` lines, the timeout when none answers it or the loop has stopped, or the no-stdin failure without a handle; that client is one call further and every other cached client is unchanged |
| McpRoutes.Gateway.Ask | mcp_host/api/mcp_routes.py:87-112 | a call on a cached client answers `AnswerFrom` that client's state and leaves it `AfterCall`; every other cached client is unchanged; with a handle the request frame is written last |
| McpRoutes.Gateway.Request | mcp_host/api/mcp_routes.py:109-112 | a call on a cached client raises its request id by 1 and writes that request frame; its result is `AnswerFrom` the client's state before: the reply the read loop finds for the new id among the child's lines for that method, the timeout when none answers it or the loop has stopped, or the no-stdin failure without a handle; every cached client stays consistent with no request in flight |
| McpRoutes.Gateway.ListTools | mcp_host/api/mcp_routes.py:76-96 | the catalog is `Catalog`: `Merge` over the registered servers, in the table's order, of each server's `tools/list` answer taken from the state its client was in before the loop; afterwards each server's client is exactly one call further (`ListPass`); the process table and the configuration are unchanged (`start_all_configured` does nothing) |
| McpRoutes.Gateway.ListRound | mcp_host/api/mcp_routes.py:85-95 | one round of the loop: the next server's answer, from its state before the loop, is merged after the catalog of the servers before it, and only that server's client moves one call further |
| McpRoutes.Gateway.CallTool | mcp_host/api/mcp_routes.py:98-115 | without a truthy `server_name` the reply is 400 "server_name required" and no client is looked up; a name that is not a string is the 500 of the failed lookup (`unhashable type` for a list or dict, else the 404 text); otherwise the reply is `Reply500` of `Called`: when a client serves the name, the reply the read loop finds for that client's next request id among the child's `tools/call` lines (the timeout when none answers it), else the lookup failure; every failure is a 500 with its message and no other status occurs |
| McpRoutes.Gateway.HandleSse | mcp_host/api/mcp_routes.py:122-137 | a new queue is registered last, and the first event is `endpoint` with the messages URL |
| McpRoutes.Gateway.NextEvent | mcp_host/api/mcp_routes.py:140-147 | the oldest queued message is sent as a `message` event with its JSON text and leaves the queue |
| McpRoutes.Gateway.CloseSse | mcp_host/api/mcp_routes.py:150-151 | the queue is unregistered; the other queues keep their order |
| McpRoutes.Gateway.Broadcast | mcp_host/api/mcp_routes.py:251-253 | the response is put once on every registered queue |
| McpRoutes.Gateway.HandleMessages | mcp_host/api/mcp_routes.py:155-255 | a body that is not JSON is 400 "Invalid JSON"; the reply is an error exactly when the message is no object, or a `tools/call` whose `params` is no object; otherwise the reply is `{"status": "accepted"}` and the response `Respond` describes is put on every queue (no response: the queues are unchanged); `tools/list` and `tools/call` build `Catalog` from the clients' states before the message, and `tools/call` calls a truthy owner, its result being `Called` from the states the listing left; other methods touch no client |
| McpRoutes.Gateway.Dispatch | mcp_host/api/mcp_routes.py:181-236 | dispatch fails exactly for a `tools/call` whose `params` is no object; `tools/list` and `tools/call` build `Catalog` from the clients' states before the message; `tools/call` then calls a truthy owner of the named tool, with `Called` from the states the listing left as its result; other methods build nothing and touch no client; the queues are untouched |
| McpRoutes.Gateway.ListCatalog | mcp_host/api/mcp_routes.py:181-189 | the `tools/list` branch: the catalog is `Catalog` of the registered servers from their clients' states before the message; no tool is called |
| McpRoutes.Gateway.CallOwner | mcp_host/api/mcp_routes.py:197-230 | the `tools/call` branch: the catalog as for `tools/list`; a truthy owner of the named tool is called, and the result is `Called` from the states the listing left (the owner's child's reply to its client's next request id when the owner is a served string, the lookup failure otherwise); without one nothing is called |
| McpRoutes.Gateway.CallServer | mcp_host/api/mcp_routes.py:208-230 | a server name that is not a string fails as the lookup does (`unhashable type` for a list or dict, else the 404 text) and caches nothing; a string name is served exactly when it was cached or has a registered child, and then the result is the reply the read loop finds for its client's next request id among the child's `tools/call` lines (`Called`), that client is one call further (`CallStep`), and the last frame written is the call with the tool's name and arguments |
| McpRoutes.Gateway.CallNamed | mcp_host/api/mcp_routes.py:108-112 | `get_client` and the `tools/call` request for a string name: `Called` from the states before, `CallStep` after, and the call frame written last |
| McpRoutes.Gateway.ServerState | mcp_host/api/mcp_routes.py:54-57 | the body lists exactly the configured names whose record says running |
| McpRoutes.Gateway.StartRoute | mcp_host/api/mcp_routes.py:59-67 | without a non-empty record the reply is 404 "Server config not found" and the configuration and the process table are untouched; otherwise the record is saved as running, the server is launched as `start_server` launches it and the reply is `{"status": "started"}`; the client cache is untouched |
| McpRoutes.Gateway.StopRoute | mcp_host/api/mcp_routes.py:69-72 | the saved record is marked stopped, the name leaves the process table and the order, its child is no longer running and every other child is kept or stopped; a client cached for it stays cached |
| McpRoutes.Gateway.ListSkills | mcp_host/api/mcp_routes.py:263-270 | the body lists `SkillEntries` of the directory listing |
| Bridge.FrameFields | ps-mcp-bridge.py:12-18 | a response frame carries "2.0", the id and the result; an error frame carries "2.0", the id, the code and the message, and no result |
| Bridge.ToolsOfList | ps-mcp-bridge.py:24 | a `tools` list is iterated item by item |
| Bridge.CleanToolFields | ps-mcp-bridge.py:28-30 | a cleaned tool object has every field except `_server_name` |
| Bridge.CleanToolsMeaning | ps-mcp-bridge.py:26-31 | cleaning succeeds exactly when every tool can be cleaned, and then keeps their number and order; otherwise it fails with the first failure |
| Bridge.CleanToolsOfObjects | ps-mcp-bridge.py:26-31 | with tool objects only, each keeps its position and loses exactly `_server_name` |
| Bridge.StripTools | ps-mcp-bridge.py:26-31 | the loop computes `CleanTools` of the tools |
| Bridge.CleanToolsFirstErr | ps-mcp-bridge.py:27-31 | cleaning stops at the first tool that cannot be cleaned |
| Bridge.ListTools | ps-mcp-bridge.py:20-36 | `handle_list_tools` prints one frame: -32603 with the failure's text for a failed request, an error status or a body without a usable tool list; for a list of tool objects, the response with exactly those tools in order, each without `_server_name` |
| Bridge.ListToolsFailures | ps-mcp-bridge.py:34-36 | a failed request, an error status, or a body without a usable tool list is answered -32603 with the failure's text |
| Bridge.ListToolsOfObjects | ps-mcp-bridge.py:24-33 | a list of tool objects is answered with exactly those tools, in order, each without `_server_name` and otherwise unchanged |
| Bridge.FindTargetFound | ps-mcp-bridge.py:46 | the lookup stops at the first tool named `name` |
| Bridge.FindTargetNone | ps-mcp-bridge.py:46 | no tool is found exactly when every tool has a readable name and none is `name` |
| Bridge.FindTargetFails | ps-mcp-bridge.py:46 | a tool without a readable name before any match makes the lookup fail with that tool's error |
| Bridge.FindTargetFirst | ps-mcp-bridge.py:46 | when tool `k` is the first with a readable name equal to `name`, the lookup returns exactly that tool |
| Bridge.CallToolFailures | ps-mcp-bridge.py:42-64 | a failed listing request, a listing without a readable tool list, or a tool without a readable name before the match is answered -32603 with the failure's text and nothing else |
| Bridge.CallToolFirstMatch | ps-mcp-bridge.py:46-61 | for the first tool carrying the name, exactly one POST goes to that tool's `_server_name` with the call's arguments (`{}` by default); a successful answer is relayed as the response to the call's id, and a failed post or a non-success status is answered -32603 with its text |
| Bridge.CallToolOutcome | ps-mcp-bridge.py:38-64 | a tool the catalog does not name is answered -32601 "Tool <name> not found" and nothing is posted; otherwise one POST goes to the `_server_name` of the first tool with that name, with the call's arguments (`{}` by default); exactly one line is printed |
| Bridge.AnswerKinds | ps-mcp-bridge.py:66-98 | `initialize` is answered with the fixed capabilities; malformed lines, `notifications/initialized` and every other method print nothing |
| Bridge.ListToolsFrame | ps-mcp-bridge.py:20-36 | the listing prints one JSON-RPC 2.0 frame |
| Bridge.CallToolFrame | ps-mcp-bridge.py:38-64 | a call prints at most one line, and it is a JSON-RPC 2.0 frame |
| Bridge.AnswerFrame | ps-mcp-bridge.py:75-95 | each input line is answered with at most one line, a JSON-RPC 2.0 frame |
| Bridge.SessionFrames | ps-mcp-bridge.py:66-100 | every printed line is a JSON-RPC 2.0 frame, and there are no more of them than lines read |
| Bridge.SessionSkips | ps-mcp-bridge.py:97-98 | a line that is not JSON adds nothing, and the loop goes on |
| Bridge.HandleLine | ps-mcp-bridge.py:70-100 | one loop pass prints at most one frame and posts at most once: nothing for a line that is not a JSON object or for a method other than `initialize`, `tools/list` and `tools/call`; the fixed capabilities for `initialize`; the catalog answer for `tools/list` |
| Bridge.Serve | ps-mcp-bridge.py:66-100 | the loop until end of file computes `Session` of the lines |
| Helpers.CandidateInjective | prompt_fill/src/utils/helpers.js:8-11 | distinct counters give distinct candidate keys (`base_suffix`, `base_suffix1`, ...) |
| Helpers.MakeUniqueKey | prompt_fill/src/utils/helpers.js:7-15 | the key returned is not among the existing keys, and it is the first candidate in the order plain, 1, 2, ... that is free; an omitted suffix is `custom` |
| Helpers.FreshStep | prompt_fill/src/utils/helpers.js:10-13 | one more taken candidate moves the search on: every earlier candidate is taken, and the next one has not been tried before |
| Helpers.GetLocalized | prompt_fill/src/utils/helpers.js:18-23 | a falsy value gives "", a string is returned as it is, and the result is never null |
| Helpers.GetLocalizedOrder | prompt_fill/src/utils/helpers.js:21 | the entry for the language wins when it is present and not null, even if it is empty; otherwise English, then Chinese, then the object's first value, and the empty string when that is null |
| Helpers.ToInt32 | prompt_fill/src/utils/helpers.js:34 | `x \| 0` gives a signed 32-bit value congruent to x modulo 2^32 |
| Helpers.Fold | prompt_fill/src/utils/helpers.js:31-35 | the running hash over the UTF-16 code units stays a signed 32-bit integer |
| Helpers.ShiftStep | prompt_fill/src/utils/helpers.js:33-34 | `((hash << 5) - hash) + char` truncated to 32 bits equals `31 * hash + char` truncated to 32 bits |
| Helpers.CongruentInt32 | prompt_fill/src/utils/helpers.js:34 | values congruent modulo 2^32 truncate to the same 32-bit integer |
| Helpers.HashCode | prompt_fill/src/utils/helpers.js:28-37 | an absent or empty string hashes to "0"; any other string to the decimal text of the 32-bit fold of its code units |
| Helpers.FoldPolynomial | prompt_fill/src/utils/helpers.js:31-35 | the loop computes the polynomial hash (sum of `c_i * 31^(n-1-i)`) reduced to a signed 32-bit integer |
| Helpers.ToInt32OfInt32 | prompt_fill/src/utils/helpers.js:34 | `\| 0` leaves a value that is already a 32-bit integer unchanged |
| Helpers.HashSteps | prompt_fill/src/utils/helpers.js:31-35 | one more code unit multiplies the previous hash by 31, adds the unit and truncates to 32 bits |
| McpService.FetchFallbacks | prompt_fill/src/services/mcp-service.js:62-85 | every failure of `listMcpTools`, `getAllServers` and `getLastActiveServers` gives an empty list under the key the caller reads |
| McpService.FindGroup | prompt_fill/src/services/mcp-service.js:51 | `servers[name]` finds the group created under that key, if there is one, and otherwise no group has that key |
| McpService.GetMcpServers | prompt_fill/src/services/mcp-service.js:46-57 | a listing without a tool list rejects with the TypeError of the destructuring or of `forEach`; otherwise the call behaves as the grouping of the listed tools |
| McpService.GroupTools | prompt_fill/src/services/mcp-service.js:49-56 | the call rejects exactly when some tool fails, and then with the first such failure. Otherwise each group is running, holds in catalog order exactly the tools under its key and is named after its first tool; keys are distinct, every tool has a group, and the group sizes add up to the number of tools |
| McpService.AddTool | prompt_fill/src/services/mcp-service.js:50-54 | one accepted tool joins the group of its key or opens a new one, and all the grouping invariants hold for one more tool |
| McpService.FailedAt | prompt_fill/src/services/mcp-service.js:49-55 | the first tool that fails decides the error of the whole call |
| McpService.GroupedAll | prompt_fill/src/services/mcp-service.js:56 | when no tool fails, the groups are the result |
| McpService.AddGroupStep | prompt_fill/src/services/mcp-service.js:51-54 | a tool under a new key opens a group at the end, and the grouping invariants still hold |
| McpService.AddApart | prompt_fill/src/services/mcp-service.js:51-52 | a group under a new key keeps all group keys distinct |
| McpService.AddFormed | prompt_fill/src/services/mcp-service.js:52-54 | the new group holds exactly the tools seen so far under its key, which is the new tool alone |
| McpService.AddCovered | prompt_fill/src/services/mcp-service.js:52-54 | after a new group is opened, every tool seen so far has a group |
| McpService.ExtendStep | prompt_fill/src/services/mcp-service.js:54 | a tool under a known key is appended to that group, and the grouping invariants still hold |
| McpService.ExtendCovered | prompt_fill/src/services/mcp-service.js:54 | after a tool is appended to a group, every tool seen so far still has a group |
| McpService.ExtendFormed | prompt_fill/src/services/mcp-service.js:54 | after a tool is appended, every group still holds exactly the tools seen so far under its key, in order |
| McpService.SizesSnoc | prompt_fill/src/services/mcp-service.js:52 | a new group adds its own size to the total |
| McpService.SizesUpdate | prompt_fill/src/services/mcp-service.js:54 | appending to one group changes the total by that group's change of size |
| McpService.GroupOfTool | prompt_fill/src/services/mcp-service.js:49-56 | each tool of the catalog is in a group, and every group that holds it carries the tool's server name as its key |
| App.ToggleMeaning | prompt_fill/src/App.jsx:150-155 | toggling a name flips its membership and leaves every other element as it was. An absent name is appended at the end, the toggle never creates a duplicate, and toggling an absent name twice restores the list |
| App.LookupMoveTagPath | prompt_fill/src/App.jsx:196-198 | a truthy `tagPath` becomes the single tag only when `tags` is falsy; every other property is unchanged |
| App.LookupAddVersion | prompt_fill/src/App.jsx:202-205 | a missing `version` becomes 1 together with an empty `history`; otherwise nothing changes |
| App.LookupAddNotes | prompt_fill/src/App.jsx:207-208 | a missing `notes` becomes ""; otherwise nothing changes |
| App.LookupMigrate | prompt_fill/src/App.jsx:194-212 | what each stage of the migration leaves under any key |
| App.MigrateMeaning | prompt_fill/src/App.jsx:194-212 | after migration there is no `tagPath`. A `tagPath` moves into `tags` only when `tags` is falsy, a missing version becomes 1 with an empty history, and missing notes become ""; every other property keeps its value |
| App.RemoveAbsent | prompt_fill/src/App.jsx:199 | deleting a property that is not there changes nothing |
| App.MigrateIdempotent | prompt_fill/src/App.jsx:194-212 | migrating an already migrated template changes nothing |
| App.Load | prompt_fill/src/App.jsx:188-232 | loading yields as many templates as were saved, or the built-in set when nothing was saved |
| App.LoadMeaning | prompt_fill/src/App.jsx:194-227 | every saved template is migrated in place. The saved active id is kept exactly when some template has it; otherwise the first template's id, or null, becomes active |
| App.ActiveTemplate | prompt_fill/src/App.jsx:337-340 | the active template is a template carrying the truthy active id; there is one whenever such a template exists |
| App.FindId | prompt_fill/src/App.jsx:339 | `find` gives a template with the id, and gives nothing exactly when no template has it |
| App.LookupSpread | prompt_fill/src/App.jsx:442 | after `{ ...t, ...updates }` a key has its updated value when it is updated, and its old value otherwise |
| App.UpdateTemplate | prompt_fill/src/App.jsx:441-443 | the number of templates is kept, and every template without the id is untouched |
| App.UpdateTemplateMeaning | prompt_fill/src/App.jsx:441-443 | a template with the id gets every update and the new `updatedAt`, and keeps all other properties |
| App.DeleteTemplateMeaning | prompt_fill/src/App.jsx:424-439 | exactly the templates without the id remain. Deleting the active template makes the first remaining id, or null, active; any other deletion keeps the active id |
| App.NextVersion | prompt_fill/src/App.jsx:283 | `(version \|\| 1) + 1`: a falsy version gives 2 and a non-zero number grows by one |
| App.Defined | prompt_fill/src/App.jsx:275-279 | the history entry object holds only properties named in its literal |
| App.VersionUpdatesDistinct | prompt_fill/src/App.jsx:281-285 | the version update names `content`, `version` and `history` once each |
| App.NewVersionMeaning | prompt_fill/src/App.jsx:273-291 | about the template with the active id: it gets the new content, the next version and `updatedAt`. Its previous content, version and time are put at the head of its old history. The number of templates and the active id stay; the active draft is dropped, while every other template and draft is unchanged |
| App.VersionHandlers | prompt_fill/src/App.jsx:584-610 | apply and restore do nothing without an active template, and apply does nothing without a draft. Otherwise apply versions the template to the draft and restore versions it to the history entry's content |
| App.TagMenuToggleMeaning | prompt_fill/src/App.jsx:789-793 | on a template whose tags are a list, the path's membership is toggled and every other template is unchanged |
| App.FilterOrFailMeaning | prompt_fill/src/App.jsx:373-383 | a filter that finishes keeps exactly the accepted elements in order; it fails exactly when some test throws, and then with the first such error |
| App.SomeTagUnder | prompt_fill/src/App.jsx:382 | a success means that some string tag starts with one of the selected tags; the scan fails only when some tag is not a string |
| App.SomeTagUnderExact | prompt_fill/src/App.jsx:382 | the scan passes exactly when it reaches a string tag under a selected one with only strings before it, and ends without a match exactly when every tag is a string under none of them |
| App.MatchesTags | prompt_fill/src/App.jsx:380-383 | a template passes the tag test only if its tags are a list with a tag that starts with a selected tag |
| App.MatchesTagsExact | prompt_fill/src/App.jsx:380-383 | a template passes the tag test exactly when its tags are a list that the scan passes |
| App.DisplayTemplatesMeaning | prompt_fill/src/App.jsx:370-384 | the displayed templates are no more than the templates and come from them. Each one passes the search test when there is a query, and the tag test when tags are selected; every template that passes both tests is displayed |
| App.InsertBy | prompt_fill/src/App.jsx:484-488 | insertion adds exactly the one key |
| App.SortBy | prompt_fill/src/App.jsx:484-488 | sorting is a permutation of the selection keys |
| App.InsertSorted | prompt_fill/src/App.jsx:484-488 | inserting into keys ordered by position keeps them ordered |
| App.SortBySorted | prompt_fill/src/App.jsx:484-488 | the selection keys end up ordered by their trailing position (NaN as 0), with none lost or added |
| App.CopyContent | prompt_fill/src/App.jsx:471-499 | the copied text is the content with the n-th match of each `{{key}}` replaced by the option under that key's n-th selection key in position order, or left as it is |
| App.ReplaceMatches | prompt_fill/src/App.jsx:476-499 | the loop of `replace` with its occurrence counter computes the specified replacement |
| App.CopyPiece | prompt_fill/src/App.jsx:489-490 | one step copies or replaces one piece, and the counter then holds each key's number of matches so far |
| App.CountsStep | prompt_fill/src/App.jsx:489-490 | `keyOccurrenceIndex[key] = occurrence + 1` keeps the counter equal to the number of matches of each key |
| App.CopiedStep | prompt_fill/src/App.jsx:477 | one more piece grows the text by that piece's output |
| App.CopiedIdentity | prompt_fill/src/App.jsx:480 | a callback that returns every match unchanged leaves the text as it was |
| App.FlattenSnoc | prompt_fill/src/App.jsx:477 | the pieces of the content concatenate back to it, piece by piece |
| App.CopyWithoutSelections | prompt_fill/src/App.jsx:480 | a template without selections copies its content unchanged |
| App.ScanTwoPlaceholders | prompt_fill/src/App.jsx:477 | two placeholders in a row are two matches of the global pattern |
| App.CopyTwoOccurrences | prompt_fill/src/App.jsx:489-491 | two occurrences of one key take its first and second selection in position order |
| App.AllOpenLookup | prompt_fill/src/App.jsx:89 | the reduce marks exactly the flattened tag paths as open |
| App.ToggleDirectoryMeaning | prompt_fill/src/App.jsx:82-96 | the first toggle opens every flattened tag path except the toggled one, which is flipped from closed. Later toggles flip the toggled directory alone |
| TagTree.Find | prompt_fill/src/components/TagFilterDropdown.jsx:7 | `find` gives a node with the name, and gives nothing exactly when no node has it |
| TagTree.FindNode | prompt_fill/src/components/TagFilterDropdown.jsx:4-11 | an empty path finds nothing, and a node that is found carries the last name of the path |
| TagTree.FindNodeThroughLeaf | prompt_fill/src/components/TagFilterDropdown.jsx:8-10 | descending past a node without children finds nothing |
| TagTree.RemoveEach | prompt_fill/src/components/TagManager.jsx:13-19 | the `map` over a longer path keeps the number of nodes and their names |
| TagTree.RemoveEachShape | prompt_fill/src/components/TagManager.jsx:13-19 | only the nodes named after the head that have children are rebuilt, with the rest of the path removed from their children; every other node is kept as it is |
| TagTree.RemoveByPathShape | prompt_fill/src/components/TagManager.jsx:4-20 | an empty path changes nothing. A one-name path drops exactly the top-level nodes of that name; a longer path keeps the top-level length and names |
| TagTree.RemoveThenFind | prompt_fill/src/components/TagManager.jsx:67-70 | once a path is deleted, looking it up finds nothing |
| TagTree.FirstIndex | prompt_fill/src/components/TagFilterDropdown.jsx:7 | `find` returns the first node with the name |
| TagTree.FirstIndexSame | prompt_fill/src/components/TagManager.jsx:13-19 | node lists with the same names find a name at the same position |
| TagTree.RemoveKeepsOthers | prompt_fill/src/components/TagManager.jsx:4-20 | deleting a path leaves every path under a different top-level name exactly as findable as before |
| TagTree.FindFilter | prompt_fill/src/components/TagManager.jsx:10 | filtering out one name does not change where another name is found |
| TagTree.AddTopLevel | prompt_fill/src/components/TagManager.jsx:60-65 | an empty or already present name leaves the tree as it is; otherwise the tree gains exactly one new top-level node with no children, at its end |
| TagTree.AddTopLevelFinds | prompt_fill/src/components/TagManager.jsx:60-65 | after a non-empty name is added it is found at the top level, and a new name finds the new empty node |
| TagTree.FindAppend | prompt_fill/src/components/TagManager.jsx:62 | a node appended under a new name is what `find` returns for that name |
| TagTree.AddTopLevelDistinct | prompt_fill/src/components/TagManager.jsx:61 | adding never creates two top-level nodes with the same name |
| TagTree.DescendantsAndSelf | prompt_fill/src/components/TagFilterDropdown.jsx:13-21 | the list of paths starts with the node's own path |
| TagTree.DescendantsShape | prompt_fill/src/components/TagFilterDropdown.jsx:13-21 | there is one path per node of the subtree, and every path after the first lies below the node's path |
| TagTree.ChildPathsShape | prompt_fill/src/components/TagFilterDropdown.jsx:15-19 | the children give one path per node below, each under `path/` |
| TagTree.StartsWithLonger | prompt_fill/src/components/TagFilterDropdown.jsx:17 | a path under a child path is also under the parent |
| TagTree.ChildPathsSnoc | prompt_fill/src/components/TagFilterDropdown.jsx:16-18 | one more child appends that child's own paths |
| TagTree.GetDescendantsAndSelf | prompt_fill/src/components/TagFilterDropdown.jsx:13-21 | the `forEach` with `concat` computes the node's path followed by its children's paths in order |
| TagTree.AddAllMeaning | prompt_fill/src/components/TagFilterDropdown.jsx:83 | adding to the set keeps the earlier elements in order and adds exactly the new ones, with no duplicates |
| TagTree.DeleteAllMeaning | prompt_fill/src/components/TagFilterDropdown.jsx:85 | deleting from the set removes exactly the given elements and keeps the rest, with no duplicates |
| TagTree.HandleTagSelection | prompt_fill/src/components/TagFilterDropdown.jsx:75-89 | the new selection is the set operation the click stands for |
| TagTree.TagSelectionMeaning | prompt_fill/src/components/TagFilterDropdown.jsx:75-89 | the selection has no duplicates. Clicking an unselected path selects the path and its whole subtree, keeping the earlier selections first; clicking a selected path deselects exactly the path and its subtree |
| TagTree.ButtonText | prompt_fill/src/components/TagFilterDropdown.jsx:102-106 | no selection shows the "all templates" label and several show the count label; a single one shows its last path segment: a suffix of the tag that holds no `/` and is either the whole tag or preceded by a `/` |
| TagTree.ButtonTextOfTopLevel | prompt_fill/src/components/TagFilterDropdown.jsx:102-106 | a single selected tag without `/` is shown whole |
| TagTree.ButtonTextOfChild | prompt_fill/src/components/TagFilterDropdown.jsx:104 | a single selected child path shows the child's name |
| TagTree.LastSegmentAfter | prompt_fill/src/components/TagFilterDropdown.jsx:104 | `split('/').pop()` of `parent/name` is the name |
| TagTree.FlatTagsCount | prompt_fill/src/App.jsx:320-335 | flattening gives one path per leaf |
| TagTree.FlatTagsAreDescendants | prompt_fill/src/App.jsx:321-333 | below a non-empty prefix, every flattened path is one of the descendant paths the filter toggles |
| PlainTextEditor.Group | prompt_fill/src/components/PlainTextEditor.jsx:231-248 | a line with no pieces gives no segments, and only such a line |
| PlainTextEditor.HtmlAppend | prompt_fill/src/components/PlainTextEditor.jsx:226-250 | the HTML of segments is built piece by piece, in order |
| PlainTextEditor.GroupSpells | prompt_fill/src/components/PlainTextEditor.jsx:231-248 | the text segments and variables spell the line again, in order, with nothing lost or reordered |
| PlainTextEditor.GroupWellFormed | prompt_fill/src/components/PlainTextEditor.jsx:228-240 | every variable key is a word-character key, and no text segment is empty |
| PlainTextEditor.SegmentsSpellLine | prompt_fill/src/components/PlainTextEditor.jsx:226-250 | a line's segments spell the line; its variables have `[a-zA-Z0-9_]+` keys and its text runs are non-empty |
| PlainTextEditor.ParagraphHtml | prompt_fill/src/components/PlainTextEditor.jsx:226-251 | the paragraph of a non-blank line is `<p>`, the HTML of its segments and `</p>` |
| PlainTextEditor.ExecHtmlSegments | prompt_fill/src/components/PlainTextEditor.jsx:231-248 | what the `exec` loop appends from a position on is the HTML of the segments of the rest of the line |
| PlainTextEditor.ExecLoop | prompt_fill/src/components/PlainTextEditor.jsx:227-248 | the `exec` loop escapes the text before each match, turns each match into `<span data-variable-key="key"></span>` and escapes the text after the last one |
| PlainTextEditor.ExecLoopStep | prompt_fill/src/components/PlainTextEditor.jsx:231-243 | one turn of the loop keeps the invariant that the output so far followed by the rest's HTML is the line's HTML |
| PlainTextEditor.LeadingBlank | prompt_fill/src/components/PlainTextEditor.jsx:221 | the number of leading blank lines is at most the number of lines |
| PlainTextEditor.ParagraphsShape | prompt_fill/src/components/PlainTextEditor.jsx:220-253 | leading blank lines are dropped. After them every line gives exactly one paragraph in order, `<p></p>` for a blank line and its own paragraph otherwise |
| PlainTextEditor.ParseTextToContent | prompt_fill/src/components/PlainTextEditor.jsx:213-261 | the loops compute the joined paragraphs of the lines, or `<p></p>` for empty text or when no paragraph was made |
| PlainTextEditor.ContentStartsWithParagraph | prompt_fill/src/components/PlainTextEditor.jsx:214-260 | the result is never empty: it always starts with `<p>` |
| PlainTextEditor.ParagraphsStart | prompt_fill/src/components/PlainTextEditor.jsx:220-253 | every paragraph starts with `<p>` |
| PlainTextEditor.JoinedParagraphsStart | prompt_fill/src/components/PlainTextEditor.jsx:260 | joined paragraphs start with `<p>` |
| PlainTextEditor.SingleLine | prompt_fill/src/components/PlainTextEditor.jsx:213-261 | a one-line text that is not blank gives that line's paragraph alone |
| PlainTextEditor.ProcessNode | prompt_fill/src/components/PlainTextEditor.jsx:28-69 | `processNode` gives a text node's text, a variable as `{{key}}`, a hard break as "\n" and a node with content as the text of its children |
| PlainTextEditor.ProcessChildren | prompt_fill/src/components/PlainTextEditor.jsx:52-56 | the `forEach` over the children concatenates their texts in order |
| PlainTextEditor.SerializeToText | prompt_fill/src/components/PlainTextEditor.jsx:25-89 | the top-level loop appends each node's text and, for a block before the last position, "\n\n"; then runs of three or more newlines become two |
| PlainTextEditor.CollapseBounds | prompt_fill/src/components/PlainTextEditor.jsx:86 | after the clean-up no three newlines follow each other, and a leading run of newlines is cut to at most two |
| PlainTextEditor.SerializedNoTriple | prompt_fill/src/components/PlainTextEditor.jsx:86-88 | the serialized text never holds three newlines in a row |
| PlainTextEditor.RawTextOfParagraphs | prompt_fill/src/components/PlainTextEditor.jsx:74-83 | in a document of paragraphs every non-empty paragraph is followed by "\n\n", the last one included |
| PlainTextEditor.Separated | prompt_fill/src/components/PlainTextEditor.jsx:76-81 | one separated text per node |
| PlainTextEditor.TrailingSeparator | prompt_fill/src/components/PlainTextEditor.jsx:74-83 | a document of the one paragraph "a" serializes to "a\n\n" |
| PlainTextEditor.IntendedJoins | prompt_fill/src/components/PlainTextEditor.jsx:78-81 | with the separator only between nodes, non-empty paragraphs are joined by "\n\n" |
| PlainTextEditor.IntendedPrefix | prompt_fill/src/components/PlainTextEditor.jsx:78-81 | with the intended separator, a document prefix is its texts joined by "\n\n", with one more separator when it is not the whole document |
| PlainTextEditor.IntendedSingleParagraph | prompt_fill/src/components/PlainTextEditor.jsx:78-81 | with the intended separator, the paragraph "a" serializes to "a" |
| PromptToSkill.IndexOf | prompt_fill/src/components/PromptToSkillModal.jsx:36 | the first position of an element, or none when it does not occur |
| PromptToSkill.LastIndexOf | prompt_fill/src/components/PromptToSkillModal.jsx:50 | the last position of an element, or none when it does not occur |
| PromptToSkill.ExtractVariables | prompt_fill/src/components/PromptToSkillModal.jsx:32-39 | the collected variables are the captured keys with later repeats dropped |
| PromptToSkill.CollectKeys | prompt_fill/src/components/PromptToSkillModal.jsx:35-39 | the `while (exec)` loop with `includes`/`push` computes the deduplicated captured keys |
| PromptToSkill.ExecKeysStep | prompt_fill/src/components/PromptToSkillModal.jsx:35 | one more `exec` match extends the keys seen so far by its key and moves `lastIndex` past the match |
| PromptToSkill.PushStep | prompt_fill/src/components/PromptToSkillModal.jsx:36-38 | `if (!variables.includes(key)) variables.push(key)` deduplicates one more key |
| PromptToSkill.DedupSnoc | prompt_fill/src/components/PromptToSkillModal.jsx:36-38 | a repeated key adds nothing and a new key is appended |
| PromptToSkill.DedupMembers | prompt_fill/src/components/PromptToSkillModal.jsx:35-38 | deduplication keeps exactly the elements of its input |
| PromptToSkill.DedupDistinct | prompt_fill/src/components/PromptToSkillModal.jsx:35-38 | no variable is listed twice |
| PromptToSkill.DedupOrder | prompt_fill/src/components/PromptToSkillModal.jsx:35-38 | the variables are listed in the order of their first occurrence |
| PromptToSkill.VarMatchShape | prompt_fill/src/components/PromptToSkillModal.jsx:32 | every match of `/\{\{([a-zA-Z0-9_]+)\}\}/g` is a placeholder, a placeholder is matched whole, and no `{{` starts strictly inside a match |
| PromptToSkill.ExecKeysOccur | prompt_fill/src/components/PromptToSkillModal.jsx:35 | every captured key is a word-character key written as `{{key}}` in the content |
| PromptToSkill.KeysWritten | prompt_fill/src/components/PromptToSkillModal.jsx:32-39 | every variable is written as a placeholder in the content |
| PromptToSkill.WrittenKeysFound | prompt_fill/src/components/PromptToSkillModal.jsx:32-39 | every key written as a placeholder in the content is among the variables |
| PromptToSkill.KeysOfContent | prompt_fill/src/components/PromptToSkillModal.jsx:32-39 | for any matcher of that shape, the variables are exactly the keys written as placeholders, without duplicates |
| PromptToSkill.VariablesOfContent | prompt_fill/src/components/PromptToSkillModal.jsx:32-39 | the variables of `analyzePrompt` are exactly the word-character keys written as `{{key}}` in the content, each once |
| PromptToSkill.JsonCandidateSpan | prompt_fill/src/components/PromptToSkillModal.jsx:50 | the JSON candidate runs from the first `{` to the last `}` when that `}` comes after it; otherwise it is the whole text |
| PromptToSkill.CandidateSpan | prompt_fill/src/components/PromptToSkillModal.jsx:50 | with a `{` before the last `}`, the candidate is exactly that span |
| PromptToSkill.CandidateWhole | prompt_fill/src/components/PromptToSkillModal.jsx:50 | without such a span the whole text is parsed |
| PromptToSkill.ParseAnswer | prompt_fill/src/components/PromptToSkillModal.jsx:47-55 | parsing succeeds exactly when the answer is a string whose candidate parses, and gives that value; every failure becomes the format error |
| PromptToSkill.SkillNameChosen | prompt_fill/src/components/PromptToSkillModal.jsx:58 | the skill name is never falsy: the linked skill's name, else the answer's name, else "new-skill" |
| PromptToSkill.CodeFor | prompt_fill/src/components/PromptToSkillModal.jsx:59 | the code is the answer's truthy `code`, else "" |
| PromptToSkill.MessageOr | prompt_fill/src/components/PromptToSkillModal.jsx:63 | the error message is the error's own message when it has one, and the fallback otherwise |
| PromptToSkill.EnvEntry | prompt_fill/src/components/PromptToSkillModal.jsx:79-81 | a setting is its truthy value or ""; reading it from absent or null settings throws |
| PromptToSkill.SaveBodyEnv | prompt_fill/src/components/PromptToSkillModal.jsx:74-83 | the posted body carries the name, the code and the three LLM settings, with "" for each one missing |
| PromptToSkill.Rejection | prompt_fill/src/components/PromptToSkillModal.jsx:86-89 | a rejected save reports the response's `detail`, the fixed fallback when it has none, or the TypeError of reading it from null |
| PromptToSkill.SkillModal.constructor | prompt_fill/src/components/PromptToSkillModal.jsx:15-19 | the dialog starts analyzing, with no skill data, an empty name and code and no error |
| PromptToSkill.SkillModal.AnalyzePrompt | prompt_fill/src/components/PromptToSkillModal.jsx:25-66 | the dialog ends in preview exactly when the model's answer parses to a non-null value. It then holds that skill, the chosen name and the code. Otherwise it ends in error with the answer's message, the format error or the TypeError of a null answer |
| PromptToSkill.SkillModal.EditName | prompt_fill/src/components/PromptToSkillModal.jsx:132 | editing the name changes the name alone |
| PromptToSkill.SkillModal.EditCode | prompt_fill/src/components/PromptToSkillModal.jsx:161 | editing the code changes the code alone |
| PromptToSkill.SkillModal.HandleSave | prompt_fill/src/components/PromptToSkillModal.jsx:68-99 | the callback is told the current name and the content's hash exactly when the gateway accepted the skill. The dialog reaches success exactly when that callback returns normally; every failure ends in error with its own message |
| MarkdownPreview.PreviewValue | prompt_fill/src/components/MarkdownPreview.jsx:34-58 | a placeholder stays as written when the template has no selections or no selection key with the prefix `${id}-${key}-` |
| MarkdownPreview.PreviewFirstSelection | prompt_fill/src/components/MarkdownPreview.jsx:40-53 | the first selection key with the prefix, in insertion order, decides the value: its option when the bank has one at its index, otherwise the placeholder |
| MarkdownPreview.NoSelectionsKeepsContent | prompt_fill/src/components/MarkdownPreview.jsx:26-61 | without a template or with falsy selections the preview text is the content itself |
| MarkdownPreview.NoVariablesKeepsContent | prompt_fill/src/components/MarkdownPreview.jsx:26-61 | text without any `{{key}}` is shown as it is; this includes empty content, which gives "" |
| MarkdownPreview.PlaceholderThenRest | prompt_fill/src/components/MarkdownPreview.jsx:32-58 | a leading placeholder shows the value of its key and the rest is processed on its own, so every occurrence of a key shows the same value |
| VisualEditor.OptionValue | prompt_fill/src/components/VisualEditor.jsx:42-46 | reading an option throws exactly when the bank has no `options` or they are null |
| VisualEditor.ShownValue | prompt_fill/src/components/VisualEditor.jsx:26-48 | while editing, or without a truthy bank, a placeholder shows its raw text |
| VisualEditor.SelectionTakesPrecedence | prompt_fill/src/components/VisualEditor.jsx:37-42 | the selection under `${id}-${key}` wins whatever the defaults are, and shows the option it names |
| VisualEditor.DefaultWithoutSelection | prompt_fill/src/components/VisualEditor.jsx:43-48 | without a selection the default index decides, and with neither the raw part is shown |
| VisualEditor.RenderPart | prompt_fill/src/components/VisualEditor.jsx:18-64 | every segment keeps its part's raw text. A rendered placeholder part is a variable whose key is its inner text trimmed, and any other part is plain |
| VisualEditor.RenderParts | prompt_fill/src/components/VisualEditor.jsx:18-65 | the map renders one segment per part in order, and it succeeds exactly when every part renders |
| VisualEditor.RenderHighlights | prompt_fill/src/components/VisualEditor.jsx:15-16 | there are no highlights exactly when the text is not a string or is empty |
| VisualEditor.RawTexts | prompt_fill/src/components/VisualEditor.jsx:33-64 | the raw text of each segment, in order |
| VisualEditor.PartsSpellText | prompt_fill/src/components/VisualEditor.jsx:17 | the split parts concatenate to the text exactly, and so do the rendered segments |
| VisualEditor.MatchesAreVariables | prompt_fill/src/components/VisualEditor.jsx:17-19 | every captured part (the odd positions of the split) is a `{{...}}` placeholder part |
| VisualEditor.EditingShowsRaw | prompt_fill/src/components/VisualEditor.jsx:26-35 | while editing, rendering never throws and every placeholder shows its raw `{{...}}` text |
| VisualEditor.EditingParts | prompt_fill/src/components/VisualEditor.jsx:26-35 | while editing, every list of parts renders, each placeholder showing its raw text |
| LlmAdapter.Events | prompt_fill/src/services/llm-adapter.js:28 | `buffer.split('\n\n')` has at least one part; the first part is a prefix of the buffer; a buffer without the separator is its own single part |
| LlmAdapter.EventsAppend | prompt_fill/src/services/llm-adapter.js:27-29 | text that arrives later changes only the last, unfinished part: every part completed before it stays as it was |
| LlmAdapter.FirstDataLine | prompt_fill/src/services/llm-adapter.js:31 | the line found in an event starts with `data: ` |
| LlmAdapter.DeltaContent | prompt_fill/src/services/llm-adapter.js:37-38 | a delta counts only when it is a non-empty string |
| LlmAdapter.MessageContent | prompt_fill/src/services/llm-adapter.js:54 | the fallback's message content is `choices[0].message.content` when that is present and not null, and the empty string otherwise |
| LlmAdapter.Classify | prompt_fill/src/services/llm-adapter.js:31-48 | an event classified as a delta always carries non-empty text, so an empty content never counts as the first chunk |
| LlmAdapter.ClassifyData | prompt_fill/src/services/llm-adapter.js:33-45 | a data payload classified as a delta always carries non-empty text |
| LlmAdapter.ProcessAppend | prompt_fill/src/services/llm-adapter.js:24-50 | handling the events chunk by chunk gives the same state as handling them all in one sequence |
| LlmAdapter.ProcessDone | prompt_fill/src/services/llm-adapter.js:34 | once `[DONE]` has been seen, no later event changes anything |
| LlmAdapter.StreamOpenAICompatibleResponse | prompt_fill/src/services/llm-adapter.js:15-63 | the reading loop ends with the text and callback calls of the complete events of the concatenated body, so the result does not depend on how the body is split into chunks |
| LlmAdapter.FinishStream | prompt_fill/src/services/llm-adapter.js:51-62 | at the end of the body the accumulated text is returned, or, when it is empty, the message content of the raw JSON fallback that parses |
| LlmAdapter.HandleEvents | prompt_fill/src/services/llm-adapter.js:30-49 | the loop over one chunk's complete events computes the state that handling those events in order gives, stopping at `[DONE]` |
| LlmAdapter.HandleEvent | prompt_fill/src/services/llm-adapter.js:31-48 | one event updates the text, the callback flag and the fallback exactly as its kind says |
| LlmAdapter.HandleData | prompt_fill/src/services/llm-adapter.js:33-45 | a data payload ends the stream at `[DONE]` or appends its delta, calling back at the first one only |
| LlmAdapter.CompleteEventsExtend | prompt_fill/src/services/llm-adapter.js:27-29 | the events completed after any chunk are a prefix of the complete events of the whole body |
| LlmAdapter.DoneEarly | prompt_fill/src/services/llm-adapter.js:34 | returning at `[DONE]` gives what the whole body gives: the rest of the stream no longer matters |
| LlmAdapter.Kinds | prompt_fill/src/services/llm-adapter.js:30-48 | one kind per event, in order |
| LlmAdapter.ProcessDeltas | prompt_fill/src/services/llm-adapter.js:30-48 | the events add the concatenation of their deltas before `[DONE]` to the text, fire the callback once at the first delta, and mark the end exactly when `[DONE]` occurs |
| LlmAdapter.StreamText | prompt_fill/src/services/llm-adapter.js:15-63 | the streamed text is the concatenation of the deltas before `[DONE]` whenever there is a delta or a `[DONE]`; the callback is called at most once, only when some delta arrived |
| LlmAdapter.OutcomeText | prompt_fill/src/services/llm-adapter.js:51-62 | the value returned from an accumulated state is the concatenated deltas when there are any or the stream ended with `[DONE]` |
| LlmAdapter.DeltasNonEmpty | prompt_fill/src/services/llm-adapter.js:38 | every delta that is added is non-empty, so the first one fires the callback |
| LlmAdapter.EventsNoSeparator | prompt_fill/src/services/llm-adapter.js:28-29 | a body without a blank line stays in the buffer as one unfinished event |
| LlmAdapter.PlainBodyIgnored | prompt_fill/src/services/llm-adapter.js:24-56 | as written: a body without a blank line, such as a plain JSON answer, yields the empty text and no callback, because the buffer left at the end is never handled |
| LlmAdapter.IntendedPlainJson | prompt_fill/src/services/llm-adapter.js:46-56 | corrected: with the last buffer handled, a plain JSON body yields its message content |
| LlmAdapter.IntendedStreamText | prompt_fill/src/services/llm-adapter.js:24-56 | with the last buffer handled too, the streamed text is still the concatenation of the deltas before `[DONE]`, and the callback still fires at most once, at the first delta |
| LlmAdapter.IntendedAgrees | prompt_fill/src/services/llm-adapter.js:46-56 | the correction changes nothing for a body that ends with a complete event |
| LlmAdapter.LastEventEmpty | prompt_fill/src/services/llm-adapter.js:28-29 | a body ending in a blank line splits into its complete events and an empty buffer |
| LlmAdapter.EmptyEventIgnored | prompt_fill/src/services/llm-adapter.js:31-48 | an empty event changes nothing |
| LlmAdapter.ClassifyEmpty | prompt_fill/src/services/llm-adapter.js:31-48 | an empty event has no data line and no JSON, so it is ignored |
| LlmAdapter.ModelType | prompt_fill/src/services/llm-adapter.js:71 | the model type is the `modelType` setting when it is present and truthy, and `custom` otherwise |
| LlmAdapter.RequiredTexts | prompt_fill/src/services/llm-adapter.js:84-160 | with readable settings, a custom request is refused exactly when the endpoint or the key is blank, with `LLM_CUSTOM_REQUIRED`; a Gemini or Qwen request exactly when the key is blank, with `LLM_GEMINI_REQUIRED` or `LLM_QWEN_REQUIRED` |
| LlmAdapter.TrimmedField | prompt_fill/src/services/llm-adapter.js:83-84 | reading and trimming a setting succeeds exactly when it is absent, null or a string |
| LlmAdapter.TextAt | prompt_fill/src/services/llm-adapter.js:120-122 | the answer is rejected with `LLM_PARSE_EMPTY` exactly when the path is undefined or null, and otherwise is the value at the path |
| LlmAdapter.FilledIffNotBlank | prompt_fill/src/services/llm-adapter.js:202-215 | for a readable field, the configuration test's "non-empty after trimming" agrees with the invocation's check |
| LlmAdapter.InvokeSends | prompt_fill/src/services/llm-adapter.js:70-80 | `invokeLlm` sends the request of its model type, and sends nothing and rejects when that request cannot be built |
| LlmAdapter.GeminiSends | prompt_fill/src/services/llm-adapter.js:126-143 | the Gemini call sends its request, or rejects without sending when the API key is missing |
| LlmAdapter.QwenSends | prompt_fill/src/services/llm-adapter.js:156-179 | the Qwen call sends its request, or rejects without sending when the API key is missing |
| LlmAdapter.CustomSends | prompt_fill/src/services/llm-adapter.js:82-108 | the custom call sends its request, or rejects without sending when the endpoint or API key is missing |
| LlmAdapter.ConfiguredIffRequest | prompt_fill/src/services/llm-adapter.js:202-215 | for the three model types and readable fields, `isLlmConfigured` holds exactly when the invocation gets as far as sending its request |
| LlmAdapter.UnknownTypeAsCustom | prompt_fill/src/services/llm-adapter.js:70-80 | a model type other than the three is never configured, yet `invokeLlm` treats it as `custom` |
| LlmAdapter.NonObjectNotConfigured | prompt_fill/src/services/llm-adapter.js:203 | missing settings and settings that are not objects are never configured |
| LlmAdapter.RequestTarget | prompt_fill/src/services/llm-adapter.js:70-172 | the request goes to Gemini's model URL, to DashScope's fixed endpoint, or to the trimmed non-empty endpoint setting for every other type |
| LlmAdapter.GeminiUrlPrefix | prompt_fill/src/services/llm-adapter.js:133 | the Gemini URL starts with the Generative Language API's models prefix |
| LlmAdapter.ModelChosen | prompt_fill/src/services/llm-adapter.js:82-170 | a chat request's body names the trimmed model setting, or the type's default when the setting is blank or missing |
| LlmAdapter.StreamRequested | prompt_fill/src/services/llm-adapter.js:91-170 | a chat body asks to stream exactly when both `stream` and `onFirstChunk` are given, and the Gemini body never does |
| LlmAdapter.GeminiBodyKeys | prompt_fill/src/services/llm-adapter.js:140-142 | the Gemini body holds only `contents` |
| LlmAdapter.ChatBodyKeys | prompt_fill/src/services/llm-adapter.js:92-99 | a chat body names its model and has a `stream` key exactly when streaming |
| LlmAdapter.CallbackOnce | prompt_fill/src/services/llm-adapter.js:91-118 | `onFirstChunk` is called at most once, and only for a streamed chat request whose answer has a success status |
| LlmAdapter.ChatAnswerCalls | prompt_fill/src/services/llm-adapter.js:110-123 | a chat answer calls back only when streamed, and at most once; an error status rejects it |
| LlmAdapter.HttpErrorRejected | prompt_fill/src/services/llm-adapter.js:110-113 | an answer with an error status is rejected with the status and the body, without calling back |
| TauriService.CleanChar | prompt_fill/src/services/tauri-service.js:20 | one character becomes as many `_` or alphanumeric units as its UTF-16 length |
| TauriService.CleanId | prompt_fill/src/services/tauri-service.js:20 | the cleaned id has one word character per UTF-16 unit of the id |
| TauriService.CleanIdAt | prompt_fill/src/services/tauri-service.js:20 | within the BMP, cleaning keeps letters and digits in place and puts `_` for every other character |
| TauriService.CleanWordId | prompt_fill/src/services/tauri-service.js:20 | an id made of word characters is already clean |
| TauriService.CleanIdempotent | prompt_fill/src/services/tauri-service.js:20 | cleaning is idempotent |
| TauriService.CleanTemplateId | prompt_fill/src/services/tauri-service.js:20 | a missing or empty id becomes `unknown`; the cleaned id consists of word characters only |
| TauriService.Extension | prompt_fill/src/services/tauri-service.js:16 | the extension is non-empty and has no dot: it is `bin`, or the text after the last dot, or the whole path when there is no dot |
| TauriService.FileNameParts | prompt_fill/src/services/tauri-service.js:14-22 | the generated name starts with the cleaned id and `_`, and its text after the last dot is the extension |
| TauriService.MediaMatch | prompt_fill/src/services/tauri-service.js:214 | a match of the media pattern lies within the text |
| TauriService.KeyWithValue | prompt_fill/src/services/tauri-service.js:224-228 | the key found is that of an entry holding the URL, and none is found only when no entry holds it |
| TauriService.KeyWithValueAt | prompt_fill/src/services/tauri-service.js:224-228 | the key found is that of the first entry holding the URL |
| TauriService.ConvertText | prompt_fill/src/services/tauri-service.js:204-236 | a `media://` reference is kept; otherwise the result is the URL itself, a `media://` reference, or a reference the blob map gives that URL |
| TauriService.ConvertUrlToMediaPath | prompt_fill/src/services/tauri-service.js:204-236 | falsy values and non-strings come back unchanged; a non-empty string is converted as its text says, searching the blob map entry by entry |
| TauriService.MediaUrl | prompt_fill/src/services/tauri-service.js:214-218 | a URL with `media/` or `media\` followed by path characters becomes `media://` and the name at the first such place |
| TauriService.ConvertIdempotent | prompt_fill/src/services/tauri-service.js:204-236 | converting twice is converting once, when every key in the blob map is a `media://` reference |
| TauriService.SrcMatch | prompt_fill/src/services/tauri-service.js:247 | a match of the `src` pattern lies within the text |
| TauriService.SrcHits | prompt_fill/src/services/tauri-service.js:247 | every match the rewriting sees is a whole `src` attribute with a quoted, non-empty URL |
| TauriService.HtmlWithoutSrc | prompt_fill/src/services/tauri-service.js:243-251 | HTML without any `src` attribute comes back unchanged |
| TauriService.HtmlOfReferences | prompt_fill/src/services/tauri-service.js:243-251 | HTML whose every `src` holds a double-quoted `media://` reference is a fixed point of the rewriting |
| TauriService.RewriteReference | prompt_fill/src/services/tauri-service.js:247-250 | the callback gives a double-quoted reference attribute back as it is |
| TauriService.GetMediaUrl | prompt_fill/src/services/tauri-service.js:258-283 | a value that is not a `media://` reference comes back as it is, a truthy non-string fails, and a reference resolves to its blob URL or "" in the browser and to the file's URL on the desktop |
| TauriService.BrowserRoundTrip | prompt_fill/src/services/tauri-service.js:204-283 | in the browser a reference's blob URL converts back to the same reference, when the map gives different references different URLs |
| TauriService.BlobUrlBack | prompt_fill/src/services/tauri-service.js:221-228 | a `blob:` URL without a media path converts to the first reference the blob map gives it |
| Publish.DetectSensitiveInfo | prompt_fill/src/services/publish.js:10-25 | the loop collects, pattern after pattern, every match of each key pattern |
| Publish.FoundGrouped | prompt_fill/src/services/publish.js:12-22 | the result is the `sk-` keys, then the `AIza` keys, then the hexadecimal strings, each in the order of occurrence |
| Publish.FoundShapes | prompt_fill/src/services/publish.js:12-16 | every reported string has the shape of its pattern: `sk-` and at least 32 alphanumerics, `AIza` and 35 key characters, or 32 lower-case hex digits |
| Publish.NothingFound | prompt_fill/src/services/publish.js:18-24 | text where no pattern matches anywhere yields nothing |
| Publish.PublishPrompt | prompt_fill/src/services/publish.js:30-43 | the prompt is withheld exactly when sensitive strings are found and the callback given answers no; without a callback it is always submitted |
| Placeholders.VarHitsAreVars | prompt_fill/src/components/MarkdownPreview.jsx:32 | every match of the variable pattern is `{{key}}` with a non-empty key of word characters |
| Placeholders.PlaceholderOfVar | prompt_fill/src/App.jsx:477 | a variable match spells the placeholder of its captured key |
| Placeholders.VarMatchOfPlaceholder | prompt_fill/src/components/PlainTextEditor.jsx:137 | a placeholder written out as `{{key}}` is matched whole, whatever follows it |
| Selections.SelectionKeys | prompt_fill/src/components/MarkdownPreview.jsx:41-43 | the selection keys are exactly the template's keys that start with `id-key-` |
| Selections.OptionOf | prompt_fill/src/components/MarkdownPreview.jsx:49-50 | an option is found only in a bank that exists and is an object |
| Selections.OptionOfIndex | prompt_fill/src/components/MarkdownPreview.jsx:49-50 | a bank whose options are a list yields the element at the stored index |
| JsonValues.LineIsOneLine | mcp_host/services/stdio_client.py:104 | a request written to the server is one line: its only line break is the final one |
| JsonValues.RenderSingleLine | mcp_host/api/mcp_routes.py:146 | the JSON text of a message has no line break, so it fits one SSE `data` field |

## Left out

- asyncio scheduling is modelled as sequential steps. A call is: send the request, feed the child's reply lines to the read loop, then await. A future still waiting at the await is the timeout. `asyncio.wait_for` durations, `asyncio.gather` and concurrent callers on one client are not modelled.
- The missing lock in `get_client` is not modelled: with sequential steps, two concurrent creations of the same client cannot happen.
- The futures of `StdioRpcClient` carry a ghost identity, so that entries can be compared; Python compares them by object identity.
- OS processes and pipes are out of scope: `create_subprocess_exec`, terminate and kill with their grace period, `readline` and `drain`. Spawning is a success or failure parameter, and the child's output is a sequence of lines.
- The file system is out of scope: the configuration file, the skills directory, media files, `localStorage` and `sessionStorage`. The configuration is an in-memory document. The session's blob map is a parameter. A read that fails is modelled as a parameter.
- `create_skill`, `get_skill` and `delete_skill` are file-system operations and are not modelled.
- HTTP and SSE plumbing (FastAPI, `EventSourceResponse`, disconnect polling, `requests`, `fetch`) is replaced by function parameters and by queues of events.
- The MCP tool calls and server start and stop of the front end's MCP service are plain HTTP forwards and are not modelled. Only the grouping of tools and the empty defaults of the fetching functions are.
- The streaming reader decodes bytes with `TextDecoder`. The model takes the chunks as already decoded text. `releaseLock` and errors of the reader are not modelled.
- Console logging, `onClose` and other UI callbacks, React rendering, styles and clicks are not modelled. This includes the `CATEGORY_STYLES` lookup of the visual editor and the Tiptap editor internals behind `ensureVariablesAreRecognized`.
- The prompt builders and the language-model request of the prompt-to-skill dialog are one parameter, `ask`, that answers a prompt.
- `Math.random` and `Date.now` are parameters: the random part of a media file name and the timestamps of versions.
- The sorting of `displayTemplates` by name or date uses `localeCompare` and `Date` parsing (`prompt_fill/src/App.jsx:385-398`). Both are left out: no member sorts templates, and `App.DisplayTemplates` returns the filtered templates in their stored order. The search and tag filters are modelled.
- `deepClone` in `prompt_fill/src/utils/helpers.js` is a JSON round trip. On the JSON values of the model it is the identity, so it is not modelled.
- The JavaScript whitespace class is modelled by its ASCII members, and trimming follows that class. Unicode spaces and line separators are not modelled.
- The texts of V8's `TypeError` messages are reproduced as strings; engines word them differently.
- Keys inherited from `Object.prototype` are modelled only by the names the handlers meet.
- `Directory.jsx` is not rendered. Only the directory state in `App.jsx` (`isOpenDirectory`, `toggleDirectory`) is modelled.
- Numbers in JSON values are integers: no floating point.
- Helpers.FirstValue: JavaScript lists integer-like keys first in `Object.values`; the model keeps insertion order for every key.
- McpService.GroupTools: the groups are kept in insertion order; JavaScript's integer-like key order is not modelled.
- McpService.GetMcpServers: the servers are listed in insertion order; JavaScript's integer-like key order is not modelled.
- Text.ToLower: lower-casing covers the ASCII letters only; other Unicode case mappings are not modelled.
- App.MatchesQuery: compares names lower-cased by `Text.ToLower`, so only ASCII letters are case-folded.
- App.DisplayTemplatesMeaning: the search test it states uses the ASCII lower-casing of `Text.ToLower`.
- StdioClient.ErrorMessage: Python's `strip` is modelled with the ASCII whitespace characters only.
- StdioClient.ReadLine: a line is stripped of ASCII whitespace only before it is parsed.
- PromptToSkill.HashArgument: a `length` held as a numeric string, a list or an object is not coerced to a number; such an object hashes like the empty string.
- App.CopyContent: takes the text to copy as an argument. The choice between the active draft and the localized content (`prompt_fill/src/App.jsx:472`) is not part of this member.
- McpRoutes.FindOwner: tool names are compared structurally; Python's `1 == True` is not modelled.
- Bridge.FindTarget: tool names are compared structurally; Python's `1 == True` is not modelled.
- Helpers.Property: on a string only `length` is read; reading a character by index is not modelled.
- App.IsOpenDirectory: inherited `Object.prototype` names are modelled only for the names the handlers meet.
- App.ToggleDirectory: a path that names an inherited `Object.prototype` member, such as `constructor`, reads as a function in JavaScript, so the toggle stores `false`; the model reads no entry there and stores `true`.
- JsonValues.PyRepr: a string is written between single quotes without escaping; Python's escapes and its switch to double quotes for a string that holds a single quote are not modelled.

## Findings

| source | as written | input that shows it | evidently intended | confidence | as-written member | corrected member |
|---|---|---|---|---|---|---|
| prompt_fill/src/components/PlainTextEditor.jsx:74-83 | `doc.forEach((node, index) => …)` receives the node's offset as `index`, and compares it with `content.size`, which counts positions. So "\n\n" follows every non-empty paragraph, including the last. | a document holding the single paragraph "a" serializes to "a\n\n" | paragraphs joined by "\n\n" with no trailing separator, so "a" serializes to "a" | not executed | PlainTextEditor.TrailingSeparator | PlainTextEditor.IntendedJoins, PlainTextEditor.IntendedSingleParagraph |
| prompt_fill/src/services/llm-adapter.js:24-56 | the text left in the buffer when the body ends is never handled. A server that ignores `stream` and answers with plain JSON (no blank line) therefore never sets the raw JSON fallback. | the body `{"choices":[{"message":{"content":"hi"}}]}` yields "" | the last buffer is handled as a final event, so the body yields "hi" | not executed | LlmAdapter.PlainBodyIgnored | LlmAdapter.IntendedPlainJson, LlmAdapter.IntendedAgrees |

`LlmAdapter.StreamOpenAICompatibleResponse` and `LlmAdapter.StreamOutcome` model the reader as written. The invocation functions (`LlmAdapter.InvokeLlm` and the chat answers under it) read a streamed body with this reader too, as the source does. `LlmAdapter.IntendedStreamOutcome` is the corrected reader, and `LlmAdapter.IntendedAgrees` relates the two. `PlainTextEditor.SerializeToText` models the serializer as written; `PlainTextEditor.IntendedSerialized` is the corrected definition.
