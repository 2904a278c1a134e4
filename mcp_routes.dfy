/** The gateway's HTTP routes (`mcp_host/api/mcp_routes.py`): the cache of
    JSON-RPC clients by server name, the merged tool catalog, the REST tool
    call, the server-sent-event queues and the JSON-RPC dispatcher that
    answers over them, and the skills listing. What the children print and
    whether a spawn succeeds are given by a `Host` value. */
module McpRoutes {
  import opened Wrappers
  import opened Text
  import opened Dicts
  import opened Lists
  import opened JsonValues
  import opened ProcessManager
  import opened StdioClient

  /** The environment of the gateway: the system environment, whether a
      server's spawn succeeds, the lines a server prints while a call of a
      given method is awaited (and whether its stream then ends), and how a
      line parses as JSON. */
  datatype Host = Host(system: Env, spawns: string -> bool,
                       replies: (string, string) -> seq<string>, eof: (string, string) -> bool,
                       decode: string -> Option<Json>)

  /** What a route answers: a JSON body, or an `HTTPException` (status, detail). */
  datatype HttpReply = Body(body: Json) | HttpError(status: int, detail: string)

  /** The `initialize` parameters of the handshake. */
  function InitializeParams(): Json {
    JObj([("protocolVersion", JStr("2024-11-05")), ("capabilities", JObj([])),
          ("clientInfo", JObj([("name", JStr("PromptStudio-Hub")), ("version", JStr("1.0.0"))]))])
  }

  /** The detail of `get_client`'s 404. */
  function NotFoundDetail(server: string): string {
    "Server " + server + " not found or failed to start"
  }

  /** `str()` of an `HTTPException`: its status, a colon, its detail. */
  function HttpErrorText(status: nat, detail: string): string {
    NatToString(status) + ": " + detail
  }

  /** A list of strings as a JSON array. */
  function Strings(names: seq<string>): (j: Json)
    ensures j.JArr? && |j.items| == |names| && forall i :: 0 <= i < |names| ==> j.items[i] == JStr(names[i])
  {
    JArr(seq(|names|, i requires 0 <= i < |names| => JStr(names[i])))
  }

  /** `{"status": s}` */
  function Status(s: string): Json {
    JObj([("status", JStr(s))])
  }

  /** The tools one server contributes to the catalog, from what its
      `tools/list` call returned: each tool of `result["tools"]` (default `[]`)
      with `_server_name` set to the server. A failed call, a result without a
      list of tool objects, or any other exception contributes nothing. */
  function Tagged(server: string, r: Result<Json>): (tools: seq<Json>)
    ensures forall i :: 0 <= i < |tools| ==> tools[i].JObj?
  {
    if r.Err? || !r.value.JObj? then []
    else
      match Lookup(r.value.fields, "tools").GetOr(JArr([]))
      case JArr(items) =>
        if forall i :: 0 <= i < |items| ==> items[i].JObj? then
          seq(|items|, i requires 0 <= i < |items| => JObj(Put(items[i].fields, "_server_name", JStr(server))))
        else []
      case _ => []
  }

  /** Every contributed tool names its server and keeps every other field. */
  lemma TaggedFields(server: string, r: Result<Json>, i: nat, k: string)
    requires i < |Tagged(server, r)|
    ensures Get(Tagged(server, r)[i], "_server_name") == Some(JStr(server))
    ensures k != "_server_name" ==>
            Get(Tagged(server, r)[i], k) == Get(Lookup(r.value.fields, "tools").value.items[i], k)
  {
    var items := Lookup(r.value.fields, "tools").GetOr(JArr([])).items;
    LookupPut(items[i].fields, "_server_name", JStr(server), "_server_name");
    LookupPut(items[i].fields, "_server_name", JStr(server), k);
  }

  /** A server whose call failed contributes no tools. */
  lemma TaggedFailure(server: string, e: string)
    ensures Tagged(server, Err(e)) == []
  {
  }

  /** The catalog: the servers' contributions, in the order of the servers. */
  function Merge(servers: seq<string>, results: seq<Result<Json>>): (tools: seq<Json>)
    requires |servers| == |results|
    ensures forall i :: 0 <= i < |tools| ==> tools[i].JObj?
  {
    if servers == [] then [] else Tagged(servers[0], results[0]) + Merge(servers[1..], results[1..])
  }

  lemma MergeSnoc(servers: seq<string>, results: seq<Result<Json>>, s: string, r: Result<Json>)
    requires |servers| == |results|
    ensures Merge(servers + [s], results + [r]) == Merge(servers, results) + Tagged(s, r)
  {
    MergeAppend(servers, results, [s], [r]);
    MergeCons([s], [r]);
    assert [s][1..] == [] && [r][1..] == [];
  }

  /** Per-server isolation: the catalog is the servers before `i`, then
      server `i`'s own contribution, then the servers after it, so what one
      server returns (or that it fails) changes no other server's tools. */
  lemma {:induction false} MergeSplit(servers: seq<string>, results: seq<Result<Json>>, i: nat)
    requires |servers| == |results| && i < |servers|
    ensures Merge(servers, results) ==
            Merge(servers[..i], results[..i]) + Tagged(servers[i], results[i]) +
            Merge(servers[i + 1..], results[i + 1..])
  {
    SplitAt(servers, i);
    SplitAt(results, i);
    MergeAppend(servers[..i], results[..i], [servers[i]] + servers[i + 1..], [results[i]] + results[i + 1..]);
    MergeCons([servers[i]] + servers[i + 1..], [results[i]] + results[i + 1..]);
    HeadOfCons(servers[i], servers[i + 1..]);
    HeadOfCons(results[i], results[i + 1..]);
  }

  lemma {:induction false} MergeAppend(a: seq<string>, ra: seq<Result<Json>>, b: seq<string>, rb: seq<Result<Json>>)
    requires |a| == |ra| && |b| == |rb|
    ensures Merge(a + b, ra + rb) == Merge(a, ra) + Merge(b, rb)
  {
    if a == [] {
      assert a + b == b && ra + rb == rb;
    } else {
      MergeAppend(a[1..], ra[1..], b, rb);
      MergeCons(a + b, ra + rb);
      TailOfAppend(a, b);
      TailOfAppend(ra, rb);
    }
  }

  lemma MergeCons(servers: seq<string>, results: seq<Result<Json>>)
    requires |servers| == |results| && servers != []
    ensures Merge(servers, results) == Tagged(servers[0], results[0]) + Merge(servers[1..], results[1..])
  {
  }

  lemma SplitAt<T>(s: seq<T>, i: nat)
    requires i < |s|
    ensures s == s[..i] + ([s[i]] + s[i + 1..])
  {
  }

  lemma HeadOfCons<T>(x: T, s: seq<T>)
    ensures ([x] + s)[0] == x && ([x] + s)[1..] == s
  {
  }

  lemma TailOfAppend<T>(a: seq<T>, b: seq<T>)
    requires a != []
    ensures (a + b)[0] == a[0] && (a + b)[1..] == a[1..] + b
  {
  }

  /** Every tool of the catalog is tagged with one of the servers. */
  lemma {:induction false} MergeTagged(servers: seq<string>, results: seq<Result<Json>>, j: nat)
    requires |servers| == |results| && j < |Merge(servers, results)|
    ensures exists i :: 0 <= i < |servers| && Get(Merge(servers, results)[j], "_server_name") == Some(JStr(servers[i]))
  {
    var head := Tagged(servers[0], results[0]);
    if j < |head| {
      TaggedFields(servers[0], results[0], j, "");
    } else {
      MergeTagged(servers[1..], results[1..], j - |head|);
      var i :| 0 <= i < |servers[1..]| && Get(Merge(servers[1..], results[1..])[j - |head|], "_server_name") == Some(JStr(servers[1..][i]));
      assert servers[1..][i] == servers[i + 1];
    }
  }

  /** The owner `handle_messages` finds for a tool name: the `_server_name`
      of the first catalog tool whose `name` equals it. `None` when no tool
      matches, and when a tool before the match has no `name` (the `KeyError`
      is swallowed). */
  function FindOwner(catalog: seq<Json>, toolName: Json): Option<Json> {
    if catalog == [] then None
    else
      var t := catalog[0];
      if !t.JObj? || !HasKey(t.fields, "name") then None
      else if Lookup(t.fields, "name").value == toolName then Some(GetOrNull(t, "_server_name"))
      else FindOwner(catalog[1..], toolName)
  }

  /** A found owner is the `_server_name` of a tool with that name, and no
      earlier tool has that name. */
  lemma {:induction false} FindOwnerFirst(catalog: seq<Json>, toolName: Json)
    requires FindOwner(catalog, toolName).Some?
    ensures exists i :: 0 <= i < |catalog| && Get(catalog[i], "name") == Some(toolName)
                        && FindOwner(catalog, toolName) == Some(GetOrNull(catalog[i], "_server_name"))
                        && forall j :: 0 <= j < i ==> Get(catalog[j], "name") != Some(toolName)
  {
    var t := catalog[0];
    if Lookup(t.fields, "name").value != toolName {
      FindOwnerFirst(catalog[1..], toolName);
      var i :| 0 <= i < |catalog[1..]| && Get(catalog[1..][i], "name") == Some(toolName)
               && FindOwner(catalog[1..], toolName) == Some(GetOrNull(catalog[1..][i], "_server_name"))
               && forall j :: 0 <= j < i ==> Get(catalog[1..][j], "name") != Some(toolName);
      assert catalog[i + 1] == catalog[1..][i];
      forall j | 0 <= j < i + 1
        ensures Get(catalog[j], "name") != Some(toolName)
      {
        if j > 0 {
          assert catalog[j] == catalog[1..][j - 1];
        }
      }
    }
  }

  /** A catalog with no tool of that name has no owner for it. */
  lemma {:induction false} FindOwnerAbsent(catalog: seq<Json>, toolName: Json)
    requires forall i :: 0 <= i < |catalog| ==> Get(catalog[i], "name") != Some(toolName)
    ensures FindOwner(catalog, toolName).None?
  {
    if catalog != [] {
      FindOwnerAbsent(catalog[1..], toolName);
    }
  }

  /** `{"jsonrpc": "2.0", "id": id, "result": result}` */
  function RpcResult(id: Json, result: Json): Json {
    JObj([("jsonrpc", JStr("2.0")), ("id", id), ("result", result)])
  }

  /** `{"jsonrpc": "2.0", "id": id, "error": {"code": code, "message": message}}` */
  function RpcError(id: Json, code: int, message: string): Json {
    JObj([("jsonrpc", JStr("2.0")), ("id", id), ("error", JObj([("code", JNum(code)), ("message", JStr(message))]))])
  }

  /** The fixed result of `initialize`. */
  function InitializeResult(): Json {
    JObj([("protocolVersion", JStr("2024-11-05")),
          ("capabilities", JObj([("tools", JObj([("listChanged", JBool(true))]))])),
          ("serverInfo", JObj([("name", JStr("PromptStudio-Host")), ("version", JStr("1.0.0"))]))])
  }

  function ToolNotFound(toolName: Json): string {
    "Tool " + PyStr(toolName) + " not found"
  }

  /** The response `handle_messages` builds for a request with `method` and
      `id`, given the catalog `list_tools` produced and what the call to the
      owner returned; `None` when nothing is sent back. */
  function Respond(rpcMethod: Json, id: Json, catalog: seq<Json>, toolName: Json, called: Result<Json>): Option<Json> {
    if rpcMethod == JStr("initialize") then Some(RpcResult(id, InitializeResult()))
    else if rpcMethod == JStr("tools/list") then Some(RpcResult(id, JObj([("tools", JArr(catalog))])))
    else if rpcMethod == JStr("tools/call") then
      var owner := FindOwner(catalog, toolName);
      if owner.Some? && Truthy(owner.value) then
        match called
        case Ok(v) => Some(RpcResult(id, v))
        case Err(e) => Some(RpcError(id, -32603, e))
      else Some(RpcError(id, -32601, ToolNotFound(toolName)))
    else if rpcMethod == JStr("notifications/initialized") then None
    else if rpcMethod == JStr("ping") then Some(RpcResult(id, JObj([])))
    else if id != JNull then Some(RpcError(id, -32601, "Method not found"))
    else None
  }

  /** Exactly which of `result` and `error` a message has. */
  predicate RpcShaped(r: Json, id: Json) {
    Get(r, "jsonrpc") == Some(JStr("2.0")) && Get(r, "id") == Some(id)
    && (Get(r, "result").Some? != Get(r, "error").Some?)
  }

  lemma RpcResultShaped(id: Json, result: Json)
    ensures RpcShaped(RpcResult(id, result), id)
  {
    var fields := RpcResult(id, result).fields;
    LookupEntry(fields, 0);
    LookupEntry(fields, 1);
    LookupEntry(fields, 2);
    HasKeyIndex(fields, "error");
  }

  lemma RpcErrorShaped(id: Json, code: int, message: string)
    ensures RpcShaped(RpcError(id, code, message), id)
  {
    var fields := RpcError(id, code, message).fields;
    LookupEntry(fields, 0);
    LookupEntry(fields, 1);
    LookupEntry(fields, 2);
    HasKeyIndex(fields, "result");
  }

  /** Every response is a JSON-RPC 2.0 message carrying the request's id and
      exactly one of `result` and `error`. */
  lemma RespondShape(rpcMethod: Json, id: Json, catalog: seq<Json>, toolName: Json, called: Result<Json>)
    requires Respond(rpcMethod, id, catalog, toolName, called).Some?
    ensures RpcShaped(Respond(rpcMethod, id, catalog, toolName, called).value, id)
  {
    if rpcMethod == JStr("initialize") {
      RpcResultShaped(id, InitializeResult());
    } else if rpcMethod == JStr("tools/list") {
      RpcResultShaped(id, JObj([("tools", JArr(catalog))]));
    } else if rpcMethod == JStr("tools/call") {
      var owner := FindOwner(catalog, toolName);
      if owner.Some? && Truthy(owner.value) {
        match called
        case Ok(v) => RpcResultShaped(id, v);
        case Err(e) => RpcErrorShaped(id, -32603, e);
      } else {
        RpcErrorShaped(id, -32601, ToolNotFound(toolName));
      }
    } else if rpcMethod == JStr("ping") {
      RpcResultShaped(id, JObj([]));
    } else if rpcMethod != JStr("notifications/initialized") && id != JNull {
      RpcErrorShaped(id, -32601, "Method not found");
    }
  }

  /** `initialize` and `ping` always answer with a result; the initialized
      notification never gets an answer; an unknown method gets "Method not
      found" (-32601) when it has an id and no answer otherwise. */
  lemma RespondFixedMethods(id: Json, catalog: seq<Json>, toolName: Json, called: Result<Json>, other: Json)
    requires other !in {JStr("initialize"), JStr("tools/list"), JStr("tools/call"),
                        JStr("notifications/initialized"), JStr("ping")}
    ensures Respond(JStr("initialize"), id, catalog, toolName, called) == Some(RpcResult(id, InitializeResult()))
    ensures Respond(JStr("ping"), id, catalog, toolName, called) == Some(RpcResult(id, JObj([])))
    ensures Respond(JStr("notifications/initialized"), id, catalog, toolName, called).None?
    ensures Respond(other, id, catalog, toolName, called) ==
            if id == JNull then None else Some(RpcError(id, -32601, "Method not found"))
  {
  }

  /** A tool call answers -32601 "Tool X not found" when no catalog tool has
      that name, and otherwise relays the owner's answer or failure (-32603). */
  lemma RespondToolsCall(id: Json, catalog: seq<Json>, toolName: Json, called: Result<Json>)
    ensures (forall i :: 0 <= i < |catalog| ==> Get(catalog[i], "name") != Some(toolName)) ==>
            Respond(JStr("tools/call"), id, catalog, toolName, called) == Some(RpcError(id, -32601, ToolNotFound(toolName)))
    ensures var owner := FindOwner(catalog, toolName);
            owner.Some? && Truthy(owner.value) ==>
              Respond(JStr("tools/call"), id, catalog, toolName, called) ==
              Some(if called.Ok? then RpcResult(id, called.value) else RpcError(id, -32603, called.error))
  {
    if forall i :: 0 <= i < |catalog| ==> Get(catalog[i], "name") != Some(toolName) {
      FindOwnerAbsent(catalog, toolName);
      RespondUnowned(id, catalog, toolName, called);
    }
  }

  lemma RespondUnowned(id: Json, catalog: seq<Json>, toolName: Json, called: Result<Json>)
    requires FindOwner(catalog, toolName).None?
    ensures Respond(JStr("tools/call"), id, catalog, toolName, called) == Some(RpcError(id, -32601, ToolNotFound(toolName)))
  {
  }

  /** `str(request.base_url).rstrip("/") + "/api/v1/mcp/messages"` */
  function MessagesUrl(baseUrl: string): (url: string)
    ensures EndsWith(url, "/api/v1/mcp/messages")
  {
    var prefix := StripEnd(baseUrl, '/');
    var url := prefix + "/api/v1/mcp/messages";
    assert url[|url| - |"/api/v1/mcp/messages"|..] == "/api/v1/mcp/messages";
    url
  }

  /** The endpoint never doubles the slash before the path, however many
      slashes end the base URL. */
  lemma MessagesUrlSlashes(baseUrl: string)
    ensures var url := MessagesUrl(baseUrl);
            var n := |url| - |"/api/v1/mcp/messages"|;
            url[..n] == StripEnd(baseUrl, '/') && (n == 0 || url[n - 1] != '/')
  {
    var prefix := StripEnd(baseUrl, '/');
    assert (prefix + "/api/v1/mcp/messages")[..|prefix|] == prefix;
  }

  /** One server-sent event. */
  datatype SseEvent = SseEvent(event: string, data: string)

  /** The queue of one SSE connection. */
  class SseQueue {
    var items: seq<Json>

    constructor()
      ensures items == []
    {
      items := [];
    }
  }

  /** `name[:-3]` and the name for each `.py` entry of the skills directory, in listing order. */
  function SkillEntries(files: seq<string>): seq<Json> {
    if files == [] then []
    else
      var f := files[0];
      var rest := SkillEntries(files[1..]);
      if EndsWith(f, ".py") then [JObj([("name", JStr(f[..|f| - 3])), ("filename", JStr(f))])] + rest else rest
  }

  /** Each entry is a `.py` file of the listing whose name is the file name
      without the extension, and every `.py` file has its entry. */
  lemma {:induction false} SkillEntriesExact(files: seq<string>, f: string)
    ensures EndsWith(f, ".py") && f in files <==>
            |f| >= 3 && JObj([("name", JStr(f[..|f| - 3])), ("filename", JStr(f))]) in SkillEntries(files)
    ensures forall e :: e in SkillEntries(files) ==>
              exists g :: g in files && EndsWith(g, ".py") && e == JObj([("name", JStr(g[..|g| - 3])), ("filename", JStr(g))])
  {
    if files != [] {
      SkillEntriesExact(files[1..], f);
    }
  }

  /** Every cached client is consistent with no request in flight. */
  ghost predicate ClientsReady(clients: map<string, StdioRpcClient>)
    reads clients.Values
  {
    forall n :: n in clients ==> clients[n].Valid() && clients[n].pending == map[]
  }

  /** Caching one more ready client keeps the cache ready. */
  lemma AddReady(clients: map<string, StdioRpcClient>, name: string, client: StdioRpcClient)
    requires ClientsReady(clients) && client.Valid() && client.pending == map[]
    ensures ClientsReady(clients[name := client])
  {
  }

  /** The failure of `get_client(server)` for a name it cannot serve: a list
      or an object is no dictionary key (the `TypeError` "unhashable type"),
      and any other name gets the 404, as `str()` of that exception. */
  function NameFailure(server: Json): string {
    if server.JArr? || server.JObj? then "unhashable type: '" + PyTypeName(server) + "'"
    else HttpErrorText(404, NotFoundDetail(PyStr(server)))
  }

  /** What decides the answer to a client's next call: whether its child
      has a handle to write to, whether its read loop runs, and the last
      request id handed out. */
  datatype ClientState = ClientState(hasHandle: bool, running: bool, requestId: nat)

  function StateOfClient(c: StdioRpcClient): ClientState
    reads c, c.proc
  {
    ClientState(c.proc.hasHandle, c.isRunning, c.requestId)
  }

  /** What `call(rpcMethod)` returns on a client in state `st` with nothing
      in flight, while the child `server` prints the host's lines for that
      method: the answer the read loop finds for the next request id, the
      timeout when it finds none or does not run, or the failed write to a
      child without a handle. */
  function AnswerFrom(st: ClientState, server: string, rpcMethod: string, host: Host): Result<Json> {
    if st.hasHandle then
      CallResult(map[], st.running, st.requestId + 1, host.replies(server, rpcMethod), host.eof(server, rpcMethod), host.decode)
    else Err(NoStdin)
  }

  /** The client's state after that call: the next id is used, and the read
      loop stops when the child's stream ends or a message makes it raise. */
  function AfterCall(st: ClientState, server: string, rpcMethod: string, host: Host): ClientState {
    if st.hasHandle then
      var none: map<int, FutureState> := map[];
      ClientState(true, st.running && ReadLines(none[st.requestId + 1 := Waiting], host.replies(server, rpcMethod),
                                                host.eof(server, rpcMethod), host.decode).running,
                  st.requestId + 1)
    else ClientState(false, st.running, st.requestId + 1)
  }

  /** A call on a client with a handle, as `call` reports it, is what
      `AnswerFrom` and `AfterCall` say. */
  lemma CallOnState(st: ClientState, server: string, rpcMethod: string, host: Host, id: nat, r: Result<Json>, running: bool)
    requires st.hasHandle && id == st.requestId + 1
    requires r == CallResult(map[], st.running, id, host.replies(server, rpcMethod), host.eof(server, rpcMethod), host.decode)
    requires running == (st.running && ReadLines(map[][id := Waiting], host.replies(server, rpcMethod),
                                                 host.eof(server, rpcMethod), host.decode).running)
    ensures r == AnswerFrom(st, server, rpcMethod, host)
    ensures ClientState(true, running, id) == AfterCall(st, server, rpcMethod, host)
  {
    var none: map<int, FutureState> := map[];
    assert map[][id := Waiting] == none[st.requestId + 1 := Waiting];
    assert AnswerFrom(st, server, rpcMethod, host)
        == CallResult(none, st.running, id, host.replies(server, rpcMethod), host.eof(server, rpcMethod), host.decode);
  }

  /** A new client of `server` after `get_client`'s handshake: started, then
      the `initialize` call as request 1. */
  function Handshaken(server: string, host: Host): ClientState {
    AfterCall(ClientState(true, true, 0), server, "initialize", host)
  }

  /** A running client whose child prints the answer to the next id first
      gets that answer's result or error message, whatever the child prints
      after it; a client whose read loop has stopped always times out. */
  lemma AnswerFromReply(st: ClientState, server: string, rpcMethod: string, host: Host, msg: Json)
    requires st.hasHandle && host.replies(server, rpcMethod) != []
    requires var line := Trim(host.replies(server, rpcMethod)[0]);
             line != [] && host.decode(line) == Some(msg) && Get(msg, "id") == Some(JNum(st.requestId + 1))
    ensures st.running && Get(msg, "error").None? ==> AnswerFrom(st, server, rpcMethod, host) == Ok(GetOrNull(msg, "result"))
    ensures st.running && Get(msg, "error").Some? ==>
              AnswerFrom(st, server, rpcMethod, host) == Err(ErrorMessage(Get(msg, "error").value))
    ensures !st.running ==> AnswerFrom(st, server, rpcMethod, host) == Err("")
  {
    if st.running {
      var lines := host.replies(server, rpcMethod);
      var id := st.requestId + 1;
      var st0: map<int, FutureState> := map[][id := Waiting];
      assert Target(msg) == Some(id) && !Raises(msg);
      assert ReadLine(st0, lines[0], host.decode) == ReadOutcome(st0[id := Outcome(msg)], true);
      ReadLinesStep(st0, lines, host.eof(server, rpcMethod), host.decode);
      ReadLinesKeepsDone(st0[id := Outcome(msg)], lines[1..], host.eof(server, rpcMethod), host.decode, id);
      var after := ReadLines(st0, lines, host.eof(server, rpcMethod), host.decode);
      assert after.states[id] == Outcome(msg);
      assert AnswerFrom(st, server, rpcMethod, host) == Settle(after.states[id]);
    }
  }

  /** The state the next call on `name`'s client starts from, given the
      states `cache` of the cached clients: the cached one, or that of the
      new client `get_client` would handshake. */
  function Begin(cache: map<string, ClientState>, name: string, host: Host): ClientState {
    if name in cache then cache[name] else Handshaken(name, host)
  }

  /** The cached states once `list_tools` has called `tools/list` on each
      of `names` in turn. */
  function ListPass(cache: map<string, ClientState>, names: seq<string>, host: Host): map<string, ClientState>
    decreases |names|
  {
    if names == [] then cache
    else
      var before := ListPass(cache, names[..|names| - 1], host);
      var n := names[|names| - 1];
      before[n := AfterCall(Begin(before, n, host), n, "tools/list", host)]
  }

  /** The answers to `tools/list` of the servers `names`, each from its
      state in `cache`. */
  function ListAnswers(cache: map<string, ClientState>, names: seq<string>, host: Host): seq<Result<Json>> {
    seq(|names|, j requires 0 <= j < |names| => ListAnswer(cache, names[j], host))
  }

  /** The catalog `list_tools` merges from the servers `names` in the
      states `cache`. */
  function Catalog(cache: map<string, ClientState>, names: seq<string>, host: Host): seq<Json> {
    Merge(names, ListAnswers(cache, names, host))
  }

  /** One pass over distinct names leaves each of them exactly one
      `tools/list` call further than before, and every other name as it was. */
  lemma {:induction false} ListPassBegin(cache: map<string, ClientState>, names: seq<string>, name: string, host: Host)
    requires Distinct(names)
    ensures Begin(ListPass(cache, names, host), name, host) ==
            if name in names then AfterCall(Begin(cache, name, host), name, "tools/list", host)
            else Begin(cache, name, host)
    decreases |names|
  {
    if names != [] {
      var init := names[..|names| - 1];
      var last := names[|names| - 1];
      assert names == init + [last];
      assert Distinct(init) by {
        forall i, j | 0 <= i < j < |init| ensures init[i] != init[j] {
          assert init[i] == names[i] && init[j] == names[j];
        }
      }
      assert last !in init by {
        forall k | 0 <= k < |init| ensures init[k] != last {
          assert init[k] == names[k];
        }
      }
      ListPassBegin(cache, init, name, host);
    }
  }

  /** One more round of `list_tools`' loop over distinct names: the pass
      over `names[..i + 1]` is the pass over `names[..i]` followed by the
      call on `names[i]`, which starts from that server's state before the
      pass; its answer is the next one. */
  lemma ListStep(cache: map<string, ClientState>, names: seq<string>, i: nat, host: Host)
    requires Distinct(names) && i < |names|
    ensures names[..i + 1] == names[..i] + [names[i]]
    ensures Begin(ListPass(cache, names[..i], host), names[i], host) == Begin(cache, names[i], host)
    ensures ListPass(cache, names[..i + 1], host) ==
            ListPass(cache, names[..i], host)[names[i] := AfterCall(Begin(cache, names[i], host), names[i], "tools/list", host)]
    ensures ListAnswers(cache, names[..i + 1], host) ==
            ListAnswers(cache, names[..i], host) + [AnswerFrom(Begin(cache, names[i], host), names[i], "tools/list", host)]
  {
    var init := names[..i];
    assert names[..i + 1][..i] == init;
    assert Distinct(init) by {
      forall a, b | 0 <= a < b < |init| ensures init[a] != init[b] {
        assert init[a] == names[a] && init[b] == names[b];
      }
    }
    assert names[i] !in init by {
      forall k | 0 <= k < |init| ensures init[k] != names[i] {
        assert init[k] == names[k];
      }
    }
    ListPassBegin(cache, init, names[i], host);
  }

  /** `list_tools` gives each server its place: the catalog is that of the
      servers before it, then the tools of the server's own `tools/list`
      reply, tagged with its name, then the catalog of the servers after it,
      when its running client's child answers that client's next request id
      first. */
  lemma CatalogServes(cache: map<string, ClientState>, names: seq<string>, i: nat, host: Host, msg: Json)
    requires i < |names|
    requires var st := Begin(cache, names[i], host);
             st.hasHandle && st.running && host.replies(names[i], "tools/list") != [] &&
             var line := Trim(host.replies(names[i], "tools/list")[0]);
             line != [] && host.decode(line) == Some(msg) && Get(msg, "id") == Some(JNum(st.requestId + 1))
    requires Get(msg, "error").None?
    ensures Catalog(cache, names, host) ==
            Catalog(cache, names[..i], host) + Tagged(names[i], Ok(GetOrNull(msg, "result"))) +
            Catalog(cache, names[i + 1..], host)
  {
    var answers := ListAnswers(cache, names, host);
    ListAnswersSlices(cache, names, i, host);
    AnswerFromReply(Begin(cache, names[i], host), names[i], "tools/list", host, msg);
    assert answers[i] == Ok(GetOrNull(msg, "result"));
    MergeSplit(names, answers, i);
  }

  /** The answer of one server depends on its name alone. */
  function ListAnswer(cache: map<string, ClientState>, name: string, host: Host): Result<Json> {
    AnswerFrom(Begin(cache, name, host), name, "tools/list", host)
  }

  /** Each answer is the named server's. */
  lemma ListAnswersAt(cache: map<string, ClientState>, names: seq<string>, j: nat, host: Host)
    requires j < |names|
    ensures |ListAnswers(cache, names, host)| == |names|
    ensures ListAnswers(cache, names, host)[j] == ListAnswer(cache, names[j], host)
  {
  }

  /** The answers of a slice of the servers are that slice of the answers. */
  lemma ListAnswersSlices(cache: map<string, ClientState>, names: seq<string>, i: nat, host: Host)
    requires i < |names|
    ensures ListAnswers(cache, names, host)[..i] == ListAnswers(cache, names[..i], host)
    ensures ListAnswers(cache, names, host)[i + 1..] == ListAnswers(cache, names[i + 1..], host)
  {
    ListAnswersPrefix(cache, names, i, host);
    ListAnswersSuffix(cache, names, i + 1, host);
  }

  lemma ListAnswersPrefix(cache: map<string, ClientState>, names: seq<string>, i: nat, host: Host)
    requires i <= |names|
    ensures ListAnswers(cache, names, host)[..i] == ListAnswers(cache, names[..i], host)
  {
    var a := ListAnswers(cache, names, host)[..i];
    var b := ListAnswers(cache, names[..i], host);
    ListAnswersLength(cache, names, host);
    ListAnswersLength(cache, names[..i], host);
    forall j | 0 <= j < i
      ensures a[j] == b[j]
    {
      assert names[..i][j] == names[j];
      ListAnswersAt(cache, names, j, host);
      ListAnswersAt(cache, names[..i], j, host);
    }
    assert a == b;
  }

  lemma ListAnswersSuffix(cache: map<string, ClientState>, names: seq<string>, i: nat, host: Host)
    requires i <= |names|
    ensures ListAnswers(cache, names, host)[i..] == ListAnswers(cache, names[i..], host)
  {
    var a := ListAnswers(cache, names, host)[i..];
    var b := ListAnswers(cache, names[i..], host);
    ListAnswersLength(cache, names, host);
    ListAnswersLength(cache, names[i..], host);
    forall j | 0 <= j < |names| - i
      ensures a[j] == b[j]
    {
      ListAnswersShift(cache, names, i, j, host);
    }
    assert a == b;
  }

  lemma ListAnswersShift(cache: map<string, ClientState>, names: seq<string>, i: nat, j: nat, host: Host)
    requires i + j < |names|
    ensures ListAnswers(cache, names, host)[i + j] == ListAnswers(cache, names[i..], host)[j]
  {
    assert names[i..][j] == names[i + j];
    ListAnswersAt(cache, names, i + j, host);
    ListAnswersAt(cache, names[i..], j, host);
  }

  lemma ListAnswersLength(cache: map<string, ClientState>, names: seq<string>, host: Host)
    ensures |ListAnswers(cache, names, host)| == |names|
  {
  }

  /** A second update of one key replaces the first. */
  lemma Overwrite(m: map<string, ClientState>, k: string, a: ClientState, b: ClientState)
    ensures m[k := a][k := b] == m[k := b]
  {
  }

  /** What `get_client(server)` and the `tools/call` request give from the
      cached states `cache`: the child's answer when a client serves the
      name (`served`), and the lookup's failure otherwise. */
  function Called(server: Json, served: bool, cache: map<string, ClientState>, host: Host): Result<Json> {
    if server.JStr? && served then AnswerFrom(Begin(cache, server.s, host), server.s, "tools/call", host)
    else Err(NameFailure(server))
  }

  /** A `tools/call` request to a served server whose running client's
      child answers that client's next request id first relays the reply:
      its `result`, or its error's message. */
  lemma CalledServes(name: string, cache: map<string, ClientState>, host: Host, msg: Json)
    requires var st := Begin(cache, name, host);
             st.hasHandle && st.running && host.replies(name, "tools/call") != [] &&
             var line := Trim(host.replies(name, "tools/call")[0]);
             line != [] && host.decode(line) == Some(msg) && Get(msg, "id") == Some(JNum(st.requestId + 1))
    ensures Called(JStr(name), true, cache, host) ==
            if Get(msg, "error").None? then Ok(GetOrNull(msg, "result")) else Err(ErrorMessage(Get(msg, "error").value))
  {
    AnswerFromReply(Begin(cache, name, host), name, "tools/call", host, msg);
  }

  /** The cached states after `get_client(name)` and one `tools/call`
      request: the served name's client is one call further, and nothing
      changes when no client serves it. */
  function CallStep(cache: map<string, ClientState>, name: string, served: bool, host: Host): map<string, ClientState> {
    if served then cache[name := AfterCall(Begin(cache, name, host), name, "tools/call", host)] else cache
  }

  /** The last frame the client of `name`, if cached with a handle, wrote
      is the request `rpcMethod` with `params` under its latest id. */
  ghost predicate LastSent(clients: map<string, StdioRpcClient>, name: string, rpcMethod: string, params: Option<Json>)
    reads clients.Values, set c | c in clients.Values :: c.proc
  {
    name in clients && clients[name].proc.hasHandle ==>
      var sent := clients[name].sent;
      sent != [] && sent[|sent| - 1] == Line(RequestFrame(clients[name].requestId, rpcMethod, params))
  }

  /** No two cached names share one client object. */
  ghost predicate Apart(clients: map<string, StdioRpcClient>) {
    forall a, b :: a in clients && b in clients && a != b ==> clients[a] != clients[b]
  }

  /** The dispatcher's call: nothing is called (the empty placeholder)
      without a truthy owner, and otherwise the call's outcome is `outcome`. */
  predicate OwnerCalled(called: Result<Json>, owner: Option<Json>, outcome: Result<Json>) {
    if owner.Some? && Truthy(owner.value) then called == outcome else called == Err("")
  }

  /** The REST answer for a call's outcome: the result, or 500 with the message. */
  function Reply500(r: Result<Json>): (reply: HttpReply)
    ensures reply.Body? <==> r.Ok?
    ensures r.Ok? ==> reply.body == r.value
    ensures r.Err? ==> reply.status == 500 && reply.detail == r.error
  {
    if r.Ok? then Body(r.value) else HttpError(500, r.error)
  }

  /** The states of the clients `cs`, by name. */
  ghost function CacheOf(cs: map<string, StdioRpcClient>): map<string, ClientState>
    reads cs.Values, set c | c in cs.Values :: c.proc
  {
    map n | n in cs :: StateOfClient(cs[n])
  }

  /** Caching one more client adds its state under its name. */
  lemma CacheOfAdd(cs: map<string, StdioRpcClient>, name: string, c: StdioRpcClient)
    ensures CacheOf(cs[name := c]) == CacheOf(cs)[name := StateOfClient(c)]
  {
  }

  /** The gateway's module-level state: the process supervisor, the client
      cache and the SSE queues. */
  class Gateway {
    const manager: McpProcessManager
    /** `clients`: server name to its cached client, kept for good once created. */
    var clients: map<string, StdioRpcClient>
    /** `sse_queues`, in registration order. */
    var queues: seq<SseQueue>

    /** The supervisor is consistent, every cached client is consistent with
        no request in flight and serves one name, and each queue is
        registered once. */
    ghost predicate Valid()
      reads this, manager, manager.processes.Values, clients.Values
    {
      manager.Valid()
      && ClientsReady(clients)
      && Apart(clients)
      && Distinct(queues)
    }

    /** The states of the cached clients, by name. */
    ghost function Cache(): map<string, ClientState>
      reads this, clients.Values, set c | c in clients.Values :: c.proc
    {
      CacheOf(clients)
    }

    constructor(manager: McpProcessManager)
      requires manager.Valid()
      ensures Valid() && this.manager == manager && clients == map[] && queues == []
    {
      this.manager := manager;
      clients := map[];
      queues := [];
    }

    /** `get_client(name)`: the cached client when there is one; otherwise
        the running child (started from its record first when there is none),
        a new client with the `initialize` handshake, whose failure is
        ignored, and the client cached. No child: the 404 (`None`). */
    method GetClient(name: string, host: Host) returns (c: Option<StdioRpcClient>)
      requires Valid()
      modifies this`clients, manager
      ensures Valid()
      ensures c.Some? ==> name in clients && clients[name] == c.value
      ensures old(name in clients) ==>
                c == Some(old(clients[name])) && clients == old(clients)
      ensures old(name in clients) || old(name in manager.processes) ==>
                manager.processes == old(manager.processes) && manager.order == old(manager.order)
                && manager.disk == old(manager.disk)
      ensures !old(name in clients) ==> (c.Some? <==> name in manager.processes)
      ensures !old(name in clients) && c.None? ==> clients == old(clients)
      ensures !old(name in clients) && c.Some? ==>
                fresh(c.value) && clients == old(clients)[name := c.value]
                && c.value.proc == manager.processes[name] && StateOfClient(c.value) == Handshaken(name, host)
                && c.value.sent != [] && c.value.sent[0] == Line(RequestFrame(c.value.requestId, "initialize", Some(InitializeParams())))
      ensures !old(name in clients) && !old(name in manager.processes)
              && !Truthy(JObj(Lookup(old(manager.LoadConfig()).servers, name).GetOr([]))) ==>
                c.None? && manager.disk == old(manager.disk)
      ensures forall n :: n in clients ==> clients[n] in old(clients.Values) || fresh(clients[n])
      ensures c.Some? ==> Cache() == old(Cache())[name := Begin(old(Cache()), name, host)]
      ensures c.None? ==> Cache() == old(Cache())
    {
      if name in clients {
        return Some(clients[name]);
      }
      c := Connect(name, host);
    }

    /** `get_client(name)` as the routes rely on it: a client is cached for
        the name afterwards exactly when one was before or a child runs
        under it, and only that client's state may change. */
    method ClientOf(name: string, host: Host) returns (c: Option<StdioRpcClient>)
      requires Valid()
      modifies this`clients, manager
      ensures Valid()
      ensures old(name in clients) || old(name in manager.processes) ==>
                manager.processes == old(manager.processes) && manager.order == old(manager.order)
                && manager.disk == old(manager.disk)
      ensures (c.Some? <==> name in clients) && (c.Some? ==> clients[name] == c.value)
      ensures name in clients <==> old(name in clients) || name in manager.processes
      ensures old(name in clients) ==> clients == old(clients)
      ensures !old(name in clients) && c.Some? ==> fresh(c.value)
      ensures forall n :: n in clients ==> clients[n] in old(clients.Values) || fresh(clients[n])
      ensures c.Some? ==> Cache() == old(Cache())[name := Begin(old(Cache()), name, host)]
      ensures c.None? ==> Cache() == old(Cache())
    {
      c := GetClient(name, host);
    }

    /** `get_client` for a name without a cached client. */
    method Connect(name: string, host: Host) returns (c: Option<StdioRpcClient>)
      requires Valid() && name !in clients
      modifies this`clients, manager
      ensures Valid()
      ensures old(name in manager.processes) ==>
                manager.processes == old(manager.processes) && manager.order == old(manager.order)
                && manager.disk == old(manager.disk)
      ensures c.Some? <==> name in manager.processes
      ensures c.None? ==> clients == old(clients)
      ensures c.Some? ==>
                fresh(c.value) && clients == old(clients)[name := c.value]
                && c.value.proc == manager.processes[name] && StateOfClient(c.value) == Handshaken(name, host)
                && c.value.sent != [] && c.value.sent[0] == Line(RequestFrame(c.value.requestId, "initialize", Some(InitializeParams())))
      ensures !old(name in manager.processes)
              && !Truthy(JObj(Lookup(old(manager.LoadConfig()).servers, name).GetOr([]))) ==>
                c.None? && manager.disk == old(manager.disk)
      ensures c.Some? ==> Cache() == old(Cache())[name := Handshaken(name, host)]
      ensures c.None? ==> Cache() == old(Cache())
    {
      var found := EnsureProcess(name, host);
      if !found {
        return None;
      }
      var client := Attach(name, host);
      c := Some(client);
    }

    /** A new client for the registered child `name`, handshaken and cached. */
    method Attach(name: string, host: Host) returns (client: StdioRpcClient)
      requires Valid() && name !in clients && name in manager.processes
      modifies this`clients
      ensures Valid()
      ensures fresh(client) && clients == old(clients)[name := client]
      ensures client.proc == manager.processes[name] && StateOfClient(client) == Handshaken(name, host)
      ensures client.sent != [] && client.sent[0] == Line(RequestFrame(client.requestId, "initialize", Some(InitializeParams())))
      ensures Cache() == old(Cache())[name := Handshaken(name, host)]
    {
      client := Handshake(manager.processes[name], name, host);
      assert Cache() == old(Cache());
      Remember(name, client);
    }

    /** `clients[name] = client` for a new client with nothing in flight. */
    method Remember(name: string, client: StdioRpcClient)
      requires Valid() && name !in clients && client !in clients.Values
      requires client.Valid() && client.pending == map[]
      modifies this`clients
      ensures Valid() && clients == old(clients)[name := client]
      ensures Cache() == old(Cache())[name := StateOfClient(client)]
    {
      AddReady(clients, name, client);
      CacheOfAdd(clients, name, client);
      clients := clients[name := client];
    }

    /** The child `get_client` uses: the registered one, or the one started
        from the configured record when that record is not empty. */
    method EnsureProcess(name: string, host: Host) returns (found: bool)
      requires manager.Valid()
      modifies manager
      ensures manager.Valid() && found == (name in manager.processes)
      ensures old(name in manager.processes) ==>
                manager.processes == old(manager.processes) && manager.order == old(manager.order)
                && manager.disk == old(manager.disk)
      ensures !old(name in manager.processes) && !Truthy(JObj(Lookup(old(manager.LoadConfig()).servers, name).GetOr([]))) ==>
                !found && manager.disk == old(manager.disk)
      ensures var rec := Lookup(old(manager.LoadConfig()).servers, name);
              !old(name in manager.processes) && rec.Some? && rec.value != [] ==>
                manager.disk == Some(Config(Put(old(manager.LoadConfig()).servers, name, StartedRecord(rec.value, rec.value))))
                && manager.Launched(name, rec.value, host.system, host.spawns(name), false,
                                    old(manager.processes), old(manager.order))
    {
      if name !in manager.processes {
        var info := Lookup(manager.LoadConfig().servers, name);
        if info.Some? && info.value != [] {
          manager.StartServer(name, info.value, host.system, host.spawns(name));
        }
      }
      found := name in manager.processes;
    }

    /** A new client for a running child: started, then `initialize` (whose
        failure is ignored) and, after a success, the initialized notification. */
    static method Handshake(proc: McpProcess, name: string, host: Host) returns (client: StdioRpcClient)
      requires proc.hasHandle
      ensures fresh(client) && client.Valid() && client.pending == map[] && client.proc == proc
      ensures StateOfClient(client) == Handshaken(name, host)
      ensures client.sent != [] && client.sent[0] == Line(RequestFrame(client.requestId, "initialize", Some(InitializeParams())))
    {
      client := new StdioRpcClient(proc);
      var started := client.Start();
      ghost var st := StateOfClient(client);
      assert st == ClientState(true, true, 0);
      var init := client.Call("initialize", Some(InitializeParams()), host.replies(name, "initialize"),
                              host.eof(name, "initialize"), host.decode, map[]);
      CallOnState(st, name, "initialize", host, client.requestId, init, client.isRunning);
      ghost var first := client.sent;
      assert first == [Line(RequestFrame(client.requestId, "initialize", Some(InitializeParams())))];
      if init.Ok? {
        var _ := client.Notify("notifications/initialized", None);
      }
      assert client.sent[0] == first[0];
    }

    /** `await client.call("tools/list")` on `name`'s client. */
    method FetchTools(name: string, host: Host) returns (r: Result<Json>)
      requires Valid() && name in manager.processes
      modifies this`clients, manager, if name in clients then {clients[name]} else {}
      ensures Valid()
      ensures manager.processes == old(manager.processes) && manager.order == old(manager.order)
      ensures manager.disk == old(manager.disk)
      ensures name in clients && (old(name in clients) ==> clients == old(clients))
      ensures forall n :: n in clients ==> clients[n] in old(clients.Values) || fresh(clients[n])
      ensures r == AnswerFrom(Begin(old(Cache()), name, host), name, "tools/list", host)
      ensures Cache() == old(Cache())[name := AfterCall(Begin(old(Cache()), name, host), name, "tools/list", host)]
    {
      ghost var before := Cache();
      var c := ClientOf(name, host);
      ghost var st := Cache()[name];
      assert st == Begin(before, name, host);
      r := Ask(name, c.value, "tools/list", None, host, Cache());
      Overwrite(before, name, st, AfterCall(st, name, "tools/list", host));
    }

    /** `await client.call(method, params)` on the cached client of `name`,
        answered with what the host's child prints for that method, in terms
        of the cached states: that client is one call further and every
        other one is as it was. */
    method Ask(name: string, client: StdioRpcClient, rpcMethod: string, params: Option<Json>, host: Host,
               ghost cache: map<string, ClientState>)
      returns (r: Result<Json>)
      requires Valid() && name in clients && clients[name] == client && Cache() == cache
      modifies client
      ensures Valid()
      ensures r == AnswerFrom(cache[name], name, rpcMethod, host)
      ensures Cache() == cache[name := AfterCall(cache[name], name, rpcMethod, host)]
      ensures client.proc.hasHandle ==>
                client.sent == old(client.sent) + [Line(RequestFrame(client.requestId, rpcMethod, params))]
      ensures !client.proc.hasHandle ==> client.sent == old(client.sent)
      ensures LastSent(clients, name, rpcMethod, params)
    {
      assert cache[name] == StateOfClient(client);
      r := Request(name, client, rpcMethod, params, host);
      forall n | n in clients && n != name
        ensures StateOfClient(clients[n]) == old(StateOfClient(clients[n]))
      {
        assert clients[n] != client;
      }
    }

    /** The same call on the client alone. */
    method Request(name: string, client: StdioRpcClient, rpcMethod: string, params: Option<Json>, host: Host)
      returns (r: Result<Json>)
      requires Valid() && name in clients && clients[name] == client
      modifies client
      ensures Valid() && client.requestId == old(client.requestId) + 1
      ensures r == AnswerFrom(old(StateOfClient(client)), name, rpcMethod, host)
      ensures StateOfClient(client) == AfterCall(old(StateOfClient(client)), name, rpcMethod, host)
      ensures client.proc.hasHandle ==>
                client.sent == old(client.sent) + [Line(RequestFrame(client.requestId, rpcMethod, params))]
      ensures !client.proc.hasHandle ==> client.sent == old(client.sent)
    {
      assert client.pending.Values == {};
      assert StatesOf(client.pending) == map[];
      ghost var st := StateOfClient(client);
      r := client.Call(rpcMethod, params, host.replies(name, rpcMethod), host.eof(name, rpcMethod), host.decode, map[]);
      forall n | n in clients
        ensures clients[n].Valid() && clients[n].pending == map[]
      {
      }
      if client.proc.hasHandle {
        CallOnState(st, name, rpcMethod, host, client.requestId, r, client.isRunning);
      }
    }

    /** `list_tools`: every running server's tools, tagged with the server,
        in the order of the process table; a server whose lookup or call
        fails contributes nothing. Each server is asked from the state its
        client was in before, and is left one call further. */
    method ListTools(host: Host) returns (tools: seq<Json>)
      requires Valid()
      modifies this`clients, manager, clients.Values
      ensures Valid()
      ensures manager.processes == old(manager.processes) && manager.order == old(manager.order)
      ensures manager.disk == old(manager.disk)
      ensures tools == Catalog(old(Cache()), old(manager.order), host)
      ensures Cache() == ListPass(old(Cache()), old(manager.order), host)
      ensures forall n :: n in clients ==> clients[n] in old(clients.Values) || fresh(clients[n])
    {
      var names := manager.order;
      ghost var pre := Cache();
      ghost var results: seq<Result<Json>> := [];
      tools := [];
      var i := 0;
      while i < |names|
        invariant 0 <= i <= |names|
        invariant Valid()
        invariant manager.processes == old(manager.processes) && manager.order == names
        invariant manager.disk == old(manager.disk)
        invariant results == ListAnswers(pre, names[..i], host) && tools == Merge(names[..i], results)
        invariant Cache() == ListPass(pre, names[..i], host)
        invariant forall n :: n in clients ==> clients[n] in old(clients.Values) || fresh(clients[n])
      {
        tools, results := ListRound(names, i, tools, results, pre, host);
        i := i + 1;
      }
      assert names[..i] == names;
    }

    /** One round of `list_tools`' loop: the tools of `names[i]`, asked from
        the state that server was in before the loop, are merged into the
        catalog of the servers before it. */
    method ListRound(names: seq<string>, i: nat, tools: seq<Json>, ghost results: seq<Result<Json>>,
                     ghost pre: map<string, ClientState>, host: Host)
      returns (tools': seq<Json>, ghost results': seq<Result<Json>>)
      requires Valid() && manager.order == names && i < |names|
      requires results == ListAnswers(pre, names[..i], host) && tools == Merge(names[..i], results)
      requires Cache() == ListPass(pre, names[..i], host)
      modifies this`clients, manager, if names[i] in clients then {clients[names[i]]} else {}
      ensures Valid()
      ensures manager.processes == old(manager.processes) && manager.order == names
      ensures manager.disk == old(manager.disk)
      ensures results' == ListAnswers(pre, names[..i + 1], host) && tools' == Merge(names[..i + 1], results')
      ensures Cache() == ListPass(pre, names[..i + 1], host)
      ensures forall n :: n in clients ==> clients[n] in old(clients.Values) || fresh(clients[n])
    {
      ListStep(pre, names, i, host);
      var r := FetchTools(names[i], host);
      MergeSnoc(names[..i], results, names[i], r);
      tools' := tools + Tagged(names[i], r);
      results' := results + [r];
    }

    /** REST `call_tool`: 400 without a server name; otherwise the owner's
        answer, every failure on the way becoming 500 with its message. */
    method CallTool(toolName: string, payload: Dict<string, Json>, host: Host) returns (reply: HttpReply)
      requires Valid()
      modifies this`clients, manager, clients.Values
      ensures Valid()
      ensures !Truthy(Lookup(payload, "server_name").GetOr(JNull)) ==>
                reply == HttpError(400, "server_name required") && clients == old(clients)
                && manager.disk == old(manager.disk)
      ensures reply.HttpError? && reply.status != 400 ==> reply.status == 500
      ensures var server := Lookup(payload, "server_name").GetOr(JNull);
              Truthy(server) && !server.JStr? ==> reply == HttpError(500, NameFailure(server))
      ensures var server := Lookup(payload, "server_name").GetOr(JNull);
              var served := server.JStr? && server.s in clients;
              Truthy(server) ==> reply == Reply500(Called(server, served, old(Cache()), host))
    {
      var server := Lookup(payload, "server_name").GetOr(JNull);
      if !Truthy(server) {
        return HttpError(400, "server_name required");
      }
      var arguments := Lookup(payload, "arguments").GetOr(JObj([]));
      var r := CallServer(server, JStr(toolName), arguments, host);
      reply := Reply500(r);
    }

    /** `handle_sse`: a new queue is registered and the first event names
        the endpoint to post messages to. */
    method HandleSse(baseUrl: string) returns (q: SseQueue, endpoint: SseEvent)
      requires Valid()
      modifies this`queues
      ensures Valid() && fresh(q) && queues == old(queues) + [q]
      ensures endpoint == SseEvent("endpoint", MessagesUrl(baseUrl))
    {
      q := new SseQueue();
      queues := queues + [q];
      endpoint := SseEvent("endpoint", MessagesUrl(baseUrl));
    }

    /** One step of the event stream: the oldest queued message, as JSON text. */
    method NextEvent(q: SseQueue) returns (e: Option<SseEvent>)
      modifies q
      ensures old(q.items) == [] ==> e.None? && q.items == []
      ensures old(q.items) != [] ==>
                e == Some(SseEvent("message", Render(old(q.items)[0]))) && q.items == old(q.items)[1..]
    {
      if q.items == [] {
        return None;
      }
      e := Some(SseEvent("message", Render(q.items[0])));
      q.items := q.items[1..];
    }

    /** The end of an event stream: its queue is unregistered
        (`sse_queues.remove(queue)`); the other queues keep their order. */
    method CloseSse(q: SseQueue)
      requires Valid()
      modifies this`queues
      ensures Valid() && q !in queues
      ensures q in old(queues) ==>
                exists k :: 0 <= k < |old(queues)| && old(queues)[k] == q
                            && queues == old(queues)[..k] + old(queues)[k + 1..]
      ensures q !in old(queues) ==> queues == old(queues)
    {
      var k := 0;
      while k < |queues| && queues[k] != q
        invariant 0 <= k <= |queues|
        invariant forall j :: 0 <= j < k ==> queues[j] != q
      {
        k := k + 1;
      }
      if k < |queues| {
        var rest := queues[..k] + queues[k + 1..];
        forall i, j | 0 <= i < j < |rest|
          ensures rest[i] != rest[j]
        {
          var i' := if i < k then i else i + 1;
          var j' := if j < k then j else j + 1;
          assert rest[i] == queues[i'] && rest[j] == queues[j'];
        }
        forall i | 0 <= i < |rest|
          ensures rest[i] != q
        {
          assert rest[i] == queues[if i < k then i else i + 1];
        }
        queues := rest;
      }
    }

    /** Puts a response on every registered queue, once each. */
    method Broadcast(response: Json)
      requires Valid()
      modifies set q | q in queues
      ensures Valid()
      ensures forall i :: 0 <= i < |queues| ==> queues[i].items == old(queues[i].items) + [response]
    {
      var i := 0;
      while i < |queues|
        invariant 0 <= i <= |queues|
        invariant forall j :: 0 <= j < i ==> queues[j].items == old(queues[j].items) + [response]
        invariant forall j :: i <= j < |queues| ==> queues[j].items == old(queues[j].items)
      {
        queues[i].items := queues[i].items + [response];
        i := i + 1;
      }
    }

    /** `handle_messages`: 400 for a body that is not JSON; otherwise the
        response `Respond` describes is broadcast to every queue and the
        request is acknowledged. `catalog` and `called` are what the
        catalog and the owner's call produced. */
    method HandleMessages(message: Option<Json>, host: Host)
      returns (reply: HttpReply, response: Option<Json>, catalog: seq<Json>, called: Result<Json>)
      requires Valid()
      modifies this`clients, manager, clients.Values, set q | q in queues
      ensures Valid()
      ensures message.None? ==> reply == HttpError(400, "Invalid JSON") && response.None?
      ensures message.Some? && message.value.JObj? && reply.Body? ==>
                reply == Body(Status("accepted"))
                && response == Respond(GetOrNull(message.value, "method"), GetOrNull(message.value, "id"), catalog,
                                       GetOrNull(Get(message.value, "params").GetOr(JObj([])), "name"), called)
      ensures reply.Body? && response.Some? ==>
                forall i :: 0 <= i < |queues| ==> queues[i].items == old(queues[i].items) + [response.value]
      ensures reply.Body? && response.None? ==>
                forall i :: 0 <= i < |queues| ==> queues[i].items == old(queues[i].items)
      ensures message.Some? && message.value.JObj? &&
              GetOrNull(message.value, "method") !in {JStr("tools/list"), JStr("tools/call")} ==>
                reply.Body? && clients == old(clients)
      ensures reply.HttpError? ==> response.None? && reply.status in {400, 500}
      ensures message.Some? ==>
                (reply.HttpError? <==>
                 !message.value.JObj? || (GetOrNull(message.value, "method") == JStr("tools/call")
                                          && !Get(message.value, "params").GetOr(JObj([])).JObj?))
      ensures message.Some? && message.value.JObj? && reply.Body? &&
              GetOrNull(message.value, "method") in {JStr("tools/list"), JStr("tools/call")} ==>
                catalog == Catalog(old(Cache()), old(manager.order), host)
      ensures message.Some? && message.value.JObj? && reply.Body? &&
              GetOrNull(message.value, "method") == JStr("tools/call") ==>
                var owner := FindOwner(catalog, GetOrNull(Get(message.value, "params").GetOr(JObj([])), "name"));
                var server := owner.GetOr(JNull);
                var served := server.JStr? && server.s in clients;
                OwnerCalled(called, owner, Called(server, served, ListPass(old(Cache()), old(manager.order), host), host))
    {
      catalog := [];
      called := Err("");
      response := None;
      if message.None? {
        return HttpError(400, "Invalid JSON"), None, catalog, called;
      }
      var msg := message.value;
      if !msg.JObj? {
        return HttpError(500, "Internal Server Error"), None, catalog, called;
      }
      var rpcMethod := GetOrNull(msg, "method");
      var id := GetOrNull(msg, "id");
      var params := Get(msg, "params").GetOr(JObj([]));
      var toolName := GetOrNull(params, "name");
      var ok;
      ok, catalog, called := Dispatch(rpcMethod, params, host);
      if !ok {
        return HttpError(500, "Internal Server Error"), None, catalog, called;
      }
      response := Respond(rpcMethod, id, catalog, toolName, called);
      if response.Some? {
        Broadcast(response.value);
      }
      reply := Body(Status("accepted"));
    }

    /** The work of the dispatcher before its response: the catalog for
        `tools/list` and `tools/call`, and the owner's call for the latter,
        whose parameters must be an object (`ok` is false otherwise). */
    method Dispatch(rpcMethod: Json, params: Json, host: Host)
      returns (ok: bool, catalog: seq<Json>, called: Result<Json>)
      requires Valid()
      modifies this`clients, manager, clients.Values
      ensures Valid()
      ensures forall q :: q in queues ==> q.items == old(q.items)
      ensures ok <==> !(rpcMethod == JStr("tools/call") && !params.JObj?)
      ensures rpcMethod == JStr("tools/list") ==>
                catalog == Catalog(old(Cache()), old(manager.order), host) && called == Err("")
      ensures rpcMethod == JStr("tools/call") && ok ==>
                catalog == Catalog(old(Cache()), old(manager.order), host)
                && var owner := FindOwner(catalog, GetOrNull(params, "name"));
                   var server := owner.GetOr(JNull);
                   var served := server.JStr? && server.s in clients;
                   OwnerCalled(called, owner, Called(server, served, ListPass(old(Cache()), old(manager.order), host), host))
      ensures rpcMethod !in {JStr("tools/list"), JStr("tools/call")} ==>
                ok && catalog == [] && called == Err("") && clients == old(clients)
    {
      ok := true;
      catalog := [];
      called := Err("");
      if rpcMethod == JStr("tools/list") {
        catalog, called := ListCatalog(host);
      } else if rpcMethod == JStr("tools/call") {
        if !params.JObj? {
          return false, catalog, called;
        }
        catalog, called := CallOwner(GetOrNull(params, "name"), Get(params, "arguments").GetOr(JObj([])), host);
      }
    }

    /** The `tools/list` branch of the dispatcher. */
    method ListCatalog(host: Host) returns (catalog: seq<Json>, called: Result<Json>)
      requires Valid()
      modifies this`clients, manager, clients.Values
      ensures Valid()
      ensures catalog == Catalog(old(Cache()), old(manager.order), host) && called == Err("")
    {
      catalog := ListTools(host);
      called := Err("");
    }

    /** The `tools/call` branch of the dispatcher: the catalog, then the call
        to the owner of the tool, if the catalog names a truthy one. */
    method CallOwner(toolName: Json, arguments: Json, host: Host)
      returns (catalog: seq<Json>, called: Result<Json>)
      requires Valid()
      modifies this`clients, manager, clients.Values
      ensures Valid()
      ensures catalog == Catalog(old(Cache()), old(manager.order), host)
      ensures var owner := FindOwner(catalog, toolName);
              var server := owner.GetOr(JNull);
              var served := server.JStr? && server.s in clients;
              OwnerCalled(called, owner, Called(server, served, ListPass(old(Cache()), old(manager.order), host), host))
    {
      ghost var listed := ListPass(Cache(), manager.order, host);
      catalog := ListTools(host);
      assert Cache() == listed;
      var owner := FindOwner(catalog, toolName);
      called := Err("");
      if owner.Some? && Truthy(owner.value) {
        called := CallServer(owner.value, toolName, arguments, host);
      }
    }

    /** `get_client(server)` and the `tools/call` request to it; a failure
        becomes its message (the 404 as `str()` of the exception). */
    method CallServer(server: Json, toolName: Json, arguments: Json, host: Host) returns (called: Result<Json>)
      requires Valid()
      modifies this`clients, manager, clients.Values
      ensures Valid()
      ensures forall n :: n in clients ==> clients[n] in old(clients.Values) || fresh(clients[n])
      ensures !server.JStr? ==> called == Err(NameFailure(server)) && clients == old(clients)
      ensures server.JStr? ==> (server.s in clients <==> old(server.s in clients) || server.s in manager.processes)
      ensures var served := server.JStr? && server.s in clients;
              called == Called(server, served, old(Cache()), host)
      ensures Cache() == if server.JStr? then CallStep(old(Cache()), server.s, server.s in clients, host) else old(Cache())
      ensures server.JStr? ==>
                LastSent(clients, server.s, "tools/call", Some(JObj([("name", toolName), ("arguments", arguments)])))
    {
      if !server.JStr? {
        return Err(NameFailure(server));
      }
      var name := server.s;
      assert server == JStr(name);
      called := CallNamed(name, toolName, arguments, host);
    }

    /** `get_client(name)` and the `tools/call` request to it, for a server
        named by a string. */
    method CallNamed(name: string, toolName: Json, arguments: Json, host: Host) returns (called: Result<Json>)
      requires Valid()
      modifies this`clients, manager, clients.Values
      ensures Valid()
      ensures forall n :: n in clients ==> clients[n] in old(clients.Values) || fresh(clients[n])
      ensures name in clients <==> old(name in clients) || name in manager.processes
      ensures called == Called(JStr(name), name in clients, old(Cache()), host)
      ensures Cache() == CallStep(old(Cache()), name, name in clients, host)
      ensures LastSent(clients, name, "tools/call", Some(JObj([("name", toolName), ("arguments", arguments)])))
    {
      ghost var before := Cache();
      var c := ClientOf(name, host);
      if c.None? {
        return Err(NameFailure(JStr(name)));
      }
      ghost var st := Cache()[name];
      assert st == Begin(before, name, host);
      called := Ask(name, c.value, "tools/call", Some(JObj([("name", toolName), ("arguments", arguments)])), host, Cache());
      Overwrite(before, name, st, AfterCall(st, name, "tools/call", host));
    }

    /** `GET /server/state` */
    method ServerState() returns (body: Json)
      ensures body == JObj([("last_active_servers", Strings(ActiveNames(manager.LoadConfig().servers)))])
    {
      var active := manager.GetLastActiveServers();
      body := JObj([("last_active_servers", Strings(active))]);
    }

    /** `POST /server/{name}/start`: 404 without a (non-empty) record; the
        client cache is not consulted. */
    method StartRoute(name: string, host: Host) returns (reply: HttpReply)
      requires Valid()
      modifies manager
      ensures Valid() && clients == old(clients)
      ensures var rec := Lookup(old(manager.LoadConfig()).servers, name);
              if rec.None? || rec.value == [] then
                reply == HttpError(404, "Server config not found") && manager.disk == old(manager.disk)
                && manager.processes == old(manager.processes) && manager.order == old(manager.order)
              else
                reply == Body(Status("started"))
                && manager.disk == Some(Config(Put(old(manager.LoadConfig()).servers, name,
                                                   StartedRecord(rec.value, rec.value))))
                && manager.Launched(name, rec.value, host.system, host.spawns(name),
                                    old(manager.Serving(name)), old(manager.processes), old(manager.order))
    {
      var rec := Lookup(manager.LoadConfig().servers, name);
      if rec.None? || rec.value == [] {
        return HttpError(404, "Server config not found");
      }
      manager.StartServer(name, rec.value, host.system, host.spawns(name));
      reply := Body(Status("started"));
    }

    /** `POST /server/{name}/stop`: the child is stopped, but a client cached
        for it stays in the cache and is what later lookups return. */
    method StopRoute(name: string) returns (reply: HttpReply)
      requires Valid()
      modifies manager, manager.Named(name)
      ensures Valid() && clients == old(clients) && reply == Body(Status("stopped"))
      ensures manager.disk == StoppedDisk(old(manager.disk), name)
      ensures manager.processes == old(manager.processes) - {name} && manager.order == Without(old(manager.order), name)
      ensures name in old(manager.processes) ==> !old(manager.processes)[name].isRunning
      ensures forall p :: p in old(manager.processes.Values) ==> p in manager.processes.Values || !p.isRunning
    {
      manager.StopServer(name);
      reply := Body(Status("stopped"));
    }

    /** `list_skills`: one entry per `.py` file of the directory listing. */
    method ListSkills(files: seq<string>) returns (body: Json)
      ensures body == JObj([("skills", JArr(SkillEntries(files)))])
    {
      var skills := [];
      var i := 0;
      while i < |files|
        invariant 0 <= i <= |files|
        invariant skills + SkillEntries(files[i..]) == SkillEntries(files)
      {
        assert files[i..][1..] == files[i + 1..];
        var f := files[i];
        if EndsWith(f, ".py") {
          skills := skills + [JObj([("name", JStr(f[..|f| - 3])), ("filename", JStr(f))])];
        }
        i := i + 1;
      }
      assert files[i..] == [] && SkillEntries(files[i..]) == [];
      assert skills == SkillEntries(files);
      body := JObj([("skills", JArr(skills))]);
    }
  }
}
