/** The standard-streams bridge (`ps-mcp-bridge.py`): an MCP server on its own
    stdin/stdout that answers `initialize` itself and forwards `tools/list` and
    `tools/call` to the gateway's REST routes. The lines read are a sequence,
    JSON parsing of a line is a parameter, and every HTTP exchange with the
    gateway is given by a `Hub` indexed by the input line it serves. */
module Bridge {
  import opened Wrappers
  import opened Text
  import opened Dicts
  import opened JsonValues

  const BaseUrl := "http://localhost:19880/api/v1/mcp"

  /** What one HTTP exchange gives the bridge: a response (whether its status
      is a success, its JSON body, and the text `raise_for_status` raises
      with otherwise), or the text of the exception `requests` raised
      (no connection, a body that is not JSON). */
  datatype Exchange = Response(ok: bool, body: Json, statusError: string) | Failure(message: string)

  /** A POST the bridge makes: its URL and JSON payload. */
  datatype Post = Post(url: string, payload: Json)

  /** The gateway's answers to the GET of the catalog and to a POST, made while
      handling input line number `n`. */
  datatype Hub = Hub(listing: nat -> Exchange, calling: (nat, Post) -> Exchange)

  /** What handling input lines wrote to stdout and posted to the gateway. */
  datatype Step = Step(out: seq<string>, posts: seq<Post>)

  /** The object `rpc_response` prints. */
  function ResponseFrame(id: Json, result: Json): Json {
    JObj([("jsonrpc", JStr("2.0")), ("id", id), ("result", result)])
  }

  /** The object `rpc_error` prints. */
  function ErrorFrame(id: Json, code: int, message: string): Json {
    JObj([("jsonrpc", JStr("2.0")), ("id", id),
          ("error", JObj([("code", JNum(code)), ("message", JStr(message))]))])
  }

  /** A response carries the version, the request's id and the result; an error
      the version, the id, the code and the message, and no result. */
  lemma FrameFields(id: Json, result: Json, code: int, message: string)
    ensures Get(ResponseFrame(id, result), "jsonrpc") == Some(JStr("2.0"))
    ensures Get(ResponseFrame(id, result), "id") == Some(id)
    ensures Get(ResponseFrame(id, result), "result") == Some(result)
    ensures Get(ErrorFrame(id, code, message), "jsonrpc") == Some(JStr("2.0"))
    ensures Get(ErrorFrame(id, code, message), "id") == Some(id)
    ensures Get(GetOrNull(ErrorFrame(id, code, message), "error"), "code") == Some(JNum(code))
    ensures Get(GetOrNull(ErrorFrame(id, code, message), "error"), "message") == Some(JStr(message))
    ensures Get(ErrorFrame(id, code, message), "result") == None
  {
    var r := [("jsonrpc", JStr("2.0")), ("id", id), ("result", result)];
    LookupEntry(r, 0);
    LookupEntry(r, 1);
    LookupEntry(r, 2);
    var e := [("code", JNum(code)), ("message", JStr(message))];
    var f := [("jsonrpc", JStr("2.0")), ("id", id), ("error", JObj(e))];
    LookupEntry(f, 0);
    LookupEntry(f, 1);
    LookupEntry(f, 2);
    LookupEntry(e, 0);
    LookupEntry(e, 1);
    HasKeyIndex(f, "result");
  }

  /** The capability result `initialize` is answered with. */
  function InitializeResult(): Json {
    JObj([("protocolVersion", JStr("2024-11-05")),
          ("capabilities", JObj([("tools", JObj([("listChanged", JBool(true))]))])),
          ("serverInfo", JObj([("name", JStr("PromptStudio-Bridge")), ("version", JStr("1.0.0"))]))])
  }

  /** The values `for t in value` visits: a list's items, a dict's keys, a
      string's characters; `None`, booleans and numbers are not iterable. */
  function Iterate(v: Json): Result<seq<Json>> {
    match v
    case JArr(items) => Ok(items)
    case JObj(fields) => Ok(seq(|fields|, i requires 0 <= i < |fields| => JStr(fields[i].0)))
    case JStr(s) => Ok(seq(|s|, i requires 0 <= i < |s| => JStr([s[i]])))
    case _ => Err("'" + PyTypeName(v) + "' object is not iterable")
  }

  /** `res.json().get("tools", [])`, iterated. */
  function ToolsOf(body: Json): Result<seq<Json>> {
    if body.JObj? then Iterate(Lookup(body.fields, "tools").GetOr(JArr([])))
    else Err(NoAttribute(body, "get"))
  }

  /** A tool list that is a list is iterated item by item. */
  lemma ToolsOfList(tools: seq<Json>)
    ensures ToolsOf(JObj([("tools", JArr(tools))])) == Ok(tools)
  {
  }

  /** One tool after `t.copy()` and `del t_copy["_server_name"]`: a dict loses
      that key; a list is copied as it is unless it holds that string, when
      the `del` fails; nothing else has `copy`. */
  function CleanTool(t: Json): (r: Result<Json>) {
    match t
    case JObj(fields) => Ok(JObj(Remove(fields, "_server_name")))
    case JArr(items) =>
      if JStr("_server_name") in items then Err("list indices must be integers or slices, not str")
      else Ok(t)
    case _ => Err(NoAttribute(t, "copy"))
  }

  /** A cleaned dict has every field of the tool except `_server_name`. */
  lemma CleanToolFields(fields: Dict<string, Json>, k: string)
    ensures CleanTool(JObj(fields)).Ok? && CleanTool(JObj(fields)).value.JObj?
    ensures Lookup(CleanTool(JObj(fields)).value.fields, k) ==
            if k == "_server_name" then None else Lookup(fields, k)
  {
    LookupRemove(fields, "_server_name", k);
  }

  /** The `for` loop of the listing: every tool cleaned, in order, or the
      first failure. */
  function CleanTools(tools: seq<Json>): Result<seq<Json>> {
    if tools == [] then Ok([])
    else match CleanTool(tools[0])
      case Err(m) => Err(m)
      case Ok(t) =>
        match CleanTools(tools[1..])
        case Err(m) => Err(m)
        case Ok(rest) => Ok([t] + rest)
  }

  /** The loop succeeds exactly when every tool can be cleaned, and then keeps
      the number and order of the tools; otherwise it fails with the first
      tool's failure. */
  lemma {:induction false} CleanToolsMeaning(tools: seq<Json>)
    ensures CleanTools(tools).Ok? <==> forall i :: 0 <= i < |tools| ==> CleanTool(tools[i]).Ok?
    ensures CleanTools(tools).Ok? ==>
              |CleanTools(tools).value| == |tools| &&
              forall i :: 0 <= i < |tools| ==> CleanTools(tools).value[i] == CleanTool(tools[i]).value
    ensures CleanTools(tools).Err? ==>
              exists k :: 0 <= k < |tools| && CleanTool(tools[k]) == Err(CleanTools(tools).error) &&
                          forall i :: 0 <= i < k ==> CleanTool(tools[i]).Ok?
  {
    if tools != [] {
      CleanToolsMeaning(tools[1..]);
      assert forall i :: 1 <= i < |tools| ==> tools[i] == tools[1..][i - 1];
      if CleanTool(tools[0]).Ok? && CleanTools(tools[1..]).Err? {
        var k :| 0 <= k < |tools[1..]| && CleanTool(tools[1..][k]) == Err(CleanTools(tools[1..]).error) &&
                 forall i :: 0 <= i < k ==> CleanTool(tools[1..][i]).Ok?;
        assert CleanTool(tools[k + 1]) == Err(CleanTools(tools).error);
        assert forall i :: 1 <= i < k + 1 ==> CleanTool(tools[i]).Ok? by {
          forall i | 1 <= i < k + 1 ensures CleanTool(tools[i]).Ok? {
            assert CleanTool(tools[1..][i - 1]).Ok?;
          }
        }
      } else if CleanTool(tools[0]).Err? {
        assert CleanTool(tools[0]) == Err(CleanTools(tools).error);
      }
    }
  }

  /** The listing of objects only: every tool keeps its position and loses
      exactly its `_server_name`. */
  lemma CleanToolsOfObjects(tools: seq<Json>, i: nat, k: string)
    requires forall j :: 0 <= j < |tools| ==> tools[j].JObj?
    requires i < |tools|
    ensures CleanTools(tools).Ok? && |CleanTools(tools).value| == |tools|
    ensures CleanTools(tools).value[i].JObj?
    ensures Lookup(CleanTools(tools).value[i].fields, k) ==
            if k == "_server_name" then None else Lookup(tools[i].fields, k)
  {
    CleanToolsMeaning(tools);
    assert tools[i] == JObj(tools[i].fields);
    CleanToolFields(tools[i].fields, k);
  }

  /** The line `handle_list_tools` prints for the catalog exchange `ex`. */
  function ListToolsLine(id: Json, ex: Exchange): string {
    match ex
    case Failure(m) => Line(ErrorFrame(id, -32603, m))
    case Response(ok, body, statusError) =>
      if !ok then Line(ErrorFrame(id, -32603, statusError))
      else match ToolsOf(body)
        case Err(m) => Line(ErrorFrame(id, -32603, m))
        case Ok(tools) =>
          match CleanTools(tools)
          case Err(m) => Line(ErrorFrame(id, -32603, m))
          case Ok(clean) => Line(ResponseFrame(id, JObj([("tools", JArr(clean))])))
  }

  /** `handle_list_tools`'s loop building `clean_tools`. */
  method StripTools(tools: seq<Json>) returns (r: Result<seq<Json>>)
    ensures r == CleanTools(tools)
  {
    var clean: seq<Json> := [];
    var i := 0;
    while i < |tools|
      invariant 0 <= i <= |tools|
      invariant CleanTools(tools[..i]) == Ok(clean)
    {
      var t := CleanTool(tools[i]);
      if t.Err? {
        CleanToolsFirstErr(tools, i);
        return Err(t.error);
      }
      CleanToolsSnoc(tools[..i], tools[i]);
      assert tools[..i + 1] == tools[..i] + [tools[i]];
      clean := clean + [t.value];
      i := i + 1;
    }
    assert tools[..i] == tools;
    r := Ok(clean);
  }

  /** Cleaning stops at the first tool that cannot be cleaned. */
  lemma {:induction false} CleanToolsFirstErr(tools: seq<Json>, i: nat)
    requires i < |tools| && CleanTools(tools[..i]).Ok? && CleanTool(tools[i]).Err?
    ensures CleanTools(tools) == Err(CleanTool(tools[i]).error)
  {
    if i > 0 {
      assert tools[..i][0] == tools[0];
      assert tools[..i][1..] == tools[1..][..i - 1];
      assert tools[1..][i - 1] == tools[i];
      CleanToolsFirstErr(tools[1..], i - 1);
    }
  }

  /** Cleaning one more tool at the end of a cleanable list. */
  lemma {:induction false} CleanToolsSnoc(tools: seq<Json>, t: Json)
    requires CleanTools(tools).Ok? && CleanTool(t).Ok?
    ensures CleanTools(tools + [t]) == Ok(CleanTools(tools).value + [CleanTool(t).value])
  {
    var x := CleanTool(t).value;
    if tools != [] {
      assert (tools + [t])[0] == tools[0] && (tools + [t])[1..] == tools[1..] + [t];
      CleanToolsSnoc(tools[1..], t);
      var head := CleanTool(tools[0]).value;
      assert [head] + (CleanTools(tools[1..]).value + [x]) == ([head] + CleanTools(tools[1..]).value) + [x];
    } else {
      assert tools + [t] == [t] && [t][1..] == [];
      assert [x] + [] == [x] && CleanTools(tools).value + [x] == [x];
    }
  }

  /** `handle_list_tools`: one frame; a failed request, an error status or a
      body without an iterable tool list is the error -32603 with the
      failure's text, and a list of tool objects is answered with those
      tools in order, each without `_server_name`. */
  method ListTools(id: Json, ex: Exchange) returns (line: string)
    ensures line == ListToolsLine(id, ex) && IsFrame(line)
    ensures ex.Failure? ==> line == Line(ErrorFrame(id, -32603, ex.message))
    ensures ex.Response? && !ex.ok ==> line == Line(ErrorFrame(id, -32603, ex.statusError))
    ensures ex.Response? && ex.ok && ToolsOf(ex.body).Err? ==>
              line == Line(ErrorFrame(id, -32603, ToolsOf(ex.body).error))
    ensures ex.Response? && ex.ok && ToolsOf(ex.body).Ok? ==>
              var tools := ToolsOf(ex.body).value;
              (forall j :: 0 <= j < |tools| ==> tools[j].JObj?) ==>
                && CleanTools(tools).Ok? && |CleanTools(tools).value| == |tools|
                && line == Line(ResponseFrame(id, JObj([("tools", JArr(CleanTools(tools).value))])))
                && forall j :: 0 <= j < |tools| ==> CleanTools(tools).value[j] == JObj(Remove(tools[j].fields, "_server_name"))
  {
    ListToolsFrame(id, ex);
    if ex.Response? && ex.ok && ToolsOf(ex.body).Ok? {
      var tools := ToolsOf(ex.body).value;
      CleanToolsMeaning(tools);
      forall j | 0 <= j < |tools| && tools[j].JObj?
        ensures CleanTool(tools[j]) == Ok(JObj(Remove(tools[j].fields, "_server_name")))
      {
        assert tools[j] == JObj(tools[j].fields);
      }
    }
    match ex
    case Failure(m) =>
      line := Line(ErrorFrame(id, -32603, m));
    case Response(ok, body, statusError) =>
      if !ok {
        line := Line(ErrorFrame(id, -32603, statusError));
      } else {
        var tools := ToolsOf(body);
        if tools.Err? {
          line := Line(ErrorFrame(id, -32603, tools.error));
        } else {
          var clean := StripTools(tools.value);
          if clean.Err? {
            line := Line(ErrorFrame(id, -32603, clean.error));
          } else {
            line := Line(ResponseFrame(id, JObj([("tools", JArr(clean.value))])));
          }
        }
      }
  }

  /** Any failure of the listing is the error -32603 with the failure's text. */
  lemma ListToolsFailures(id: Json, ex: Exchange)
    ensures ex.Failure? ==> ListToolsLine(id, ex) == Line(ErrorFrame(id, -32603, ex.message))
    ensures ex.Response? && !ex.ok ==> ListToolsLine(id, ex) == Line(ErrorFrame(id, -32603, ex.statusError))
    ensures ex.Response? && ex.ok && ToolsOf(ex.body).Err? ==>
              ListToolsLine(id, ex) == Line(ErrorFrame(id, -32603, ToolsOf(ex.body).error))
  {
  }

  /** A listing that gets a list of tool objects is answered with exactly
      those tools, in the same order, each without `_server_name` and
      otherwise unchanged. */
  lemma ListToolsOfObjects(id: Json, body: Json, statusError: string, tools: seq<Json>)
    requires body.JObj? && Lookup(body.fields, "tools") == Some(JArr(tools))
    requires forall j :: 0 <= j < |tools| ==> tools[j].JObj?
    ensures CleanTools(tools).Ok? && |CleanTools(tools).value| == |tools|
    ensures ListToolsLine(id, Response(true, body, statusError)) ==
            Line(ResponseFrame(id, JObj([("tools", JArr(CleanTools(tools).value))])))
    ensures forall j :: 0 <= j < |tools| ==> CleanTools(tools).value[j] == JObj(Remove(tools[j].fields, "_server_name"))
  {
    CleanToolsMeaning(tools);
    assert CleanTools(tools).Ok? by {
      forall j | 0 <= j < |tools| ensures CleanTool(tools[j]).Ok? {
        assert tools[j] == JObj(tools[j].fields);
      }
    }
    var clean := CleanTools(tools).value;
    assert ToolsOf(body) == Ok(tools);
    assert ListToolsLine(id, Response(true, body, statusError)) == Line(ResponseFrame(id, JObj([("tools", JArr(clean))])));
    forall j | 0 <= j < |tools|
      ensures clean[j] == JObj(Remove(tools[j].fields, "_server_name"))
    {
      assert tools[j] == JObj(tools[j].fields);
    }
  }

  /** `t['name']` on one tool: a dict's value, `KeyError` when it lacks the
      key, and the `TypeError` of anything else. */
  function NameOf(t: Json): Result<Json> {
    match t
    case JObj(fields) => if HasKey(fields, "name") then Ok(Lookup(fields, "name").value) else Err("'name'")
    case JArr(_) => Err("list indices must be integers or slices, not str")
    case JStr(_) => Err("string indices must be integers, not 'str'")
    case _ => Err("'" + PyTypeName(t) + "' object is not subscriptable")
  }

  /** `next((t for t in tools if t['name'] == name), None)` */
  function FindTarget(tools: seq<Json>, name: Json): Result<Option<Json>> {
    if tools == [] then Ok(None)
    else match NameOf(tools[0])
      case Err(m) => Err(m)
      case Ok(n) => if n == name then Ok(Some(tools[0])) else FindTarget(tools[1..], name)
  }

  /** The first `k` tools have a readable name other than `name`. */
  predicate Unmatched(tools: seq<Json>, k: nat, name: Json)
    requires k <= |tools|
  {
    forall i :: 0 <= i < k ==> NameOf(tools[i]).Ok? && NameOf(tools[i]).value != name
  }

  lemma UnmatchedCons(tools: seq<Json>, k: nat, name: Json)
    requires 0 < |tools| && k < |tools|
    requires NameOf(tools[0]).Ok? && NameOf(tools[0]).value != name && Unmatched(tools[1..], k, name)
    ensures Unmatched(tools, k + 1, name)
  {
    forall i | 1 <= i < k + 1 ensures NameOf(tools[i]).Ok? && NameOf(tools[i]).value != name {
      assert tools[i] == tools[1..][i - 1];
    }
  }

  /** The generator stops at the first tool named `name`. */
  lemma {:induction false} FindTargetFound(tools: seq<Json>, name: Json)
    requires FindTarget(tools, name).Ok? && FindTarget(tools, name).value.Some?
    ensures exists k :: 0 <= k < |tools| && FindTarget(tools, name).value.value == tools[k] &&
                        NameOf(tools[k]) == Ok(name) && Unmatched(tools, k, name)
  {
    if NameOf(tools[0]) != Ok(name) {
      FindTargetFound(tools[1..], name);
      var k :| 0 <= k < |tools[1..]| && FindTarget(tools[1..], name).value.value == tools[1..][k] &&
               NameOf(tools[1..][k]) == Ok(name) && Unmatched(tools[1..], k, name);
      UnmatchedCons(tools, k, name);
      assert tools[k + 1] == tools[1..][k];
    } else {
      assert Unmatched(tools, 0, name);
    }
  }

  /** No tool is found exactly when every tool has a name and none is `name`. */
  lemma {:induction false} FindTargetNone(tools: seq<Json>, name: Json)
    ensures FindTarget(tools, name) == Ok(None) <==> Unmatched(tools, |tools|, name)
  {
    if tools != [] {
      FindTargetNone(tools[1..], name);
      if NameOf(tools[0]).Ok? && NameOf(tools[0]).value != name {
        if Unmatched(tools[1..], |tools[1..]|, name) {
          UnmatchedCons(tools, |tools[1..]|, name);
        }
        if Unmatched(tools, |tools|, name) {
          assert forall i :: 0 <= i < |tools[1..]| ==> tools[1..][i] == tools[i + 1];
        }
      }
    }
  }

  /** The lookup fails with the first tool whose name cannot be read, when
      that comes before any match. */
  lemma {:induction false} FindTargetFails(tools: seq<Json>, name: Json)
    requires FindTarget(tools, name).Err?
    ensures exists k :: 0 <= k < |tools| && NameOf(tools[k]) == Err(FindTarget(tools, name).error) &&
                        Unmatched(tools, k, name)
  {
    if NameOf(tools[0]).Ok? {
      FindTargetFails(tools[1..], name);
      var k :| 0 <= k < |tools[1..]| && NameOf(tools[1..][k]) == Err(FindTarget(tools[1..], name).error) &&
               Unmatched(tools[1..], k, name);
      UnmatchedCons(tools, k, name);
      assert tools[k + 1] == tools[1..][k];
    } else {
      assert Unmatched(tools, 0, name);
    }
  }

  /** The lookup finds the first tool named `name` when every tool before it
      has a readable name. */
  lemma {:induction false} FindTargetFirst(tools: seq<Json>, name: Json, k: nat)
    requires k < |tools| && NameOf(tools[k]) == Ok(name) && Unmatched(tools, k, name)
    ensures FindTarget(tools, name) == Ok(Some(tools[k]))
  {
    if k > 0 {
      assert NameOf(tools[0]).Ok? && NameOf(tools[0]).value != name;
      assert tools[1..][k - 1] == tools[k];
      assert Unmatched(tools[1..], k - 1, name) by {
        forall i | 0 <= i < k - 1 ensures NameOf(tools[1..][i]).Ok? && NameOf(tools[1..][i]).value != name {
          assert tools[1..][i] == tools[i + 1];
        }
      }
      FindTargetFirst(tools[1..], name, k - 1);
    }
  }

  /** The POST that forwards a call of tool `name` to the server `serverName`. */
  function CallPost(name: Json, serverName: Json, args: Json): Post {
    Post(BaseUrl + "/tools/" + PyStr(name) + "/call",
         JObj([("server_name", serverName), ("arguments", args)]))
  }

  /** An answer to one input line: error -32603 with a failure's text. */
  function Internal(id: Json, m: string, posts: seq<Post>): Step {
    Step([Line(ErrorFrame(id, -32603, m))], posts)
  }

  /** `handle_call_tool(msg_id, params)` for input line number `n`. Parameters
      that are no dict make `params.get` raise before the `try`, and the main
      loop swallows that: nothing is printed. */
  function CallTool(n: nat, id: Json, params: Json, hub: Hub): Step {
    if !params.JObj? then Step([], [])
    else
      var name := GetOrNull(params, "name");
      var args := Get(params, "arguments").GetOr(JObj([]));
      match hub.listing(n)
      case Failure(m) => Internal(id, m, [])
      case Response(_, body, _) =>
        match ToolsOf(body)
        case Err(m) => Internal(id, m, [])
        case Ok(tools) =>
          match FindTarget(tools, name)
          case Err(m) => Internal(id, m, [])
          case Ok(target) =>
            if target.None? then Step([Line(ErrorFrame(id, -32601, "Tool " + PyStr(name) + " not found"))], [])
            else
              var post := CallPost(name, GetOrNull(target.value, "_server_name"), args);
              match hub.calling(n, post)
              case Failure(m) => Internal(id, m, [post])
              case Response(ok, result, statusError) =>
                if ok then Step([Line(ResponseFrame(id, result))], [post])
                else Internal(id, statusError, [post])
  }

  /** A failure before any tool is chosen (the catalog request, its body, or
      a tool name that cannot be read) is answered -32603 with the failure's
      text, and nothing is posted. */
  lemma CallToolFailures(n: nat, id: Json, params: Json, hub: Hub)
    requires params.JObj?
    ensures hub.listing(n).Failure? ==> CallTool(n, id, params, hub) == Internal(id, hub.listing(n).message, [])
    ensures hub.listing(n).Response? && ToolsOf(hub.listing(n).body).Err? ==>
              CallTool(n, id, params, hub) == Internal(id, ToolsOf(hub.listing(n).body).error, [])
    ensures hub.listing(n).Response? && ToolsOf(hub.listing(n).body).Ok? &&
            FindTarget(ToolsOf(hub.listing(n).body).value, GetOrNull(params, "name")).Err? ==>
              CallTool(n, id, params, hub) ==
              Internal(id, FindTarget(ToolsOf(hub.listing(n).body).value, GetOrNull(params, "name")).error, [])
  {
  }

  /** A call whose name the catalog's tool `k` is the first to carry posts
      exactly once, to that tool's `_server_name`, with the call's arguments,
      and then relays the gateway's answer, or reports its failure as -32603. */
  lemma CallToolFirstMatch(n: nat, id: Json, params: Json, hub: Hub, tools: seq<Json>, k: nat)
    requires params.JObj? && hub.listing(n).Response? && ToolsOf(hub.listing(n).body) == Ok(tools)
    requires k < |tools| && NameOf(tools[k]) == Ok(GetOrNull(params, "name"))
    requires Unmatched(tools, k, GetOrNull(params, "name"))
    ensures var post := CallPost(GetOrNull(params, "name"), GetOrNull(tools[k], "_server_name"),
                                 Get(params, "arguments").GetOr(JObj([])));
            CallTool(n, id, params, hub).posts == [post]
    ensures var post := CallPost(GetOrNull(params, "name"), GetOrNull(tools[k], "_server_name"),
                                 Get(params, "arguments").GetOr(JObj([])));
            var answer := hub.calling(n, post);
            CallTool(n, id, params, hub).out ==
            if answer.Failure? then [Line(ErrorFrame(id, -32603, answer.message))]
            else if answer.ok then [Line(ResponseFrame(id, answer.body))]
            else [Line(ErrorFrame(id, -32603, answer.statusError))]
  {
    FindTargetFirst(tools, GetOrNull(params, "name"), k);
  }

  /** A call of a tool the catalog does not name is answered with -32601
      "Tool <name> not found" and posts nothing; a call of a named tool posts
      once, to the server of the first tool with that name, with the call's
      arguments (an empty object when absent), and relays the answer or
      reports -32603. */
  lemma CallToolOutcome(n: nat, id: Json, params: Json, hub: Hub, tools: seq<Json>)
    requires params.JObj? && hub.listing(n).Response? && ToolsOf(hub.listing(n).body) == Ok(tools)
    ensures Unmatched(tools, |tools|, GetOrNull(params, "name")) ==>
              CallTool(n, id, params, hub) ==
              Step([Line(ErrorFrame(id, -32601, "Tool " + PyStr(GetOrNull(params, "name")) + " not found"))], [])
    ensures CallTool(n, id, params, hub).posts != [] ==>
              exists k :: 0 <= k < |tools| &&
                NameOf(tools[k]) == Ok(GetOrNull(params, "name")) && Unmatched(tools, k, GetOrNull(params, "name")) &&
                CallTool(n, id, params, hub).posts ==
                [CallPost(GetOrNull(params, "name"), GetOrNull(tools[k], "_server_name"),
                          Get(params, "arguments").GetOr(JObj([])))]
    ensures |CallTool(n, id, params, hub).out| == 1
  {
    var name := GetOrNull(params, "name");
    var args := Get(params, "arguments").GetOr(JObj([]));
    FindTargetNone(tools, name);
    var r := FindTarget(tools, name);
    if r.Ok? && r.value.Some? {
      FindTargetFound(tools, name);
      var k :| 0 <= k < |tools| && r.value.value == tools[k] && NameOf(tools[k]) == Ok(name) && Unmatched(tools, k, name);
      assert CallTool(n, id, params, hub).posts == [CallPost(name, GetOrNull(tools[k], "_server_name"), args)];
    } else {
      assert CallTool(n, id, params, hub).posts == [];
    }
  }

  /** The answer to one line read from stdin, the `n`-th. A line that is not
      JSON, or whose value is no dict, is skipped. */
  function Answer(n: nat, line: string, decode: string -> Option<Json>, hub: Hub): Step {
    match decode(line)
    case None => Step([], [])
    case Some(msg) =>
      if !msg.JObj? then Step([], [])
      else
        var rpcMethod := GetOrNull(msg, "method");
        var id := GetOrNull(msg, "id");
        if rpcMethod == JStr("initialize") then Step([Line(ResponseFrame(id, InitializeResult()))], [])
        else if rpcMethod == JStr("tools/list") then Step([ListToolsLine(id, hub.listing(n))], [])
        else if rpcMethod == JStr("tools/call") then CallTool(n, id, GetOrNull(msg, "params"), hub)
        else Step([], [])
  }

  /** `initialize` is answered with the fixed capabilities; malformed lines,
      `notifications/initialized` and every other method are not answered. */
  lemma AnswerKinds(n: nat, line: string, decode: string -> Option<Json>, hub: Hub)
    ensures decode(line).None? ==> Answer(n, line, decode, hub) == Step([], [])
    ensures decode(line).Some? && Get(decode(line).value, "method") == Some(JStr("initialize")) ==>
              Answer(n, line, decode, hub) ==
              Step([Line(ResponseFrame(GetOrNull(decode(line).value, "id"), InitializeResult()))], [])
    ensures decode(line).Some? && GetOrNull(decode(line).value, "method") !in
              {JStr("initialize"), JStr("tools/list"), JStr("tools/call")} ==>
              Answer(n, line, decode, hub) == Step([], [])
    ensures |Answer(n, line, decode, hub).out| <= 1 && |Answer(n, line, decode, hub).posts| <= 1
  {
    if decode(line).Some? && decode(line).value.JObj? {
      var msg := decode(line).value;
      if GetOrNull(msg, "method") == JStr("tools/call") && GetOrNull(msg, "params").JObj? {
        var p := GetOrNull(msg, "params");
        var ex := hub.listing(n);
        if ex.Response? && ToolsOf(ex.body).Ok? {
          CallToolOutcome(n, GetOrNull(msg, "id"), p, hub, ToolsOf(ex.body).value);
        }
      }
    }
  }

  /** All the lines read until end of file, answered one after another. */
  function Session(lines: seq<string>, decode: string -> Option<Json>, hub: Hub): Step
    decreases |lines|
  {
    if lines == [] then Step([], [])
    else
      var before := Session(lines[..|lines| - 1], decode, hub);
      var last := Answer(|lines| - 1, lines[|lines| - 1], decode, hub);
      Step(before.out + last.out, before.posts + last.posts)
  }

  /** A printed JSON-RPC 2.0 frame on a line of its own. */
  ghost predicate IsFrame(line: string) {
    exists frame :: line == Line(frame) && Get(frame, "jsonrpc") == Some(JStr("2.0"))
  }

  lemma ResponseIsFrame(id: Json, result: Json)
    ensures IsFrame(Line(ResponseFrame(id, result)))
  {
    FrameFields(id, result, 0, "");
  }

  lemma ErrorIsFrame(id: Json, code: int, message: string)
    ensures IsFrame(Line(ErrorFrame(id, code, message)))
  {
    FrameFields(id, JNull, code, message);
  }

  /** The line of a listing is a frame. */
  lemma ListToolsFrame(id: Json, ex: Exchange)
    ensures IsFrame(ListToolsLine(id, ex))
  {
    match ex
    case Failure(m) => ErrorIsFrame(id, -32603, m);
    case Response(ok, body, statusError) =>
      if !ok {
        ErrorIsFrame(id, -32603, statusError);
      } else if ToolsOf(body).Err? {
        ErrorIsFrame(id, -32603, ToolsOf(body).error);
      } else if CleanTools(ToolsOf(body).value).Err? {
        ErrorIsFrame(id, -32603, CleanTools(ToolsOf(body).value).error);
      } else {
        ResponseIsFrame(id, JObj([("tools", JArr(CleanTools(ToolsOf(body).value).value))]));
      }
  }

  /** A call prints at most one line, and that line is a frame. */
  lemma CallToolFrame(n: nat, id: Json, params: Json, hub: Hub)
    ensures |CallTool(n, id, params, hub).out| <= 1
    ensures |CallTool(n, id, params, hub).out| == 1 ==> IsFrame(CallTool(n, id, params, hub).out[0])
  {
    if params.JObj? {
      var name := GetOrNull(params, "name");
      var ex := hub.listing(n);
      if ex.Failure? {
        ErrorIsFrame(id, -32603, ex.message);
      } else if ToolsOf(ex.body).Err? {
        ErrorIsFrame(id, -32603, ToolsOf(ex.body).error);
      } else if FindTarget(ToolsOf(ex.body).value, name).Err? {
        ErrorIsFrame(id, -32603, FindTarget(ToolsOf(ex.body).value, name).error);
      } else if FindTarget(ToolsOf(ex.body).value, name).value.None? {
        ErrorIsFrame(id, -32601, "Tool " + PyStr(name) + " not found");
      } else {
        var target := FindTarget(ToolsOf(ex.body).value, name).value.value;
        var post := CallPost(name, GetOrNull(target, "_server_name"), Get(params, "arguments").GetOr(JObj([])));
        var answer := hub.calling(n, post);
        if answer.Failure? {
          ErrorIsFrame(id, -32603, answer.message);
        } else if answer.ok {
          ResponseIsFrame(id, answer.body);
        } else {
          ErrorIsFrame(id, -32603, answer.statusError);
        }
      }
    }
  }

  /** Each answer prints at most one line, and that line is a frame. */
  lemma AnswerFrame(n: nat, line: string, decode: string -> Option<Json>, hub: Hub)
    ensures |Answer(n, line, decode, hub).out| <= 1
    ensures |Answer(n, line, decode, hub).out| == 1 ==> IsFrame(Answer(n, line, decode, hub).out[0])
  {
    if decode(line).Some? && decode(line).value.JObj? {
      var msg := decode(line).value;
      var id := GetOrNull(msg, "id");
      var m := GetOrNull(msg, "method");
      if m == JStr("initialize") {
        ResponseIsFrame(id, InitializeResult());
      } else if m == JStr("tools/list") {
        ListToolsFrame(id, hub.listing(n));
      } else if m == JStr("tools/call") {
        CallToolFrame(n, id, GetOrNull(msg, "params"), hub);
      }
    }
  }

  /** Every line printed is one JSON-RPC 2.0 frame on a line of its own, and
      there is at most one per line read. */
  lemma {:induction false} SessionFrames(lines: seq<string>, decode: string -> Option<Json>, hub: Hub)
    ensures |Session(lines, decode, hub).out| <= |lines|
    ensures forall i :: 0 <= i < |Session(lines, decode, hub).out| ==> IsFrame(Session(lines, decode, hub).out[i])
    decreases |lines|
  {
    if lines != [] {
      var init := lines[..|lines| - 1];
      SessionFrames(init, decode, hub);
      var n := |lines| - 1;
      var a := Answer(n, lines[n], decode, hub);
      AnswerFrame(n, lines[n], decode, hub);
      var s := Session(lines, decode, hub);
      var b := Session(init, decode, hub);
      assert s.out == b.out + a.out;
      forall i | 0 <= i < |s.out|
        ensures IsFrame(s.out[i])
      {
        if i < |b.out| {
          assert s.out[i] == b.out[i];
        } else {
          assert s.out[i] == a.out[i - |b.out|];
        }
      }
    }
  }

  /** A line that is skipped leaves the output so far as it was, and the lines
      after it are still read. */
  lemma SessionSkips(lines: seq<string>, line: string, decode: string -> Option<Json>, hub: Hub)
    requires decode(line).None?
    ensures Session(lines + [line], decode, hub) == Session(lines, decode, hub)
  {
    assert (lines + [line])[..|lines|] == lines;
  }

  /** One line of `main`'s loop: at most one frame printed and one call
      forwarded; a line that is not a JSON object and every method but the
      three served is not answered; `initialize` gets the fixed capabilities
      and `tools/list` the listing's line. */
  method HandleLine(n: nat, line: string, decode: string -> Option<Json>, hub: Hub) returns (step: Step)
    ensures step == Answer(n, line, decode, hub)
    ensures |step.out| <= 1 && |step.posts| <= 1
    ensures |step.out| == 1 ==> IsFrame(step.out[0])
    ensures decode(line).None? || !decode(line).value.JObj? ==> step == Step([], [])
    ensures decode(line).Some? && Get(decode(line).value, "method") == Some(JStr("initialize")) ==>
              step == Step([Line(ResponseFrame(GetOrNull(decode(line).value, "id"), InitializeResult()))], [])
    ensures decode(line).Some? && decode(line).value.JObj? &&
            GetOrNull(decode(line).value, "method") == JStr("tools/list") ==>
              step == Step([ListToolsLine(GetOrNull(decode(line).value, "id"), hub.listing(n))], [])
    ensures decode(line).Some? && GetOrNull(decode(line).value, "method") !in
              {JStr("initialize"), JStr("tools/list"), JStr("tools/call")} ==>
              step == Step([], [])
  {
    AnswerKinds(n, line, decode, hub);
    AnswerFrame(n, line, decode, hub);
    var parsed := decode(line);
    if parsed.None? || !parsed.value.JObj? {
      return Step([], []);
    }
    var msg := parsed.value;
    var rpcMethod := GetOrNull(msg, "method");
    var id := GetOrNull(msg, "id");
    if rpcMethod == JStr("initialize") {
      step := Step([Line(ResponseFrame(id, InitializeResult()))], []);
    } else if rpcMethod == JStr("tools/list") {
      var reply := ListTools(id, hub.listing(n));
      step := Step([reply], []);
    } else if rpcMethod == JStr("tools/call") {
      step := CallTool(n, id, GetOrNull(msg, "params"), hub);
    } else {
      step := Step([], []);
    }
  }

  /** `main`: read and answer lines until end of file. */
  method Serve(lines: seq<string>, decode: string -> Option<Json>, hub: Hub) returns (out: seq<string>, posts: seq<Post>)
    ensures Step(out, posts) == Session(lines, decode, hub)
  {
    out, posts := [], [];
    var i := 0;
    while i < |lines|
      invariant 0 <= i <= |lines|
      invariant Step(out, posts) == Session(lines[..i], decode, hub)
    {
      var step := HandleLine(i, lines[i], decode, hub);
      assert lines[..i + 1][..i] == lines[..i];
      out, posts := out + step.out, posts + step.posts;
      i := i + 1;
    }
    assert lines[..i] == lines;
  }
}
