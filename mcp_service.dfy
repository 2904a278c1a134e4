/** The front end's client of the gateway (`prompt_fill/src/services/mcp-service.js`):
    the fallbacks of the fetching helpers and the grouping of the tool catalog
    by server in `getMcpServers`. A fetch is given by its outcome; values are
    decoded JSON, with an absent property as `None`. JavaScript's `TypeError`s
    carry the messages of the V8 engine. */
module McpService {
  import opened Wrappers
  import opened Text
  import opened Dicts
  import opened Lists
  import opened JsonValues

  /** What `fetch` and `response.json()` give: a response with its `ok` flag
      and its body, when that parses as JSON, or no response at all. */
  datatype Fetched = Answered(ok: bool, body: Option<Json>) | Unreachable

  /** The shared pattern of `listMcpTools`, `getAllServers` and
      `getLastActiveServers`: the parsed body of a successful response, and
      the fallback on every failure. */
  function FetchOr(f: Fetched, fallback: Json): (r: Json)
    ensures f.Answered? && f.ok && f.body.Some? ==> r == f.body.value
    ensures f.Unreachable? || !f.ok || f.body.None? ==> r == fallback
  {
    if f.Answered? && f.ok && f.body.Some? then f.body.value else fallback
  }

  /** `listMcpTools` */
  function ListMcpTools(f: Fetched): Json {
    FetchOr(f, JObj([("tools", JArr([]))]))
  }

  /** `getAllServers` */
  function GetAllServers(f: Fetched): Json {
    FetchOr(f, JObj([("servers", JArr([]))]))
  }

  /** `getLastActiveServers` */
  function GetLastActiveServers(f: Fetched): Json {
    FetchOr(f, JObj([("last_active_servers", JArr([]))]))
  }

  /** Every failure of the three fetches turns into an empty list under the
      key the caller reads. */
  lemma FetchFallbacks(f: Fetched)
    requires f.Unreachable? || !f.ok || f.body.None?
    ensures Get(ListMcpTools(f), "tools") == Some(JArr([]))
    ensures Get(GetAllServers(f), "servers") == Some(JArr([]))
    ensures Get(GetLastActiveServers(f), "last_active_servers") == Some(JArr([]))
  {
    LookupEntry([("tools", JArr([]))], 0);
    LookupEntry([("servers", JArr([]))], 0);
    LookupEntry([("last_active_servers", JArr([]))], 0);
  }

  /** The `TypeError`s that make `getMcpServers` reject. */
  datatype TypeFailure = NullListing | ToolsUndefined | ToolsNull | ToolsNotFunction | NullTool | PushUndefined
  {
    /** The message the V8 engine gives the error. */
    function Message(): string {
      match this
      case NullListing => "Cannot destructure property 'tools' of '(intermediate value)' as it is null."
      case ToolsUndefined => "Cannot read properties of undefined (reading 'forEach')"
      case ToolsNull => "Cannot read properties of null (reading 'forEach')"
      case ToolsNotFunction => "tools.forEach is not a function"
      case NullTool => "Cannot read properties of null (reading '_server_name')"
      case PushUndefined => "Cannot read properties of undefined (reading 'push')"
    }
  }

  /** A value, or the `TypeError` thrown on the way to it. */
  datatype Outcome<+T> = Done(value: T) | Failed(failure: TypeFailure)

  /** The key `servers[name]` uses for a tool: its `_server_name` as a
      string, "undefined" when it has none; reading it from `null` throws. */
  function ServerKey(tool: Json): Outcome<string> {
    match tool
    case JNull => Failed(NullTool)
    case JObj(fields) => Done(match Lookup(fields, "_server_name") case None => "undefined" case Some(v) => JsString(v))
    case _ => Done("undefined")
  }

  /** Why a tool stops the grouping, if it does: no key, or a key under which
      `servers` already finds an inherited member, whose `tools` is undefined. */
  function ToolFailure(tool: Json): Option<TypeFailure> {
    match ServerKey(tool)
    case Failed(m) => Some(m)
    case Done(k) => if k in PrototypeNames then Some(PushUndefined) else None
  }

  /** `{ tools } = ...` and `tools.forEach`: the list to group, or the error. */
  function ToolsList(listing: Json): Outcome<seq<Json>> {
    match listing
    case JNull => Failed(NullListing)
    case JObj(fields) =>
      var tools := Lookup(fields, "tools");
      if tools.None? then Failed(ToolsUndefined)
      else if tools.value.JNull? then Failed(ToolsNull)
      else if tools.value.JArr? then Done(tools.value.items)
      else Failed(ToolsNotFunction)
    case _ => Failed(ToolsUndefined)
  }

  /** One entry of the result of `getMcpServers`. */
  datatype ServerGroup = ServerGroup(name: Option<Json>, status: string, tools: seq<Json>)

  /** The key text of a tool that has one. */
  function KeyText(tool: Json): string {
    match ServerKey(tool)
    case Done(k) => k
    case Failed(_) => ""
  }

  /** The key a group was created under: that of its first tool. */
  function GroupKey(key: Json -> string, g: ServerGroup): string {
    if g.tools != [] then key(g.tools[0]) else ""
  }

  /** Whether a tool belongs under key `k`. */
  function Under(key: Json -> string, k: string): Json -> bool {
    t => key(t) == k
  }

  function Sizes(groups: seq<ServerGroup>): nat {
    if groups == [] then 0 else |groups[0].tools| + Sizes(groups[1..])
  }

  /** The group stored under `k`, if any. */
  function FindGroup(key: Json -> string, groups: seq<ServerGroup>, k: string): (r: Option<nat>)
    ensures r.Some? ==> r.value < |groups| && GroupKey(key, groups[r.value]) == k
    ensures r.None? ==> forall l :: 0 <= l < |groups| ==> GroupKey(key, groups[l]) != k
  {
    if groups == [] then None
    else if GroupKey(key, groups[0]) == k then Some(0)
    else match FindGroup(key, groups[1..], k)
      case None => None
      case Some(l) => Some(l + 1)
  }

  /** Each group is marked running, is named after its first tool and holds
      exactly the first `i` tools under its key, in order. */
  ghost predicate Formed(key: Json -> string, tools: seq<Json>, i: nat, groups: seq<ServerGroup>)
    requires i <= |tools|
  {
    forall k :: 0 <= k < |groups| ==>
      groups[k].status == "running" && groups[k].tools != [] &&
      groups[k].name == Get(groups[k].tools[0], "_server_name") &&
      groups[k].tools == Filter(tools[..i], Under(key, GroupKey(key, groups[k])))
  }

  /** No two groups share a key. */
  ghost predicate Apart(key: Json -> string, groups: seq<ServerGroup>) {
    forall k, l :: 0 <= k < l < |groups| ==> GroupKey(key, groups[k]) != GroupKey(key, groups[l])
  }

  /** Each of the first `i` tools has a group under its key. */
  ghost predicate Covered(key: Json -> string, tools: seq<Json>, i: nat, groups: seq<ServerGroup>)
    requires i <= |tools|
  {
    forall j :: 0 <= j < i ==> exists k :: 0 <= k < |groups| && GroupKey(key, groups[k]) == key(tools[j])
  }

  /** None of the first `i` tools stops the grouping. */
  ghost predicate Accepted(tools: seq<Json>, i: nat)
    requires i <= |tools|
  {
    forall j :: 0 <= j < i ==> ToolFailure(tools[j]).None?
  }

  lemma AcceptedSnoc(tools: seq<Json>, i: nat, n: nat)
    requires i < |tools| && Accepted(tools, i) && ToolFailure(tools[i]).None? && n == i + 1
    ensures Accepted(tools, n)
  {
  }

  /** What the groups built from the first `i` tools satisfy. */
  ghost predicate Grouped(key: Json -> string, tools: seq<Json>, i: nat, groups: seq<ServerGroup>)
    requires i <= |tools|
  {
    Formed(key, tools, i, groups) && Apart(key, groups) && Covered(key, tools, i, groups) && Sizes(groups) == i
  }

  /** `getMcpServers`, given what `listMcpTools` returned. Every tool lands in
      exactly one group, the one whose key is its server name; a group holds
      its tools in catalog order, is named after its first tool's server and
      is marked running; the group sizes add up to the number of tools. A
      listing that is no list, a tool that is `null` or one whose server name
      is an inherited property makes the call reject with the first such
      failure. */
  method GetMcpServers(listing: Json) returns (r: Outcome<seq<ServerGroup>>)
    ensures ToolsList(listing).Failed? ==> r == Failed(ToolsList(listing).failure)
    ensures ToolsList(listing).Done? ==> GroupedOrFailed(ToolsList(listing).value, r)
  {
    var list := ToolsList(listing);
    if list.Failed? {
      return Failed(list.failure);
    }
    r := GroupTools(list.value);
  }

  /** The `forEach` of `getMcpServers` over the listed tools. */
  method GroupTools(tools: seq<Json>) returns (r: Outcome<seq<ServerGroup>>)
    ensures GroupedOrFailed(tools, r)
  {
    var groups: seq<ServerGroup> := [];
    var i := 0;
    GroupedNone(KeyText, tools);
    while i < |tools|
      invariant 0 <= i <= |tools|
      invariant Accepted(tools, i)
      invariant Grouped(KeyText, tools, i, groups)
    {
      var tool := tools[i];
      var failure := ToolFailure(tool);
      if failure.Some? {
        r := Failed(failure.value);
        FailedAt(tools, i, r);
        return;
      }
      groups := AddTool(tools, i, groups);
      AcceptedSnoc(tools, i, i + 1);
      i := i + 1;
    }
    r := Done(groups);
    GroupedAll(tools, i, groups, r);
  }

  /** One accepted tool of the `forEach`: appended to the group of its key,
      or the first of a new group. */
  method AddTool(tools: seq<Json>, i: nat, groups: seq<ServerGroup>) returns (groups': seq<ServerGroup>)
    requires i < |tools| && Grouped(KeyText, tools, i, groups)
    ensures Grouped(KeyText, tools, i + 1, groups')
  {
    var tool := tools[i];
    var found := FindGroup(KeyText, groups, KeyText(tool));
    if found.None? {
      groups' := groups + [ServerGroup(Get(tool, "_server_name"), "running", [tool])];
      AddGroupStep(KeyText, tools, i, groups, tool, i + 1, groups');
    } else {
      var k := found.value;
      groups' := groups[k := groups[k].(tools := groups[k].tools + [tool])];
      ExtendStep(KeyText, tools, i, groups, k, tool, i + 1, groups');
    }
  }

  lemma GroupedNone(key: Json -> string, tools: seq<Json>)
    ensures Grouped(key, tools, 0, [])
  {
  }

  /** The first failing tool decides the error. */
  lemma FailedAt(tools: seq<Json>, i: nat, r: Outcome<seq<ServerGroup>>)
    requires i < |tools| && Accepted(tools, i)
    requires ToolFailure(tools[i]).Some? && r == Failed(ToolFailure(tools[i]).value)
    ensures GroupedOrFailed(tools, r)
  {
  }

  /** Grouping every tool without a failure succeeds. */
  lemma GroupedAll(tools: seq<Json>, i: nat, groups: seq<ServerGroup>, r: Outcome<seq<ServerGroup>>)
    requires i == |tools| && Accepted(tools, i) && Grouped(KeyText, tools, i, groups) && r == Done(groups)
    ensures GroupedOrFailed(tools, r)
  {
  }

  /** The outcome of grouping `tools`: the groups when no tool fails,
      otherwise the failure of the first tool that does. */
  ghost predicate GroupedOrFailed(tools: seq<Json>, r: Outcome<seq<ServerGroup>>) {
    (r.Done? <==> forall j :: 0 <= j < |tools| ==> ToolFailure(tools[j]).None?) &&
    (r.Failed? ==> exists j :: 0 <= j < |tools| && ToolFailure(tools[j]) == Some(r.failure) &&
                               forall j' :: 0 <= j' < j ==> ToolFailure(tools[j']).None?) &&
    (r.Done? ==> Grouped(KeyText, tools, |tools|, r.value))
  }

  /** The first tool under a new key opens a group at the end. */
  lemma AddGroupStep(key: Json -> string, tools: seq<Json>, i: nat, groups: seq<ServerGroup>,
                      tool: Json, n: nat, after: seq<ServerGroup>)
    requires i < |tools| && Grouped(key, tools, i, groups)
    requires forall k :: 0 <= k < |groups| ==> GroupKey(key, groups[k]) != key(tools[i])
    requires tool == tools[i] && n == i + 1
    requires after == groups + [ServerGroup(Get(tool, "_server_name"), "running", [tool])]
    ensures Grouped(key, tools, n, after)
  {
    var g := ServerGroup(Get(tools[i], "_server_name"), "running", [tools[i]]);
    assert GroupKey(key, g) == key(tools[i]);
    AddFormed(key, tools, i, groups);
    AddCovered(key, tools, i, groups);
    SizesSnoc(groups, g);
    AddApart(key, groups, g);
  }

  /** A group under a new key keeps the keys apart. */
  lemma AddApart(key: Json -> string, groups: seq<ServerGroup>, g: ServerGroup)
    requires Apart(key, groups)
    requires forall k :: 0 <= k < |groups| ==> GroupKey(key, groups[k]) != GroupKey(key, g)
    ensures Apart(key, groups + [g])
  {
    forall k, l | 0 <= k < l < |groups + [g]|
      ensures GroupKey(key, (groups + [g])[k]) != GroupKey(key, (groups + [g])[l])
    {
      assert (groups + [g])[k] == groups[k];
    }
  }

  lemma AddFormed(key: Json -> string, tools: seq<Json>, i: nat, groups: seq<ServerGroup>)
    requires i < |tools| && Formed(key, tools, i, groups) && Covered(key, tools, i, groups)
    requires forall k :: 0 <= k < |groups| ==> GroupKey(key, groups[k]) != key(tools[i])
    ensures Formed(key, tools, i + 1, groups + [ServerGroup(Get(tools[i], "_server_name"), "running", [tools[i]])])
  {
    var tool := tools[i];
    var groups' := groups + [ServerGroup(Get(tool, "_server_name"), "running", [tool])];
    assert tools[..i + 1] == tools[..i] + [tool];
    forall k | 0 <= k < |groups'|
      ensures groups'[k].tools == Filter(tools[..i + 1], Under(key, GroupKey(key, groups'[k])))
    {
      FilterSnoc(tools[..i], tool, Under(key, GroupKey(key, groups'[k])));
      if k == |groups| {
        assert GroupKey(key, groups'[k]) == key(tool);
        assert Filter(tools[..i], Under(key, key(tool))) == [] by {
          forall j | 0 <= j < i ensures !Under(key, key(tool))(tools[..i][j]) {
            NotUnderNew(key, tools, i, groups, j);
          }
          FilterNone(tools[..i], Under(key, key(tool)));
        }
      } else {
        assert groups'[k] == groups[k];
      }
    }
  }

  /** No earlier tool has the key of a tool that finds no group. */
  lemma NotUnderNew(key: Json -> string, tools: seq<Json>, i: nat, groups: seq<ServerGroup>, j: nat)
    requires i < |tools| && j < i && Covered(key, tools, i, groups)
    requires forall k :: 0 <= k < |groups| ==> GroupKey(key, groups[k]) != key(tools[i])
    ensures key(tools[..i][j]) != key(tools[i])
  {
    assert tools[..i][j] == tools[j];
  }

  lemma AddCovered(key: Json -> string, tools: seq<Json>, i: nat, groups: seq<ServerGroup>)
    requires i < |tools| && Covered(key, tools, i, groups)
    ensures Covered(key, tools, i + 1, groups + [ServerGroup(Get(tools[i], "_server_name"), "running", [tools[i]])])
  {
    var groups' := groups + [ServerGroup(Get(tools[i], "_server_name"), "running", [tools[i]])];
    forall j | 0 <= j < i + 1
      ensures exists k :: 0 <= k < |groups'| && GroupKey(key, groups'[k]) == key(tools[j])
    {
      if j == i {
        assert GroupKey(key, groups'[|groups|]) == key(tools[i]);
      } else {
        var k :| 0 <= k < |groups| && GroupKey(key, groups[k]) == key(tools[j]);
        assert groups'[k] == groups[k];
      }
    }
  }

  /** A later tool under a known key joins that group at its end. */
  lemma ExtendStep(key: Json -> string, tools: seq<Json>, i: nat, groups: seq<ServerGroup>, k: nat,
                    tool: Json, n: nat, after: seq<ServerGroup>)
    requires i < |tools| && Grouped(key, tools, i, groups)
    requires k < |groups| && GroupKey(key, groups[k]) == key(tools[i])
    requires tool == tools[i] && n == i + 1
    requires after == groups[k := groups[k].(tools := groups[k].tools + [tool])]
    ensures Grouped(key, tools, n, after)
  {
    var g := groups[k].(tools := groups[k].tools + [tool]);
    SameKeys(key, groups, k, g, after);
    ExtendFormed(key, tools, i, groups, k, tool, n, after);
    ExtendCovered(key, tools, i, groups, k, n, after);
    SizesUpdate(groups, k, g);
  }

  /** Adding a tool at the end of a group keeps the key of every group. */
  lemma SameKeys(key: Json -> string, groups: seq<ServerGroup>, k: nat, g: ServerGroup, after: seq<ServerGroup>)
    requires k < |groups| && groups[k].tools != [] && after == groups[k := g]
    requires g.tools != [] && g.tools[0] == groups[k].tools[0]
    ensures |after| == |groups| && forall l :: 0 <= l < |groups| ==> GroupKey(key, after[l]) == GroupKey(key, groups[l])
  {
  }

  lemma ExtendCovered(key: Json -> string, tools: seq<Json>, i: nat, groups: seq<ServerGroup>, k: nat,
                      n: nat, after: seq<ServerGroup>)
    requires i < |tools| && n == i + 1 && Covered(key, tools, i, groups)
    requires k < |groups| && GroupKey(key, groups[k]) == key(tools[i])
    requires |after| == |groups| && forall l :: 0 <= l < |groups| ==> GroupKey(key, after[l]) == GroupKey(key, groups[l])
    ensures Covered(key, tools, n, after)
  {
    forall j | 0 <= j < n
      ensures exists l :: 0 <= l < |after| && GroupKey(key, after[l]) == key(tools[j])
    {
      if j < i {
        var l :| 0 <= l < |groups| && GroupKey(key, groups[l]) == key(tools[j]);
        assert GroupKey(key, after[l]) == GroupKey(key, groups[l]);
      } else {
        assert GroupKey(key, after[k]) == key(tools[j]);
      }
    }
  }

  lemma ExtendFormed(key: Json -> string, tools: seq<Json>, i: nat, groups: seq<ServerGroup>, k: nat,
                     tool: Json, n: nat, after: seq<ServerGroup>)
    requires i < |tools| && Formed(key, tools, i, groups) && Apart(key, groups)
    requires k < |groups| && GroupKey(key, groups[k]) == key(tools[i])
    requires tool == tools[i] && n == i + 1
    requires after == groups[k := groups[k].(tools := groups[k].tools + [tool])]
    requires forall l :: 0 <= l < |groups| ==> GroupKey(key, after[l]) == GroupKey(key, groups[l])
    ensures Formed(key, tools, n, after)
  {
    assert tools[..n] == tools[..i] + [tool];
    forall l | 0 <= l < |after|
      ensures after[l].tools == Filter(tools[..n], Under(key, GroupKey(key, after[l])))
    {
      FilterSnoc(tools[..i], tool, Under(key, GroupKey(key, after[l])));
      if l != k {
        assert GroupKey(key, groups[l]) != GroupKey(key, groups[k]);
      }
    }
  }

  lemma {:induction false} FilterNone(s: seq<Json>, p: Json -> bool)
    requires forall j :: 0 <= j < |s| ==> !p(s[j])
    ensures Filter(s, p) == []
  {
    if s != [] {
      FilterNone(s[1..], p);
    }
  }

  lemma {:induction false} SizesSnoc(groups: seq<ServerGroup>, g: ServerGroup)
    ensures Sizes(groups + [g]) == Sizes(groups) + |g.tools|
  {
    if groups == [] {
      assert [g][1..] == [];
    } else {
      assert (groups + [g])[1..] == groups[1..] + [g];
      SizesSnoc(groups[1..], g);
    }
  }

  lemma {:induction false} SizesUpdate(groups: seq<ServerGroup>, k: nat, g: ServerGroup)
    requires k < |groups|
    ensures Sizes(groups[k := g]) == Sizes(groups) - |groups[k].tools| + |g.tools|
  {
    if k > 0 {
      assert groups[k := g][1..] == groups[1..][k - 1 := g];
      SizesUpdate(groups[1..], k - 1, g);
    }
  }

  /** Each tool is in exactly one group: the one under its server name. */
  lemma GroupOfTool(key: Json -> string, tools: seq<Json>, groups: seq<ServerGroup>, j: nat)
    requires Grouped(key, tools, |tools|, groups) && j < |tools|
    ensures exists k :: 0 <= k < |groups| && tools[j] in groups[k].tools
    ensures forall k :: 0 <= k < |groups| && tools[j] in groups[k].tools ==> GroupKey(key, groups[k]) == key(tools[j])
  {
    assert tools[..|tools|] == tools;
    var k :| 0 <= k < |groups| && GroupKey(key, groups[k]) == key(tools[j]);
    assert tools[j] in Filter(tools, Under(key, GroupKey(key, groups[k])));
  }
}
