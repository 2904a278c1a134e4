/** The JSON-RPC client over a child server's standard streams
    (`mcp_host/services/stdio_client.py`). The asynchronous client is modelled
    sequentially: a request is written (`SendRequest`), then the lines the
    child printed are read (`Pump`, the read loop), then the caller's wait
    ends (`Await`); a wait whose answer has not arrived is the timeout. The
    lines written to the child are the `sent` field; JSON parsing of a line is
    a parameter. */
module StdioClient {
  import opened Wrappers
  import opened Text
  import opened Dicts
  import opened JsonValues
  import opened ProcessManager

  /** An `asyncio.Future` of a request: not done, done with a result, done
      with an exception (its message), or cancelled. */
  datatype FutureState = Waiting | Resolved(result: Json) | Failed(message: string) | Cancelled

  class Future {
    var state: FutureState
    /** The request id the future was created for. */
    ghost const id: int

    constructor(ghost id: int)
      ensures state == Waiting && this.id == id
    {
      state := Waiting;
      this.id := id;
    }
  }

  /** `params or {}` */
  function ParamsOrEmpty(params: Option<Json>): (p: Json)
    ensures params.Some? && Truthy(params.value) ==> p == params.value
    ensures params.None? || !Truthy(params.value) ==> p == JObj([])
  {
    if params.Some? && Truthy(params.value) then params.value else JObj([])
  }

  /** The request `call` writes. */
  function RequestFrame(id: nat, rpcMethod: string, params: Option<Json>): Json {
    JObj([("jsonrpc", JStr("2.0")), ("id", JNum(id)), ("method", JStr(rpcMethod)),
          ("params", ParamsOrEmpty(params))])
  }

  /** The notification `notify` writes: a request without an id. */
  function NotificationFrame(rpcMethod: string, params: Option<Json>): Json {
    JObj([("jsonrpc", JStr("2.0")), ("method", JStr(rpcMethod)), ("params", ParamsOrEmpty(params))])
  }

  /** A request carries protocol version "2.0", its id, its method and its
      parameters (an empty object for missing or empty ones). */
  lemma RequestFrameFields(id: nat, rpcMethod: string, params: Option<Json>)
    ensures Get(RequestFrame(id, rpcMethod, params), "jsonrpc") == Some(JStr("2.0"))
    ensures Get(RequestFrame(id, rpcMethod, params), "id") == Some(JNum(id))
    ensures Get(RequestFrame(id, rpcMethod, params), "method") == Some(JStr(rpcMethod))
    ensures Get(RequestFrame(id, rpcMethod, params), "params") == Some(ParamsOrEmpty(params))
    ensures Truthy(ParamsOrEmpty(params)) || ParamsOrEmpty(params) == JObj([])
  {
    var fields := RequestFrame(id, rpcMethod, params).fields;
    LookupEntry(fields, 0);
    LookupEntry(fields, 1);
    LookupEntry(fields, 2);
    LookupEntry(fields, 3);
  }

  /** A notification carries no id, so no answer is awaited for it. */
  lemma NotificationHasNoId(rpcMethod: string, params: Option<Json>)
    ensures Get(NotificationFrame(rpcMethod, params), "id") == None
    ensures Get(NotificationFrame(rpcMethod, params), "method") == Some(JStr(rpcMethod))
  {
    var fields := NotificationFrame(rpcMethod, params).fields;
    HasKeyIndex(fields, "id");
    LookupEntry(fields, 1);
  }

  /** Whether `_handle_message` raises on a decoded line: `message.get` on a
      value that is no object, or `msg_id in pending` with a list or object id
      (unhashable). The exception ends the read loop. */
  predicate Raises(msg: Json) {
    !msg.JObj? || GetOrNull(msg, "id").JArr? || GetOrNull(msg, "id").JObj?
  }

  /** The key of the pending table a message's id designates. `None` and an
      absent id make a notification; `True` and `False` equal the keys 1 and
      0; a string equals no integer key. */
  function Target(msg: Json): Option<int> {
    match GetOrNull(msg, "id")
    case JNum(n) => Some(n)
    case JBool(b) => Some(if b then 1 else 0)
    case _ => None
  }

  /** The exception message of an error answer: `"{message} {data}"` stripped
      when the error is an object (both default to ""), and its JSON text when
      that is blank; `str(error)` otherwise. */
  function ErrorMessage(error: Json): (m: string)
    ensures error.JObj? ==> m != []
    ensures !error.JObj? ==> m == PyStr(error)
  {
    if error.JObj? then
      var text := Trim(PyStr(Get(error, "message").GetOr(JStr(""))) + " " +
                       PyStr(Get(error, "data").GetOr(JStr(""))));
      if text != [] then text else (RenderPrintable(error); Render(error))
    else PyStr(error)
  }

  /** How an answer completes its future: with an exception when the message
      has an `error` key (whatever its value), with `result` (absent: `None`) otherwise. */
  function Outcome(msg: Json): FutureState {
    if Get(msg, "error").Some? then Failed(ErrorMessage(Get(msg, "error").value))
    else Resolved(GetOrNull(msg, "result"))
  }

  /** The effect of one decoded message on the futures, by pending key:
      only a still-waiting future under the message's id is completed. */
  function Deliver(st: map<int, FutureState>, msg: Json): map<int, FutureState> {
    match Target(msg)
    case Some(k) => if k in st && st[k].Waiting? then st[k := Outcome(msg)] else st
    case None => st
  }

  /** Delivering a message completes at most the one entry its id names, and
      only when it was still waiting; the table keeps its keys. */
  lemma DeliverOnlyTarget(st: map<int, FutureState>, msg: Json, k: int)
    ensures Deliver(st, msg).Keys == st.Keys
    ensures k in st ==>
              Deliver(st, msg)[k] == if Target(msg) == Some(k) && st[k].Waiting? then Outcome(msg) else st[k]
  {
  }

  /** A repeated answer changes nothing: a done future stays as it is. */
  lemma DeliverIdempotent(st: map<int, FutureState>, msg: Json)
    ensures Deliver(Deliver(st, msg), msg) == Deliver(st, msg)
  {
  }

  /** What the read loop has done after a batch of lines: the futures by key,
      and whether the loop is still running. */
  datatype ReadOutcome = ReadOutcome(states: map<int, FutureState>, running: bool)

  /** One line read by the loop: it is stripped, and a blank line or one
      that does not parse is skipped; a parsed message is delivered, and a
      message that raises stops the loop. */
  function ReadLine(st: map<int, FutureState>, line: string, decode: string -> Option<Json>): (o: ReadOutcome)
    ensures o.states.Keys == st.Keys
  {
    var clean := Trim(line);
    if clean == [] then ReadOutcome(st, true)
    else
      match decode(clean)
      case None => ReadOutcome(st, true)
      case Some(msg) => if Raises(msg) then ReadOutcome(st, false) else ReadOutcome(Deliver(st, msg), true)
  }

  /** The read loop over the lines the child printed, in order, until a line
      stops it or the stream ends. It never adds or drops a pending request. */
  function ReadLines(st: map<int, FutureState>, lines: seq<string>, atEof: bool,
                     decode: string -> Option<Json>): (o: ReadOutcome)
    ensures o.states.Keys == st.Keys
    decreases |lines|
  {
    if lines == [] then ReadOutcome(st, !atEof)
    else
      var o := ReadLine(st, lines[0], decode);
      if o.running then ReadLines(o.states, lines[1..], atEof, decode) else o
  }

  lemma ReadLinesStep(st: map<int, FutureState>, lines: seq<string>, atEof: bool,
                      decode: string -> Option<Json>)
    requires lines != []
    ensures ReadLines(st, lines, atEof, decode) ==
            if ReadLine(st, lines[0], decode).running
            then ReadLines(ReadLine(st, lines[0], decode).states, lines[1..], atEof, decode)
            else ReadLine(st, lines[0], decode)
  {
  }

  /** A future that is done stays done with the same outcome, whatever the child prints. */
  lemma {:induction false} ReadLinesKeepsDone(st: map<int, FutureState>, lines: seq<string>, atEof: bool,
                                              decode: string -> Option<Json>, k: int)
    requires k in st && !st[k].Waiting?
    ensures k in ReadLines(st, lines, atEof, decode).states
    ensures ReadLines(st, lines, atEof, decode).states[k] == st[k]
    decreases |lines|
  {
    if lines != [] {
      var clean := Trim(lines[0]);
      if clean != [] && decode(clean).Some? && !Raises(decode(clean).value) {
        DeliverOnlyTarget(st, decode(clean).value, k);
      }
      ReadLinesKeepsDone(ReadLine(st, lines[0], decode).states, lines[1..], atEof, decode, k);
    }
  }

  /** A success answer (no `error` key) for a waiting request, alone on its
      line, completes that request with its result. */
  lemma AnswerSettles(st: map<int, FutureState>, id: int, msg: Json, line: string,
                      decode: string -> Option<Json>)
    requires id in st && st[id].Waiting?
    requires Trim(line) != [] && decode(Trim(line)) == Some(msg)
    requires Get(msg, "id") == Some(JNum(id)) && Get(msg, "error").None?
    ensures ReadLines(st, [line], false, decode) == ReadOutcome(st[id := Resolved(GetOrNull(msg, "result"))], true)
  {
    AnswerCompletes(st, id, msg, line, decode);
  }

  /** An error answer for a waiting request completes it with the error's message. */
  lemma ErrorAnswerFails(st: map<int, FutureState>, id: int, msg: Json, error: Json, line: string,
                         decode: string -> Option<Json>)
    requires id in st && st[id].Waiting?
    requires Trim(line) != [] && decode(Trim(line)) == Some(msg)
    requires Get(msg, "id") == Some(JNum(id)) && Get(msg, "error") == Some(error)
    ensures ReadLines(st, [line], false, decode) == ReadOutcome(st[id := Failed(ErrorMessage(error))], true)
  {
    AnswerCompletes(st, id, msg, line, decode);
  }

  /** An answer for a waiting request, alone on its line, completes it. */
  lemma AnswerCompletes(st: map<int, FutureState>, id: int, msg: Json, line: string,
                        decode: string -> Option<Json>)
    requires id in st && st[id].Waiting?
    requires Trim(line) != [] && decode(Trim(line)) == Some(msg)
    requires Get(msg, "id") == Some(JNum(id))
    ensures ReadLines(st, [line], false, decode) == ReadOutcome(st[id := Outcome(msg)], true)
  {
    assert Target(msg) == Some(id) && !Raises(msg);
    assert ReadLine(st, line, decode) == ReadOutcome(st[id := Outcome(msg)], true);
    assert [line][1..] == [];
  }

  /** What awaiting a future yields: its result, its exception, or the timeout
      (whose message is empty) when it is not done. */
  function Settle(s: FutureState): Result<Json> {
    match s
    case Resolved(v) => Ok(v)
    case Failed(m) => Err(m)
    case Waiting => Err("")
    case Cancelled => Err("")
  }

  /** `RuntimeError` of `start` for a server whose process was never started. */
  function NotStartedMessage(name: string): string {
    "服务器 [" + name + "] 进程未启动"
  }

  /** The `AttributeError` of writing to a process object that is `None`. */
  const NoStdin: string := "'NoneType' object has no attribute 'stdin'"

  /** The futures by pending id. */
  ghost function StatesOf(pending: map<int, Future>): map<int, FutureState>
    reads pending.Values
  {
    map k | k in pending :: pending[k].state
  }

  /** Putting a future under `id` puts its state there. */
  lemma StatesOfUpdate(pending: map<int, Future>, id: int, fut: Future)
    ensures StatesOf(pending[id := fut]) == StatesOf(pending)[id := fut.state]
  {
  }

  /** Adding a fresh key and removing it again gives back the table. */
  lemma RemoveAdded<V>(table: map<int, V>, id: int, v: V)
    requires id !in table
    ensures table[id := v] - {id} == table
  {
  }

  /** What `call` returns for the new request `id` when the futures were
      `states` and the read loop ran (`running`) or not: the answer the loop
      reads for `id` among the child's `replies`, or the timeout. */
  function CallResult(states: map<int, FutureState>, running: bool, id: int, replies: seq<string>, atEof: bool,
                      decode: string -> Option<Json>): Result<Json>
  {
    Settle(if running then ReadLines(states[id := Waiting], replies, atEof, decode).states[id] else Waiting)
  }

  class StdioRpcClient {
    const proc: McpProcess
    var requestId: nat
    /** `pending_requests`: request id to its future. */
    var pending: map<int, Future>
    /** `_is_running` */
    var isRunning: bool
    /** How many read-loop tasks were created. */
    var readLoops: nat
    /** The lines written to the child's standard input, in order. */
    var sent: seq<string>

    /** Pending ids are ids already handed out, each with its own future. */
    ghost predicate Valid()
      reads this`pending, this`requestId
    {
      (forall k :: k in pending ==> 1 <= k <= requestId)
      && (forall k :: k in pending ==> pending[k].id == k)
    }

    constructor(proc: McpProcess)
      ensures this.proc == proc && Valid()
      ensures requestId == 0 && pending == map[] && !isRunning && readLoops == 0 && sent == []
    {
      this.proc := proc;
      requestId := 0;
      pending := map[];
      isRunning := false;
      readLoops := 0;
      sent := [];
    }

    /** `start`: fails for a process without a handle, does nothing when the
        loop already runs, and otherwise starts one read loop. */
    method Start() returns (r: Result<()>)
      modifies this`isRunning, this`readLoops
      ensures !proc.hasHandle ==> r == Err(NotStartedMessage(proc.name))
      ensures r.Ok? <==> proc.hasHandle
      ensures isRunning == (old(isRunning) || proc.hasHandle)
      ensures readLoops == if proc.hasHandle && !old(isRunning) then old(readLoops) + 1 else old(readLoops)
    {
      if !proc.hasHandle {
        return Err(NotStartedMessage(proc.name));
      }
      if isRunning {
        return Ok(());
      }
      isRunning := true;
      readLoops := readLoops + 1;
      r := Ok(());
    }

    /** `_handle_message`: completes the waiting future the message's id
        names, and reports whether it raised. */
    method HandleMessage(msg: Json) returns (raised: bool)
      requires Valid()
      modifies pending.Values
      ensures raised == Raises(msg)
      ensures StatesOf(pending) == if raised then old(StatesOf(pending)) else Deliver(old(StatesOf(pending)), msg)
    {
      if Raises(msg) {
        return true;
      }
      raised := false;
      var target := Target(msg);
      if target.Some? && target.value in pending {
        var f := pending[target.value];
        if f.state.Waiting? {
          f.state := Outcome(msg);
          forall k | k in pending
            ensures StatesOf(pending)[k] == old(StatesOf(pending))[target.value := Outcome(msg)][k]
          {
            if k != target.value {
              assert pending[k] != f;
            }
          }
        }
      }
    }

    /** One pass of `_read_loop`'s body; `stop` says the loop ends. */
    method ReadOne(line: string, decode: string -> Option<Json>) returns (stop: bool)
      requires Valid()
      modifies pending.Values
      ensures ReadOutcome(StatesOf(pending), !stop) == ReadLine(old(StatesOf(pending)), line, decode)
    {
      var clean := Trim(line);
      if clean == [] {
        return false;
      }
      var msg := decode(clean);
      if msg.None? {
        return false;
      }
      stop := HandleMessage(msg.value);
    }

    /** `_read_loop` over the lines the child has printed so far; the loop
        runs only after `start`, and `atEof` says the stream then ended. */
    method Pump(lines: seq<string>, atEof: bool, decode: string -> Option<Json>)
      requires Valid()
      modifies this`isRunning, pending.Values
      ensures old(isRunning) ==>
                ReadOutcome(StatesOf(pending), isRunning) == ReadLines(old(StatesOf(pending)), lines, atEof, decode)
      ensures !old(isRunning) ==> StatesOf(pending) == old(StatesOf(pending)) && !isRunning
    {
      if !isRunning {
        return;
      }
      ghost var goal := ReadLines(StatesOf(pending), lines, atEof, decode);
      var i := 0;
      while i < |lines| && isRunning
        invariant 0 <= i <= |lines|
        invariant isRunning ==> ReadLines(StatesOf(pending), lines[i..], atEof, decode) == goal
        invariant !isRunning ==> ReadOutcome(StatesOf(pending), false) == goal
        decreases |lines| - i
      {
        ghost var st := StatesOf(pending);
        ReadLinesStep(st, lines[i..], atEof, decode);
        assert lines[i..][0] == lines[i] && lines[i..][1..] == lines[i + 1..];
        var stop := ReadOne(lines[i], decode);
        if stop {
          isRunning := false;
        }
        i := i + 1;
      }
      if isRunning {
        assert lines[i..] == [];
        if atEof {
          isRunning := false;
        }
      }
    }

    /** The first half of `call`: a new id, a waiting future under it, and the
        request written to the child. Writing to a process without a handle
        raises, and the future is then removed again. */
    method SendRequest(rpcMethod: string, params: Option<Json>) returns (id: nat, fut: Future, r: Result<()>)
      requires Valid()
      modifies this`requestId, this`pending, this`sent
      ensures Valid()
      ensures requestId == old(requestId) + 1 && id == requestId && id !in old(pending)
      ensures fresh(fut) && fut.state == Waiting
      ensures r.Ok? <==> proc.hasHandle
      ensures proc.hasHandle ==> pending == old(pending)[id := fut]
                                 && sent == old(sent) + [Line(RequestFrame(id, rpcMethod, params))]
      ensures !proc.hasHandle ==> r == Err(NoStdin) && pending == old(pending) && sent == old(sent)
    {
      requestId := requestId + 1;
      id := requestId;
      fut := new Future(id);
      pending := pending[id := fut];
      if !proc.hasHandle {
        pending := pending - {id};
        assert pending == old(pending);
        return id, fut, Err(NoStdin);
      }
      sent := sent + [Line(RequestFrame(id, rpcMethod, params))];
      r := Ok(());
    }

    /** The second half of `call`: the wait ends with what the future holds;
        a future still waiting is the timeout, which cancels it. The id leaves
        the pending table either way. */
    method Await(id: nat, fut: Future) returns (r: Result<Json>)
      requires Valid()
      modifies this`pending, fut
      ensures Valid()
      ensures r == Settle(old(fut.state))
      ensures fut.state == if old(fut.state).Waiting? then Cancelled else old(fut.state)
      ensures pending == old(pending) - {id}
    {
      r := Settle(fut.state);
      if fut.state.Waiting? {
        fut.state := Cancelled;
      }
      pending := pending - {id};
    }

    /** The wait of `call` for the request `id`: the read loop runs over the
        child's `replies`, then the wait ends with what the future holds. */
    method Collect(id: nat, fut: Future, replies: seq<string>, atEof: bool,
                   decode: string -> Option<Json>, ghost states: map<int, FutureState>) returns (r: Result<Json>)
      requires Valid() && id in pending && pending[id] == fut
      requires StatesOf(pending) == states[id := Waiting]
      modifies this`isRunning, this`pending, pending.Values
      ensures Valid()
      ensures pending == old(pending) - {id}
      ensures r == CallResult(states, old(isRunning), id, replies, atEof, decode)
      ensures isRunning == (old(isRunning) && ReadLines(states[id := Waiting], replies, atEof, decode).running)
      ensures StatesOf(pending) ==
              (if old(isRunning) then ReadLines(states[id := Waiting], replies, atEof, decode).states
               else states[id := Waiting]) - {id}
    {
      ghost var goal := ReadLines(StatesOf(pending), replies, atEof, decode);
      ghost var wasRunning := isRunning;
      assert StatesOf(pending)[id] == Waiting;
      assert fut.state == Waiting;
      Pump(replies, atEof, decode);
      ghost var after := StatesOf(pending);
      assert fut.state == after[id];
      assert wasRunning ==> fut.state == goal.states[id];
      r := Await(id, fut);
      forall k | k in pending
        ensures pending[k].state == after[k]
      {
        assert pending[k].id == k;
      }
    }

    /** `call(method, params)` while the child prints `replies` before the
        timeout: the answer to the new id decides the result. */
    method Call(rpcMethod: string, params: Option<Json>, replies: seq<string>, atEof: bool,
                decode: string -> Option<Json>, ghost states: map<int, FutureState>) returns (r: Result<Json>)
      requires Valid() && StatesOf(pending) == states
      modifies this`requestId, this`pending, this`sent, this`isRunning, pending.Values
      ensures Valid()
      ensures requestId == old(requestId) + 1 && pending == old(pending) && requestId !in pending
      ensures !proc.hasHandle ==> r == Err(NoStdin) && sent == old(sent)
      ensures proc.hasHandle ==> sent == old(sent) + [Line(RequestFrame(requestId, rpcMethod, params))]
      ensures proc.hasHandle ==> r == CallResult(states, old(isRunning), requestId, replies, atEof, decode)
      ensures proc.hasHandle ==>
                isRunning == (old(isRunning) && ReadLines(states[requestId := Waiting], replies, atEof, decode).running)
      ensures proc.hasHandle ==>
                StatesOf(pending) ==
                (if old(isRunning) then ReadLines(states[requestId := Waiting], replies, atEof, decode).states - {requestId}
                 else states)
      ensures !proc.hasHandle ==> isRunning == old(isRunning) && StatesOf(pending) == states
    {
      ghost var table := pending;
      var id, fut, sentOk := SendRequest(rpcMethod, params);
      if sentOk.Err? {
        assert StatesOf(pending) == states;
        return Err(sentOk.error);
      }
      assert StatesOf(table) == states;
      StatesOfUpdate(table, id, fut);
      RemoveAdded(table, id, fut);
      RemoveAdded(states, id, Waiting);
      ghost var wasRunning := isRunning;
      r := Collect(id, fut, replies, atEof, decode, states);
      assert pending == table;
      if !wasRunning {
        assert StatesOf(pending) == states;
      }
    }

    /** `notify`: the notification is written; nothing is awaited. */
    method Notify(rpcMethod: string, params: Option<Json>) returns (r: Result<()>)
      modifies this`sent
      ensures r.Ok? <==> proc.hasHandle
      ensures proc.hasHandle ==> sent == old(sent) + [Line(NotificationFrame(rpcMethod, params))]
      ensures !proc.hasHandle ==> r == Err(NoStdin) && sent == old(sent)
    {
      if !proc.hasHandle {
        return Err(NoStdin);
      }
      sent := sent + [Line(NotificationFrame(rpcMethod, params))];
      r := Ok(());
    }

    /** `stop`: the loop ends, every waiting future fails with "Client
        stopped", and the pending table is emptied. */
    method Stop()
      requires Valid()
      modifies this`isRunning, this`pending, pending.Values
      ensures Valid() && !isRunning && pending == map[]
      ensures forall f :: f in old(pending.Values) ==>
                f.state == if old(f.state).Waiting? then Failed("Client stopped") else old(f.state)
    {
      isRunning := false;
      var rest := pending.Values;
      while rest != {}
        invariant rest <= old(pending.Values)
        invariant !isRunning && pending == old(pending)
        invariant forall f :: f in old(pending.Values) && f !in rest ==>
                    f.state == if old(f.state).Waiting? then Failed("Client stopped") else old(f.state)
        invariant forall f :: f in rest ==> f.state == old(f.state)
        decreases rest
      {
        var f :| f in rest;
        if f.state.Waiting? {
          f.state := Failed("Client stopped");
        }
        rest := rest - {f};
      }
      pending := map[];
    }
  }
}
