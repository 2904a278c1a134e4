/** The front end's adapter to language-model services
    (`prompt_fill/src/services/llm-adapter.js`): the reading of an
    OpenAI-style event stream, the requests built for the three model
    types, and the test whether the settings allow a call. The network is a
    parameter (`fetch`), and so is `JSON.parse` (`parse`, whose error is the
    message of the `SyntaxError` it throws). */
module LlmAdapter {
  import opened Wrappers
  import opened Text
  import opened Dicts
  import opened JsonValues
  import opened Helpers

  // Reading the event stream

  /** `s.split('\n\n')`: the separator is found leftmost first. */
  function Events(s: string): (r: seq<string>)
    ensures |r| >= 1 && StartsWith(s, r[0])
    ensures |r| == 1 ==> r[0] == s
    decreases |s|
  {
    if s == [] then [""]
    else if StartsWith(s, "\n\n") then [""] + Events(s[2..])
    else
      var rest := Events(s[1..]);
      assert s == [s[0]] + s[1..];
      assert ([s[0]] + rest[0]) == s[..|rest[0]| + 1];
      [[s[0]] + rest[0]] + rest[1..]
  }

  /** Text that arrives later changes only the last, unfinished part: the
      parts before it are final. */
  lemma {:induction false} EventsAppend(x: string, c: string)
    ensures Events(x + c) == Events(x)[..|Events(x)| - 1] + Events(Events(x)[|Events(x)| - 1] + c)
    decreases |x|, 1
  {
    var e := Events(x);
    if |e| == 1 {
      assert e[..0] == [];
    } else if StartsWith(x, "\n\n") {
      EventsAppendSep(x, c);
    } else {
      EventsAppendChar(x, c);
    }
  }

  lemma {:induction false} EventsAppendSep(x: string, c: string)
    requires |Events(x)| >= 2 && StartsWith(x, "\n\n")
    ensures Events(x + c) == Events(x)[..|Events(x)| - 1] + Events(Events(x)[|Events(x)| - 1] + c)
    decreases |x|, 0
  {
    assert (x + c)[..2] == x[..2];
    assert (x + c)[2..] == x[2..] + c;
    assert Events(x + c) == [""] + Events(x[2..] + c);
    EventsAppend(x[2..], c);
    SepStep(x, c, Events(x[2..]), Events(x[2..] + c), Events(x + c));
  }

  lemma {:induction false} EventsAppendChar(x: string, c: string)
    requires |Events(x)| >= 2 && !StartsWith(x, "\n\n")
    ensures Events(x + c) == Events(x)[..|Events(x)| - 1] + Events(Events(x)[|Events(x)| - 1] + c)
    decreases |x|, 0
  {
    var e1 := Events(x[1..]);
    EventsAppend(x[1..], c);
    CharUnfold(x, x[0], x[1..]);
    assert x + c == [x[0]] + (x[1..] + c);
    assert (x + c)[..2] == x[..2];
    CharUnfold(x + c, x[0], x[1..] + c);
    CharStep(x[0], e1, Events(x[1..] + c), Events(e1[|e1| - 1] + c), Events(x), Events(x + c));
  }

  /** `s.split` on text that starts with an ordinary character `h`. */
  lemma CharUnfold(y: string, h: char, rest: string)
    requires y == [h] + rest && !StartsWith(y, "\n\n")
    ensures Events(y) == [[h] + Events(rest)[0]] + Events(rest)[1..]
    ensures |Events(y)| == |Events(rest)|
  {
    assert y[1..] == rest;
  }

  /** The appending step when `x` starts with the separator. */
  lemma SepStep(x: string, c: string, e2: seq<string>, r: seq<string>, whole: seq<string>)
    requires |Events(x)| >= 2 && Events(x) == [""] + e2 && whole == [""] + r
    requires |e2| >= 1 && r == e2[..|e2| - 1] + Events(e2[|e2| - 1] + c)
    ensures whole == Events(x)[..|Events(x)| - 1] + Events(Events(x)[|Events(x)| - 1] + c)
  {
    var e := Events(x);
    assert e[..|e| - 1] == [""] + e2[..|e2| - 1];
    assert e[|e| - 1] == e2[|e2| - 1];
  }

  /** The appending step when `x` starts with an ordinary character `h`. */
  lemma CharStep(h: char, e1: seq<string>, r: seq<string>, t: seq<string>, e: seq<string>, whole: seq<string>)
    requires |e1| >= 2 && r == e1[..|e1| - 1] + t && |r| >= 1
    requires e == [[h] + e1[0]] + e1[1..]
    requires whole == [[h] + r[0]] + r[1..]
    ensures whole == e[..|e| - 1] + t
  {
    assert r[0] == e1[0];
    assert r[1..] == e1[1..|e1| - 1] + t;
    assert e[..|e| - 1] == [[h] + e1[0]] + e1[1..|e1| - 1];
  }

  /** The events a stream holds in full: every part followed by a blank line. */
  function CompleteEvents(s: string): seq<string> {
    var e := Events(s);
    e[..|e| - 1]
  }

  /** `value?.[k1]?.[k2]...`: `None` is `undefined`. */
  function Path(j: Json, keys: seq<string>): Option<Json>
    decreases |keys|
  {
    if keys == [] then Some(j)
    else
      var p := Property(j, keys[0]);
      if p.None? then None else Path(p.value, keys[1..])
  }

  /** `ev.trim().split('\n').find((l) => l.startsWith('data: '))` */
  function DataLine(ev: string): Option<string> {
    FirstDataLine(SplitOn(Trim(ev), '\n'))
  }

  function FirstDataLine(lines: seq<string>): (r: Option<string>)
    ensures r.Some? ==> StartsWith(r.value, "data: ")
  {
    if lines == [] then None
    else if StartsWith(lines[0], "data: ") then Some(lines[0])
    else FirstDataLine(lines[1..])
  }

  /** `j?.choices?.[0]?.delta?.content`, when it is a non-empty string. */
  function DeltaContent(j: Json): (r: Option<string>)
    ensures r.Some? ==> r.value != []
  {
    var c := Path(j, ["choices", "0", "delta", "content"]);
    if c.Some? && c.value.JStr? && c.value.s != [] then Some(c.value.s) else None
  }

  /** `j?.choices?.[0]?.message?.content ?? ''` */
  function MessageContent(j: Json): (r: Json)
    ensures !r.JNull?
    ensures var c := Path(j, ["choices", "0", "message", "content"]);
            if c.None? || c.value.JNull? then r == JStr("") else r == c.value
  {
    var c := Path(j, ["choices", "0", "message", "content"]);
    if c.None? || c.value.JNull? then JStr("") else c.value
  }

  /** The variables of `streamOpenAICompatibleResponse` between events,
      with `done` for the return at `[DONE]` and `calls` recording the text
      received so far at every call of `onFirstChunk`. */
  datatype StreamState = StreamState(fullText: string, firstFired: bool, rawJsonFallback: string,
                                     done: bool, calls: seq<string>)

  const Start := StreamState("", false, "", false, [])

  /** `d` of a data line: what follows `data: `, trimmed. */
  function DataOf(line: string): string {
    if |line| >= 6 then Trim(line[6..]) else Trim(line)
  }

  /** What one complete event is to the reader. */
  datatype EventKind =
    | DoneEvent                  // `data: [DONE]`
    | DeltaEvent(c: string)      // a data line carrying a non-empty delta
    | FallbackEvent(t: string)   // no data line, the trimmed event starts with `{`
    | IgnoredEvent               // anything else, a data line that fails to parse included

  function Classify(ev: string, parse: string -> Result<Json>): (k: EventKind)
    ensures k.DeltaEvent? ==> k.c != []
  {
    match DataLine(ev)
    case Some(line) => ClassifyData(DataOf(line), parse)
    case None =>
      if StartsWith(Trim(ev), "{") then FallbackEvent(Trim(ev)) else IgnoredEvent
  }

  /** What the payload `d` of a data line is. */
  function ClassifyData(d: string, parse: string -> Result<Json>): (k: EventKind)
    ensures k.DeltaEvent? ==> k.c != []
  {
    if d == "[DONE]" then DoneEvent
    else
      var j := parse(d);
      if j.Err? || DeltaContent(j.value).None? then IgnoredEvent else DeltaEvent(DeltaContent(j.value).value)
  }

  /** The effect of an event of kind `k`; the callback fires at the first delta. */
  function Apply(st: StreamState, k: EventKind, hasCallback: bool): StreamState {
    match k
    case DoneEvent => st.(done := true)
    case DeltaEvent(c) =>
      var fire := !st.firstFired && hasCallback;
      st.(fullText := st.fullText + c, firstFired := st.firstFired || fire,
          calls := if fire then st.calls + [st.fullText + c] else st.calls)
    case FallbackEvent(t) => st.(rawJsonFallback := t)
    case IgnoredEvent => st
  }

  /** The handling of one complete event; after `[DONE]` nothing is handled. */
  function Step(st: StreamState, ev: string, hasCallback: bool, parse: string -> Result<Json>): StreamState {
    if st.done then st else Apply(st, Classify(ev, parse), hasCallback)
  }

  /** The state after the events, one after the other. */
  function Process(evs: seq<string>, st: StreamState, hasCallback: bool, parse: string -> Result<Json>): StreamState
    decreases |evs|
  {
    if evs == [] then st
    else Step(Process(evs[..|evs| - 1], st, hasCallback, parse), evs[|evs| - 1], hasCallback, parse)
  }

  lemma {:induction false} ProcessAppend(a: seq<string>, b: seq<string>, st: StreamState, hasCallback: bool,
                                         parse: string -> Result<Json>)
    ensures Process(a + b, st, hasCallback, parse) == Process(b, Process(a, st, hasCallback, parse), hasCallback, parse)
    decreases |b|
  {
    if b == [] {
      assert a + b == a;
    } else {
      assert (a + b)[..|a + b| - 1] == a + b[..|b| - 1];
      assert (a + b)[|a + b| - 1] == b[|b| - 1];
      ProcessAppend(a, b[..|b| - 1], st, hasCallback, parse);
    }
  }

  /** Nothing happens after `[DONE]`. */
  lemma {:induction false} ProcessDone(b: seq<string>, st: StreamState, hasCallback: bool, parse: string -> Result<Json>)
    requires st.done
    ensures Process(b, st, hasCallback, parse) == st
    decreases |b|
  {
    if b != [] {
      ProcessDone(b[..|b| - 1], st, hasCallback, parse);
    }
  }

  /** What `streamOpenAICompatibleResponse` resolves to for the whole
      stream `s`, and the calls of `onFirstChunk` on the way. */
  function StreamOutcome(s: string, hasCallback: bool, parse: string -> Result<Json>): (Json, seq<string>) {
    Outcome(Process(CompleteEvents(s), Start, hasCallback, parse), parse)
  }

  /** The value returned from the state after the last complete event: the
      text, unless it is empty, the stream ended without `[DONE]` and the
      fallback parses. */
  function Outcome(st: StreamState, parse: string -> Result<Json>): (Json, seq<string>) {
    if !st.done && st.fullText == "" && st.rawJsonFallback != "" && parse(st.rawJsonFallback).Ok? then
      (MessageContent(parse(st.rawJsonFallback).value), st.calls)
    else (JStr(st.fullText), st.calls)
  }

  /** `streamOpenAICompatibleResponse(res, onFirstChunk)` over the body's
      chunks: whatever the chunks are, the outcome is that of the text they
      make up, because a trailing unfinished event waits in the buffer. */
  method StreamOpenAICompatibleResponse(chunks: seq<string>, hasCallback: bool, parse: string -> Result<Json>)
    returns (text: Json, calls: seq<string>)
    ensures (text, calls) == StreamOutcome(Concat(chunks), hasCallback, parse)
  {
    var buffer := "";
    var fullText := "";
    var firstFired := false;
    var rawJsonFallback := "";
    calls := [];
    ghost var seen: seq<string> := [];
    var i := 0;
    while i < |chunks|
      invariant 0 <= i <= |chunks|
      invariant Events(Concat(chunks[..i])) == seen + [buffer]
      invariant Process(seen, Start, hasCallback, parse) == StreamState(fullText, firstFired, rawJsonFallback, false, calls)
    {
      var done;
      done, buffer, fullText, firstFired, rawJsonFallback, calls, seen :=
        ReadChunk(chunks, i, seen, buffer, fullText, firstFired, rawJsonFallback, calls, hasCallback, parse);
      if done {
        return JStr(fullText), calls;
      }
      i := i + 1;
    }
    assert chunks[..i] == chunks;
    DropLast(seen, buffer);
    text, calls := FinishStream(fullText, firstFired, rawJsonFallback, calls, parse);
  }

  /** One pass of the reading loop: the chunk joins the buffer, the events
      it completes are handled, and the new last part becomes the buffer;
      at `[DONE]` the text so far is the outcome of the whole body. */
  method ReadChunk(chunks: seq<string>, i: nat, ghost seen: seq<string>, buffer: string,
                   fullText: string, firstFired: bool, rawJsonFallback: string, calls: seq<string>,
                   hasCallback: bool, parse: string -> Result<Json>)
    returns (done: bool, buffer': string, fullText': string, firstFired': bool, rawJsonFallback': string,
             calls': seq<string>, ghost seen': seq<string>)
    requires i < |chunks| && Events(Concat(chunks[..i])) == seen + [buffer]
    requires Process(seen, Start, hasCallback, parse) == StreamState(fullText, firstFired, rawJsonFallback, false, calls)
    ensures !done ==> Events(Concat(chunks[..i + 1])) == seen' + [buffer'] &&
                      Process(seen', Start, hasCallback, parse) ==
                      StreamState(fullText', firstFired', rawJsonFallback', false, calls')
    ensures done ==> StreamOutcome(Concat(chunks), hasCallback, parse) == (JStr(fullText'), calls')
  {
    var events := Events(buffer + chunks[i]);
    var complete := events[..|events| - 1];
    buffer' := events[|events| - 1];
    SplitLast(events);
    done, fullText', firstFired', rawJsonFallback', calls' :=
      HandleEvents(complete, fullText, firstFired, rawJsonFallback, calls, hasCallback, parse);
    ReadEvents(chunks, i, seen, buffer, complete, buffer');
    ProcessStep(seen, complete, StreamState(fullText, firstFired, rawJsonFallback, false, calls),
                StreamState(fullText', firstFired', rawJsonFallback', done, calls'), hasCallback, parse);
    if done {
      ReadDone(chunks, i, seen, complete, buffer', StreamState(fullText', firstFired', rawJsonFallback', done, calls'),
               hasCallback, parse);
    }
    seen' := seen + complete;
  }

  /** The end of the stream without `[DONE]`: the text, or the message of
      the raw JSON fallback when no text came. */
  method FinishStream(fullText: string, firstFired: bool, rawJsonFallback: string, calls: seq<string>,
                      parse: string -> Result<Json>)
    returns (text: Json, calls': seq<string>)
    ensures (text, calls') == Outcome(StreamState(fullText, firstFired, rawJsonFallback, false, calls), parse)
  {
    calls' := calls;
    if fullText == "" && rawJsonFallback != "" {
      var j := parse(rawJsonFallback);
      if j.Ok? {
        return MessageContent(j.value), calls;
      }
    }
    text := JStr(fullText);
  }

  /** `for (const ev of events)` over the complete events of one chunk,
      `done` standing for the return at `[DONE]`. */
  method HandleEvents(evs: seq<string>, fullText: string, firstFired: bool, rawJsonFallback: string,
                      calls: seq<string>, hasCallback: bool, parse: string -> Result<Json>)
    returns (done: bool, fullText': string, firstFired': bool, rawJsonFallback': string, calls': seq<string>)
    ensures StreamState(fullText', firstFired', rawJsonFallback', done, calls') ==
            Process(evs, StreamState(fullText, firstFired, rawJsonFallback, false, calls), hasCallback, parse)
  {
    ghost var st0 := StreamState(fullText, firstFired, rawJsonFallback, false, calls);
    done, fullText', firstFired', rawJsonFallback', calls' := false, fullText, firstFired, rawJsonFallback, calls;
    var j := 0;
    while j < |evs|
      invariant 0 <= j <= |evs|
      invariant Process(evs[..j], st0, hasCallback, parse) ==
                StreamState(fullText', firstFired', rawJsonFallback', false, calls')
    {
      TakeOneMore(evs, j);
      ProcessSnoc(evs[..j], evs[j], st0, hasCallback, parse);
      done, fullText', firstFired', rawJsonFallback', calls' :=
        HandleEvent(evs[j], fullText', firstFired', rawJsonFallback', calls', hasCallback, parse);
      if done {
        SplitAt(evs, j + 1);
        ProcessAppend(evs[..j + 1], evs[j + 1..], st0, hasCallback, parse);
        ProcessDone(evs[j + 1..], Process(evs[..j + 1], st0, hasCallback, parse), hasCallback, parse);
        return;
      }
      j := j + 1;
    }
    assert evs[..j] == evs;
  }

  /** The body of the loop over the complete events of a chunk: `done` is
      the return at `[DONE]`. */
  method HandleEvent(ev: string, fullText: string, firstFired: bool, rawJsonFallback: string, calls: seq<string>,
                     hasCallback: bool, parse: string -> Result<Json>)
    returns (done: bool, fullText': string, firstFired': bool, rawJsonFallback': string, calls': seq<string>)
    ensures StreamState(fullText', firstFired', rawJsonFallback', done, calls') ==
            Step(StreamState(fullText, firstFired, rawJsonFallback, false, calls), ev, hasCallback, parse)
  {
    done, fullText', firstFired', rawJsonFallback', calls' := false, fullText, firstFired, rawJsonFallback, calls;
    ghost var st := StreamState(fullText, firstFired, rawJsonFallback, false, calls);
    var line := DataLine(ev);
    if line.Some? {
      assert Classify(ev, parse) == ClassifyData(DataOf(line.value), parse);
      done, fullText', firstFired', calls' :=
        HandleData(DataOf(line.value), fullText, firstFired, rawJsonFallback, calls, hasCallback, parse);
      assert StreamState(fullText', firstFired', rawJsonFallback', done, calls') == Apply(st, Classify(ev, parse), hasCallback);
    } else if StartsWith(Trim(ev), "{") {
      assert Classify(ev, parse) == FallbackEvent(Trim(ev));
      rawJsonFallback' := Trim(ev);
      assert StreamState(fullText', firstFired', rawJsonFallback', done, calls') == Apply(st, Classify(ev, parse), hasCallback);
    } else {
      assert Classify(ev, parse) == IgnoredEvent;
      assert StreamState(fullText', firstFired', rawJsonFallback', done, calls') == Apply(st, Classify(ev, parse), hasCallback);
    }
    assert Step(st, ev, hasCallback, parse) == Apply(st, Classify(ev, parse), hasCallback);
  }

  /** The handling of the payload `d` of a data line. */
  method HandleData(d: string, fullText: string, firstFired: bool, rawJsonFallback: string, calls: seq<string>,
                    hasCallback: bool, parse: string -> Result<Json>)
    returns (done: bool, fullText': string, firstFired': bool, calls': seq<string>)
    ensures StreamState(fullText', firstFired', rawJsonFallback, done, calls') ==
            Apply(StreamState(fullText, firstFired, rawJsonFallback, false, calls), ClassifyData(d, parse), hasCallback)
  {
    done, fullText', firstFired', calls' := false, fullText, firstFired, calls;
    if d == "[DONE]" {
      return true, fullText, firstFired, calls;
    }
    var parsed := parse(d);
    if parsed.Ok? {
      var c := DeltaContent(parsed.value);
      if c.Some? {
        fullText' := fullText + c.value;
        if !firstFired && hasCallback {
          firstFired' := true;
          calls' := calls + [fullText'];
        }
      }
    }
  }

  /** The chunk joins the buffer: the events completed so far are followed
      by those the buffer and the chunk complete, and the new buffer. */
  lemma ReadEvents(chunks: seq<string>, i: nat, seen: seq<string>, buffer: string,
                   complete: seq<string>, buffer': string)
    requires i < |chunks| && Events(Concat(chunks[..i])) == seen + [buffer]
    requires Events(buffer + chunks[i]) == complete + [buffer']
    ensures Events(Concat(chunks[..i + 1])) == (seen + complete) + [buffer']
  {
    ChunksStep(chunks, i, seen, buffer);
    assert seen + (complete + [buffer']) == (seen + complete) + [buffer'];
  }

  /** `[DONE]` among the events completed after chunk `i` decides the
      outcome of the whole body. */
  lemma ReadDone(chunks: seq<string>, i: nat, seen: seq<string>, complete: seq<string>, buffer': string,
                 st': StreamState, hasCallback: bool, parse: string -> Result<Json>)
    requires i < |chunks| && Events(Concat(chunks[..i + 1])) == (seen + complete) + [buffer']
    requires Process(seen + complete, Start, hasCallback, parse) == st' && st'.done
    ensures StreamOutcome(Concat(chunks), hasCallback, parse) == (JStr(st'.fullText), st'.calls)
  {
    var events := complete + [buffer'];
    assert seen + events == (seen + complete) + [buffer'];
    assert events[..|events| - 1] == complete;
    DoneEarly(chunks, i, seen, events, hasCallback, parse);
  }

  lemma SplitLast(events: seq<string>)
    requires |events| >= 1
    ensures events == events[..|events| - 1] + [events[|events| - 1]]
  {
  }

  /** One more chunk: the finished events so far stay, and the buffer
      with the chunk splits into the rest. */
  lemma ChunksStep(chunks: seq<string>, i: nat, seen: seq<string>, buffer: string)
    requires i < |chunks| && Events(Concat(chunks[..i])) == seen + [buffer]
    ensures Events(Concat(chunks[..i + 1])) == seen + Events(buffer + chunks[i])
  {
    assert chunks[..i + 1] == chunks[..i] + [chunks[i]];
    ConcatAppend(chunks[..i], [chunks[i]]);
    assert Concat([chunks[i]]) == chunks[i];
    EventsAppend(Concat(chunks[..i]), chunks[i]);
    var e := seen + [buffer];
    assert e[..|e| - 1] == seen && e[|e| - 1] == buffer;
  }

  lemma ProcessStep(seen: seq<string>, complete: seq<string>, st: StreamState, st': StreamState, hasCallback: bool,
                    parse: string -> Result<Json>)
    requires Process(seen, Start, hasCallback, parse) == st
    requires st' == Process(complete, st, hasCallback, parse)
    ensures Process(seen + complete, Start, hasCallback, parse) == st'
  {
    ProcessAppend(seen, complete, Start, hasCallback, parse);
  }

  lemma TakeOneMore(s: seq<string>, j: nat)
    requires j < |s|
    ensures s[..j + 1] == s[..j] + [s[j]]
  {
  }

  lemma SplitAt(s: seq<string>, k: nat)
    requires k <= |s|
    ensures s[..k] + s[k..] == s
  {
  }

  lemma DropLastOfAppend(a: seq<string>, b: seq<string>)
    requires |b| >= 1
    ensures (a + b)[..|a + b| - 1] == a + b[..|b| - 1]
    ensures (a + b)[|a + b| - 1] == b[|b| - 1]
  {
  }

  lemma DropLast(seen: seq<string>, buffer: string)
    ensures (seen + [buffer])[..|seen + [buffer]| - 1] == seen
  {
  }

  lemma ProcessSnoc(a: seq<string>, e: string, st: StreamState, hasCallback: bool, parse: string -> Result<Json>)
    ensures Process(a + [e], st, hasCallback, parse) == Step(Process(a, st, hasCallback, parse), e, hasCallback, parse)
  {
    assert (a + [e])[..|a + [e]| - 1] == a;
  }

  lemma SpliceLast(whole: seq<string>, e: seq<string>, later: seq<string>, tail: string)
    requires |e| >= 1 && whole == e[..|e| - 1] + Events(e[|e| - 1] + tail)
    requires later == Events(e[|e| - 1] + tail)
    ensures whole == e[..|e| - 1] + later
  {
  }

  /** The complete events of the whole stream extend those seen up to chunk `i`. */
  lemma CompleteEventsExtend(chunks: seq<string>, i: nat, seen: seq<string>, events: seq<string>)
    returns (rest: seq<string>)
    requires i < |chunks| && |events| >= 1
    requires Events(Concat(chunks[..i + 1])) == seen + events
    ensures CompleteEvents(Concat(chunks)) == seen + events[..|events| - 1] + rest
  {
    var head := Concat(chunks[..i + 1]);
    var tail := Concat(chunks[i + 1..]);
    assert chunks == chunks[..i + 1] + chunks[i + 1..];
    ConcatAppend(chunks[..i + 1], chunks[i + 1..]);
    rest := CompleteAfter(head, tail, seen, events);
  }

  /** The complete events of `head + tail` extend those of `head`. */
  lemma CompleteAfter(head: string, tail: string, seen: seq<string>, events: seq<string>)
    returns (rest: seq<string>)
    requires |events| >= 1 && Events(head) == seen + events
    ensures CompleteEvents(head + tail) == seen + events[..|events| - 1] + rest
  {
    EventsAppend(head, tail);
    var e := seen + events;
    DropLastOfAppend(seen, events);
    var later := Events(e[|e| - 1] + tail);
    rest := later[..|later| - 1];
    SpliceLast(Events(head + tail), e, later, tail);
    DropLastOfAppend(seen + events[..|events| - 1], later);
  }

  /** At `[DONE]` the rest of the stream no longer matters. */
  lemma DoneEarly(chunks: seq<string>, i: nat, seen: seq<string>, events: seq<string>, hasCallback: bool,
                  parse: string -> Result<Json>)
    requires i < |chunks| && |events| >= 1
    requires Events(Concat(chunks[..i + 1])) == seen + events
    requires Process(seen + events[..|events| - 1], Start, hasCallback, parse).done
    ensures StreamOutcome(Concat(chunks), hasCallback, parse) ==
            (JStr(Process(seen + events[..|events| - 1], Start, hasCallback, parse).fullText),
             Process(seen + events[..|events| - 1], Start, hasCallback, parse).calls)
  {
    var rest := CompleteEventsExtend(chunks, i, seen, events);
    var prefix := seen + events[..|events| - 1];
    ProcessAppend(prefix, rest, Start, hasCallback, parse);
    ProcessDone(rest, Process(prefix, Start, hasCallback, parse), hasCallback, parse);
  }

  // What the stream yields

  /** The kinds of the events, in order. */
  function Kinds(evs: seq<string>, parse: string -> Result<Json>): (ks: seq<EventKind>)
    ensures |ks| == |evs|
  {
    if evs == [] then [] else [Classify(evs[0], parse)] + Kinds(evs[1..], parse)
  }

  /** The delta texts, in order, up to the first `[DONE]`. */
  function Deltas(ks: seq<EventKind>): seq<string> {
    if ks == [] then []
    else if ks[0].DoneEvent? then []
    else if ks[0].DeltaEvent? && ks[0].c != [] then [ks[0].c] + Deltas(ks[1..])
    else Deltas(ks[1..])
  }

  lemma ProcessCons(evs: seq<string>, st: StreamState, hasCallback: bool, parse: string -> Result<Json>)
    requires evs != []
    ensures Process(evs, st, hasCallback, parse) == Process(evs[1..], Step(st, evs[0], hasCallback, parse), hasCallback, parse)
  {
    assert evs == [evs[0]] + evs[1..];
    ProcessAppend([evs[0]], evs[1..], st, hasCallback, parse);
    assert [evs[0]][..0] == [];
  }

  /** What events of kinds `ks` do to a state `st` before `[DONE]`, ending
      in `r`: they add their deltas to the text, the callback fires once, at
      the first delta, with the text up to it, and the state is done exactly
      when one of them is `[DONE]`. */
  predicate Accumulates(st: StreamState, r: StreamState, ks: seq<EventKind>, hasCallback: bool) {
    var d := Deltas(ks);
    && r.fullText == st.fullText + Concat(d)
    && r.firstFired == (st.firstFired || (hasCallback && d != []))
    && r.calls == st.calls + (if hasCallback && !st.firstFired && d != [] then [st.fullText + d[0]] else [])
    && r.done == (DoneEvent in ks)
  }

  lemma {:induction false} ProcessDeltas(evs: seq<string>, st: StreamState, hasCallback: bool,
                                         parse: string -> Result<Json>)
    requires !st.done
    ensures Accumulates(st, Process(evs, st, hasCallback, parse), Kinds(evs, parse), hasCallback)
    decreases |evs|
  {
    if evs == [] {
      NothingAccumulates(st, hasCallback);
    } else {
      var k := Classify(evs[0], parse);
      if k == DoneEvent {
        DoneFirst(evs, st, hasCallback, parse);
      } else {
        var st1 := Apply(st, k, hasCallback);
        ProcessDeltas(evs[1..], st1, hasCallback, parse);
        DeltaFirst(evs, st, k, st1, hasCallback, parse);
      }
    }
  }

  lemma NothingAccumulates(st: StreamState, hasCallback: bool)
    requires !st.done
    ensures Accumulates(st, st, [], hasCallback)
  {
    assert st.fullText + Concat([]) == st.fullText;
  }

  lemma DoneFirst(evs: seq<string>, st: StreamState, hasCallback: bool, parse: string -> Result<Json>)
    requires !st.done && evs != [] && Classify(evs[0], parse) == DoneEvent
    ensures Accumulates(st, Process(evs, st, hasCallback, parse), Kinds(evs, parse), hasCallback)
  {
    ProcessCons(evs, st, hasCallback, parse);
    ProcessDone(evs[1..], st.(done := true), hasCallback, parse);
    DoneAccumulates(st, Kinds(evs[1..], parse), hasCallback);
  }

  lemma DeltaFirst(evs: seq<string>, st: StreamState, k: EventKind, st1: StreamState, hasCallback: bool,
                   parse: string -> Result<Json>)
    requires !st.done && evs != [] && k == Classify(evs[0], parse) && k != DoneEvent
    requires st1 == Apply(st, k, hasCallback)
    requires Accumulates(st1, Process(evs[1..], st1, hasCallback, parse), Kinds(evs[1..], parse), hasCallback)
    ensures Accumulates(st, Process(evs, st, hasCallback, parse), Kinds(evs, parse), hasCallback)
  {
    ProcessCons(evs, st, hasCallback, parse);
    ApplyDeltas(st, k, hasCallback, Kinds(evs[1..], parse), Process(evs, st, hasCallback, parse));
  }

  lemma DoneAccumulates(st: StreamState, rest: seq<EventKind>, hasCallback: bool)
    ensures Accumulates(st, st.(done := true), [DoneEvent] + rest, hasCallback)
  {
    assert Deltas([DoneEvent] + rest) == [];
  }

  /** One event that is not `[DONE]`, in front of the rest. */
  lemma ApplyDeltas(st: StreamState, k: EventKind, hasCallback: bool, rest: seq<EventKind>, r: StreamState)
    requires !st.done && k != DoneEvent && (k.DeltaEvent? ==> k.c != [])
    requires Accumulates(Apply(st, k, hasCallback), r, rest, hasCallback)
    ensures Accumulates(st, r, [k] + rest, hasCallback)
  {
    var ks := [k] + rest;
    assert ks[0] == k && ks[1..] == rest;
    if k.DeltaEvent? {
      assert Deltas(ks) == [k.c] + Deltas(rest);
      ConcatCons(k.c, Deltas(rest));
    } else {
      assert Deltas(ks) == Deltas(rest);
    }
  }

  /** The streamed text is the concatenation of the deltas before `[DONE]`
      whenever there is one or a `[DONE]` came, and the callback is called
      at most once, at the first delta, with exactly that delta; so the
      raw-JSON fallback decides the result only when there is no delta. */
  lemma StreamText(s: string, hasCallback: bool, parse: string -> Result<Json>)
    ensures var ks := Kinds(CompleteEvents(s), parse);
            var d := Deltas(ks);
            var o := StreamOutcome(s, hasCallback, parse);
            && (d != [] || DoneEvent in ks ==> o.0 == JStr(Concat(d)))
            && o.1 == (if hasCallback && d != [] then [d[0]] else [])
  {
    var ks := Kinds(CompleteEvents(s), parse);
    ProcessDeltas(CompleteEvents(s), Start, hasCallback, parse);
    DeltasNonEmpty(ks);
    OutcomeText(Process(CompleteEvents(s), Start, hasCallback, parse), ks, hasCallback, parse);
  }

  lemma OutcomeText(st: StreamState, ks: seq<EventKind>, hasCallback: bool, parse: string -> Result<Json>)
    requires Accumulates(Start, st, ks, hasCallback)
    requires forall i :: 0 <= i < |Deltas(ks)| ==> Deltas(ks)[i] != []
    ensures var d := Deltas(ks);
            var o := Outcome(st, parse);
            && (d != [] || DoneEvent in ks ==> o.0 == JStr(Concat(d)))
            && o.1 == (if hasCallback && d != [] then [d[0]] else [])
  {
    var d := Deltas(ks);
    assert st.fullText == Concat(d) by { assert Start.fullText + Concat(d) == Concat(d); }
    assert st.calls == (if hasCallback && d != [] then [d[0]] else []) by {
      var added := if hasCallback && d != [] then [Start.fullText + d[0]] else [];
      assert Start.calls + added == added;
      if d != [] {
        assert Start.fullText + d[0] == d[0];
      }
    }
    if d != [] {
      assert Concat(d) == d[0] + Concat(d[1..]);
    }
  }

  /** Every delta text is non-empty. */
  lemma {:induction false} DeltasNonEmpty(ks: seq<EventKind>)
    ensures forall i :: 0 <= i < |Deltas(ks)| ==> Deltas(ks)[i] != []
  {
    if ks != [] && !ks[0].DoneEvent? {
      DeltasNonEmpty(ks[1..]);
    }
  }

  // A body that is not an event stream

  /** Without a blank line the whole body is one unfinished event. */
  lemma {:induction false} EventsNoSeparator(s: string)
    requires !Contains(s, "\n\n")
    ensures Events(s) == [s]
    decreases |s|
  {
    if s != [] {
      EventsNoSeparator(s[1..]);
      assert [s[0]] + s[1..] == s;
    }
  }

  /** As written: a body with no blank line, such as the plain JSON of a
      server that ignores `stream: true`, stays in the buffer, so neither
      the deltas nor the raw-JSON fallback are ever looked at and the text
      is empty. */
  lemma PlainBodyIgnored(s: string, hasCallback: bool, parse: string -> Result<Json>)
    requires !Contains(s, "\n\n")
    ensures StreamOutcome(s, hasCallback, parse) == (JStr(""), [])
  {
    EventsNoSeparator(s);
    assert CompleteEvents(s) == [];
  }

  /** The evidently intended reading: the buffer left at the end of the body
      is handled as a last event. */
  function IntendedStreamOutcome(s: string, hasCallback: bool, parse: string -> Result<Json>): (Json, seq<string>) {
    Outcome(Process(Events(s), Start, hasCallback, parse), parse)
  }

  /** With the last event handled, a plain JSON body yields its
      `choices[0].message.content`. */
  lemma IntendedPlainJson(s: string, hasCallback: bool, parse: string -> Result<Json>)
    requires !Contains(s, "\n\n") && DataLine(s).None? && StartsWith(Trim(s), "{") && parse(Trim(s)).Ok?
    ensures IntendedStreamOutcome(s, hasCallback, parse) == (MessageContent(parse(Trim(s)).value), [])
  {
    EventsNoSeparator(s);
    ProcessSnoc([], s, Start, hasCallback, parse);
    assert [] + [s] == [s];
    assert Classify(s, parse) == FallbackEvent(Trim(s));
  }

  /** With the last buffer handled as well, the text is still the
      concatenation of the deltas before `[DONE]`, and the callback is still
      called at most once, at the first delta. */
  lemma IntendedStreamText(s: string, hasCallback: bool, parse: string -> Result<Json>)
    ensures var ks := Kinds(Events(s), parse);
            var d := Deltas(ks);
            var o := IntendedStreamOutcome(s, hasCallback, parse);
            && (d != [] || DoneEvent in ks ==> o.0 == JStr(Concat(d)))
            && o.1 == (if hasCallback && d != [] then [d[0]] else [])
  {
    var ks := Kinds(Events(s), parse);
    ProcessDeltas(Events(s), Start, hasCallback, parse);
    DeltasNonEmpty(ks);
    OutcomeText(Process(Events(s), Start, hasCallback, parse), ks, hasCallback, parse);
  }

  /** For a body that ends with a complete event the correction changes nothing. */
  lemma IntendedAgrees(s: string, hasCallback: bool, parse: string -> Result<Json>)
    requires Events(s)[|Events(s)| - 1] == ""
    ensures IntendedStreamOutcome(s, hasCallback, parse) == StreamOutcome(s, hasCallback, parse)
  {
    var c := CompleteEvents(s);
    LastEventEmpty(s);
    ProcessSnoc(c, "", Start, hasCallback, parse);
    EmptyEventIgnored(Process(c, Start, hasCallback, parse), hasCallback, parse);
  }

  lemma LastEventEmpty(s: string)
    requires Events(s)[|Events(s)| - 1] == ""
    ensures Events(s) == CompleteEvents(s) + [""]
  {
    var e := Events(s);
    assert e == e[..|e| - 1] + [e[|e| - 1]];
  }

  /** An empty event changes nothing. */
  lemma EmptyEventIgnored(st: StreamState, hasCallback: bool, parse: string -> Result<Json>)
    ensures Step(st, "", hasCallback, parse) == st
  {
    ClassifyEmpty(parse);
  }

  /** An empty event is ignored. */
  lemma ClassifyEmpty(parse: string -> Result<Json>)
    ensures Classify("", parse) == IgnoredEvent
  {
    assert Trim("") == "";
    assert SplitOn("", '\n') == [""];
  }

  // Settings, requests and answers

  /** `llmSettings?.<name>` */
  function Field(settings: Option<Json>, name: string): Option<Json> {
    if settings.Some? then Property(settings.value, name) else None
  }

  /** `llmSettings?.modelType || 'custom'` */
  function ModelType(settings: Option<Json>): (mt: Json)
    ensures JsTruthy(mt)
    ensures Field(settings, "modelType").Some? && JsTruthy(Field(settings, "modelType").value) ==>
              mt == Field(settings, "modelType").value
    ensures Field(settings, "modelType").None? || !JsTruthy(Field(settings, "modelType").value) ==>
              mt == JStr("custom")
  {
    var m := Field(settings, "modelType");
    if m.Some? && JsTruthy(m.value) then m.value else JStr("custom")
  }

  predicate KnownType(mt: Json) {
    mt == JStr("custom") || mt == JStr("gemini") || mt == JStr("qwen")
  }

  /** `!!(v && String(v).trim())` */
  predicate Filled(v: Option<Json>) {
    v.Some? && JsTruthy(v.value) && Trim(JsString(v.value)) != ""
  }

  /** `isLlmConfigured(llmSettings)`: an object whose model type, `custom`
      when it is missing, is one of the three, with the fields that type
      needs filled in. */
  predicate IsLlmConfigured(settings: Option<Json>) {
    if settings.None? || !(settings.value.JObj? || settings.value.JArr?) then false
    else
      var mt := ModelType(settings);
      if mt == JStr("custom") then Filled(Field(settings, "endpoint")) && Filled(Field(settings, "apiKey"))
      else if mt == JStr("gemini") || mt == JStr("qwen") then Filled(Field(settings, "apiKey"))
      else false
  }

  /** `llmSettings?.<name>?.trim()`: `None` for `undefined` and `null`; a
      value that is not a string has no `trim` to call. */
  function TrimmedField(settings: Option<Json>, name: string): (r: Result<Option<string>>)
    ensures r.Ok? <==> Readable(Field(settings, name))
  {
    var v := Field(settings, name);
    if v.None? || v.value.JNull? then Ok(None)
    else if v.value.JStr? then Ok(Some(Trim(v.value.s)))
    else Err("llmSettings?." + name + "?.trim is not a function")
  }

  /** A field that reads without error: absent, `null` or a string. */
  predicate Readable(v: Option<Json>) {
    v.None? || v.value.JNull? || v.value.JStr?
  }

  /** `!value` for a trimmed optional string. */
  predicate Blank(v: Option<string>) {
    v.None? || v.value == ""
  }

  /** `model || defaultModel` */
  function ModelOr(v: Option<string>, default: string): (m: string)
    ensures Blank(v) ==> m == default
    ensures !Blank(v) ==> m == v.value
  {
    if Blank(v) then default else v.value
  }

  // `LLM_MODEL_CONFIG`
  const CustomDefaultModel := "gpt-3.5-turbo"
  const GeminiDefaultModel := "gemini-1.5-flash"
  const QwenDefaultModel := "qwen3-max"
  const QwenEndpoint := "https://dashscope.aliyuncs.com/compatible-mode/v1/chat/completions"

  datatype Request = Request(url: string, headers: Dict<string, string>, body: Json)

  function ChatMessage(role: string, content: string): Json {
    JObj([("role", JStr(role)), ("content", JStr(content))])
  }

  /** `{ model, messages, ...(useStream && { stream: true }) }` */
  function ChatBody(model: string, system: string, user: string, useStream: bool): Json {
    JObj([("model", JStr(model)), ("messages", JArr([ChatMessage("system", system), ChatMessage("user", user)]))] +
         (if useStream then [("stream", JBool(true))] else []))
  }

  function BearerHeaders(apiKey: string): Dict<string, string> {
    [("Content-Type", "application/json"), ("Authorization", "Bearer " + apiKey)]
  }

  /** The validation and request of `invokeCustom`: the three fields are
      read, in order, before they are validated. */
  function CustomRequest(settings: Option<Json>, system: string, user: string, useStream: bool): Result<Request> {
    var endpoint := TrimmedField(settings, "endpoint");
    var apiKey := TrimmedField(settings, "apiKey");
    var model := TrimmedField(settings, "model");
    if endpoint.Err? then Err(endpoint.error)
    else if apiKey.Err? then Err(apiKey.error)
    else if model.Err? then Err(model.error)
    else if Blank(endpoint.value) || Blank(apiKey.value) then Err("LLM_CUSTOM_REQUIRED")
    else
      Ok(Request(endpoint.value.value, BearerHeaders(apiKey.value.value),
                 ChatBody(ModelOr(model.value, CustomDefaultModel), system, user, useStream)))
  }

  function GeminiUrl(model: string, apiKey: string): string {
    "https://generativelanguage.googleapis.com/v1beta/models/" + model + ":generateContent?key=" + apiKey
  }

  /** The validation and request of `invokeGemini`: one user message with
      the system text, a rule and the user text. */
  function GeminiRequest(settings: Option<Json>, system: string, user: string): Result<Request> {
    var apiKey := TrimmedField(settings, "apiKey");
    var model := TrimmedField(settings, "model");
    if apiKey.Err? then Err(apiKey.error)
    else if model.Err? then Err(model.error)
    else if Blank(apiKey.value) then Err("LLM_GEMINI_REQUIRED")
    else
      var combined := system + "\n\n---\n\n" + user;
      Ok(Request(GeminiUrl(ModelOr(model.value, GeminiDefaultModel), apiKey.value.value),
                 [("Content-Type", "application/json")], GeminiBody(combined)))
  }

  /** `{ contents: [{ role: 'user', parts: [{ text }] }] }` */
  function GeminiBody(text: string): Json {
    JObj([("contents", JArr([JObj([("role", JStr("user")), ("parts", JArr([JObj([("text", JStr(text))])]))])]))])
  }

  /** The validation and request of `invokeQwen`, sent to the fixed endpoint. */
  function QwenRequest(settings: Option<Json>, system: string, user: string, useStream: bool): Result<Request> {
    var apiKey := TrimmedField(settings, "apiKey");
    var model := TrimmedField(settings, "model");
    if apiKey.Err? then Err(apiKey.error)
    else if model.Err? then Err(model.error)
    else if Blank(apiKey.value) then Err("LLM_QWEN_REQUIRED")
    else Ok(Request(QwenEndpoint, BearerHeaders(apiKey.value.value),
                    ChatBody(ModelOr(model.value, QwenDefaultModel), system, user, useStream)))
  }

  /** With settings whose fields can be read, a request is refused exactly
      when a required field is blank, and the refusal is the type's own
      message key. */
  lemma RequiredTexts(settings: Option<Json>, system: string, user: string, useStream: bool)
    requires Readable(Field(settings, "endpoint")) && Readable(Field(settings, "apiKey")) && Readable(Field(settings, "model"))
    ensures CustomRequest(settings, system, user, useStream).Err? <==>
            Blank(TrimmedField(settings, "endpoint").value) || Blank(TrimmedField(settings, "apiKey").value)
    ensures CustomRequest(settings, system, user, useStream).Err? ==>
            CustomRequest(settings, system, user, useStream).error == "LLM_CUSTOM_REQUIRED"
    ensures GeminiRequest(settings, system, user).Err? <==> Blank(TrimmedField(settings, "apiKey").value)
    ensures GeminiRequest(settings, system, user).Err? ==>
            GeminiRequest(settings, system, user).error == "LLM_GEMINI_REQUIRED"
    ensures QwenRequest(settings, system, user, useStream).Err? <==> Blank(TrimmedField(settings, "apiKey").value)
    ensures QwenRequest(settings, system, user, useStream).Err? ==>
            QwenRequest(settings, system, user, useStream).error == "LLM_QWEN_REQUIRED"
  {
  }

  /** What `fetch` resolves to: the body as the chunks the reader delivers. */
  datatype Response = Response(ok: bool, status: int, chunks: seq<string>)

  /** What an invocation does: its result, the request it sent, and the
      text received at each call of `onFirstChunk`. */
  datatype Invocation = Invocation(result: Result<Json>, sent: Option<Request>, calls: seq<string>)

  function HttpError(res: Response): string {
    "HTTP " + IntToString(res.status) + ": " + Concat(res.chunks)
  }

  /** `data?.<path>` with `null` and `undefined` rejected as `LLM_PARSE_EMPTY`. */
  function TextAt(data: Result<Json>, path: seq<string>): (r: Result<Json>)
    ensures data.Ok? ==> (r == Err("LLM_PARSE_EMPTY") <==> Path(data.value, path).None? || Path(data.value, path).value.JNull?)
    ensures r.Ok? ==> data.Ok? && Some(r.value) == Path(data.value, path) && !r.value.JNull?
  {
    if data.Err? then Err(data.error)
    else
      var t := Path(data.value, path);
      if t.None? || t.value.JNull? then Err("LLM_PARSE_EMPTY") else Ok(t.value)
  }

  /** The answer of an OpenAI-style chat endpoint (`invokeCustom`, `invokeQwen`). */
  function ChatAnswer(req: Request, res: Response, useStream: bool, hasCallback: bool,
                      parse: string -> Result<Json>): Invocation {
    if !res.ok then Invocation(Err(HttpError(res)), Some(req), [])
    else if useStream then
      var o := StreamOutcome(Concat(res.chunks), hasCallback, parse);
      Invocation(Ok(o.0), Some(req), o.1)
    else Invocation(TextAt(parse(Concat(res.chunks)), ["choices", "0", "message", "content"]), Some(req), [])
  }

  function InvokeCustom(settings: Option<Json>, system: string, user: string, stream: bool, hasCallback: bool,
                        fetch: Request -> Response, parse: string -> Result<Json>): Invocation {
    var useStream := stream && hasCallback;
    var req := CustomRequest(settings, system, user, useStream);
    if req.Err? then Invocation(Err(req.error), None, [])
    else ChatAnswer(req.value, fetch(req.value), useStream, hasCallback, parse)
  }

  function InvokeGemini(settings: Option<Json>, system: string, user: string,
                        fetch: Request -> Response, parse: string -> Result<Json>): Invocation {
    var req := GeminiRequest(settings, system, user);
    if req.Err? then Invocation(Err(req.error), None, [])
    else
      var res := fetch(req.value);
      if !res.ok then Invocation(Err(HttpError(res)), Some(req.value), [])
      else Invocation(TextAt(parse(Concat(res.chunks)), ["candidates", "0", "content", "parts", "0", "text"]),
                      Some(req.value), [])
  }

  function InvokeQwen(settings: Option<Json>, system: string, user: string, stream: bool, hasCallback: bool,
                      fetch: Request -> Response, parse: string -> Result<Json>): Invocation {
    var useStream := stream && hasCallback;
    var req := QwenRequest(settings, system, user, useStream);
    if req.Err? then Invocation(Err(req.error), None, [])
    else ChatAnswer(req.value, fetch(req.value), useStream, hasCallback, parse)
  }

  /** `invokeLlm({ llmSettings, systemContent, userContent }, { stream, onFirstChunk })` */
  function InvokeLlm(settings: Option<Json>, system: string, user: string, stream: bool, hasCallback: bool,
                     fetch: Request -> Response, parse: string -> Result<Json>): Invocation {
    var mt := ModelType(settings);
    if mt == JStr("gemini") then InvokeGemini(settings, system, user, fetch, parse)
    else if mt == JStr("qwen") then InvokeQwen(settings, system, user, stream, hasCallback, fetch, parse)
    else InvokeCustom(settings, system, user, stream, hasCallback, fetch, parse)
  }

  // What the settings decide

  /** For a field that reads without error, `isLlmConfigured`'s test and the
      adapter's `!value.trim()` agree. */
  lemma FilledIffNotBlank(settings: Option<Json>, name: string)
    requires Readable(Field(settings, name))
    ensures TrimmedField(settings, name).Ok?
    ensures Filled(Field(settings, name)) <==> !Blank(TrimmedField(settings, name).value)
  {
    var v := Field(settings, name);
    if v.Some? && v.value.JStr? {
      assert JsString(v.value) == v.value.s;
      if v.value.s == "" {
        assert Trim(v.value.s) == "";
      }
    } else {
      assert v.None? || v.value.JNull?;
    }
  }

  /** The request `invokeLlm` sends for the settings' model type, or the
      error it stops with before sending. */
  function RequestFor(settings: Option<Json>, system: string, user: string, stream: bool, hasCallback: bool)
    : Result<Request>
  {
    var mt := ModelType(settings);
    if mt == JStr("gemini") then GeminiRequest(settings, system, user)
    else if mt == JStr("qwen") then QwenRequest(settings, system, user, stream && hasCallback)
    else CustomRequest(settings, system, user, stream && hasCallback)
  }

  /** `invokeLlm` sends the request of its model type and nothing when that
      fails, rejecting with the failure. */
  lemma InvokeSends(settings: Option<Json>, system: string, user: string, stream: bool, hasCallback: bool,
                    fetch: Request -> Response, parse: string -> Result<Json>)
    ensures var r := InvokeLlm(settings, system, user, stream, hasCallback, fetch, parse);
            var q := RequestFor(settings, system, user, stream, hasCallback);
            && (q.Ok? ==> r.sent == Some(q.value))
            && (q.Err? ==> r == Invocation(Err(q.error), None, []))
  {
    var mt := ModelType(settings);
    if mt == JStr("gemini") {
      GeminiSends(settings, system, user, fetch, parse);
    } else if mt == JStr("qwen") {
      QwenSends(settings, system, user, stream, hasCallback, fetch, parse);
    } else {
      CustomSends(settings, system, user, stream, hasCallback, fetch, parse);
    }
  }

  lemma GeminiSends(settings: Option<Json>, system: string, user: string,
                    fetch: Request -> Response, parse: string -> Result<Json>)
    ensures var r := InvokeGemini(settings, system, user, fetch, parse);
            var q := GeminiRequest(settings, system, user);
            && (q.Ok? ==> r.sent == Some(q.value))
            && (q.Err? ==> r == Invocation(Err(q.error), None, []))
  {
  }

  lemma QwenSends(settings: Option<Json>, system: string, user: string, stream: bool, hasCallback: bool,
                  fetch: Request -> Response, parse: string -> Result<Json>)
    ensures var r := InvokeQwen(settings, system, user, stream, hasCallback, fetch, parse);
            var q := QwenRequest(settings, system, user, stream && hasCallback);
            && (q.Ok? ==> r.sent == Some(q.value))
            && (q.Err? ==> r == Invocation(Err(q.error), None, []))
  {
    var q := QwenRequest(settings, system, user, stream && hasCallback);
    if q.Ok? {
      ChatAnswerSends(q.value, fetch(q.value), stream && hasCallback, hasCallback, parse);
    }
  }

  lemma CustomSends(settings: Option<Json>, system: string, user: string, stream: bool, hasCallback: bool,
                    fetch: Request -> Response, parse: string -> Result<Json>)
    ensures var r := InvokeCustom(settings, system, user, stream, hasCallback, fetch, parse);
            var q := CustomRequest(settings, system, user, stream && hasCallback);
            && (q.Ok? ==> r.sent == Some(q.value))
            && (q.Err? ==> r == Invocation(Err(q.error), None, []))
  {
    var q := CustomRequest(settings, system, user, stream && hasCallback);
    if q.Ok? {
      ChatAnswerSends(q.value, fetch(q.value), stream && hasCallback, hasCallback, parse);
    }
  }

  lemma ChatAnswerSends(req: Request, res: Response, useStream: bool, hasCallback: bool, parse: string -> Result<Json>)
    ensures ChatAnswer(req, res, useStream, hasCallback, parse).sent == Some(req)
  {
  }

  /** For the three model types, and fields that are strings or missing,
      `isLlmConfigured` holds exactly when `invokeLlm` gets as far as
      sending its request. */
  lemma ConfiguredIffRequest(settings: Option<Json>, system: string, user: string, stream: bool, hasCallback: bool)
    requires settings.Some? && settings.value.JObj? && KnownType(ModelType(settings))
    requires Readable(Field(settings, "endpoint")) && Readable(Field(settings, "apiKey")) && Readable(Field(settings, "model"))
    ensures IsLlmConfigured(settings) <==> RequestFor(settings, system, user, stream, hasCallback).Ok?
  {
    FilledIffNotBlank(settings, "endpoint");
    FilledIffNotBlank(settings, "apiKey");
    FilledIffNotBlank(settings, "model");
  }

  /** A model type other than the three is never configured, yet
      `invokeLlm` goes ahead with it as with `custom`. */
  lemma UnknownTypeAsCustom(settings: Option<Json>, system: string, user: string, stream: bool, hasCallback: bool,
                            fetch: Request -> Response, parse: string -> Result<Json>)
    requires !KnownType(ModelType(settings))
    ensures !IsLlmConfigured(settings)
    ensures RequestFor(settings, system, user, stream, hasCallback) == CustomRequest(settings, system, user, stream && hasCallback)
    ensures InvokeLlm(settings, system, user, stream, hasCallback, fetch, parse) ==
            InvokeCustom(settings, system, user, stream, hasCallback, fetch, parse)
  {
  }

  /** Missing settings and values that are no objects are never configured. */
  lemma NonObjectNotConfigured(settings: Option<Json>)
    requires settings.None? || !(settings.value.JObj? || settings.value.JArr?)
    ensures !IsLlmConfigured(settings)
  {
  }

  /** Where the request goes: Gemini's URL for `gemini`, DashScope's
      endpoint for `qwen`, and the trimmed, non-empty endpoint setting for
      every other type. */
  lemma RequestTarget(settings: Option<Json>, system: string, user: string, stream: bool, hasCallback: bool)
    ensures var q := RequestFor(settings, system, user, stream, hasCallback);
            var mt := ModelType(settings);
            var e := Field(settings, "endpoint");
            q.Ok? ==>
              && (mt == JStr("gemini") ==> StartsWith(q.value.url, "https://generativelanguage.googleapis.com/v1beta/models/"))
              && (mt == JStr("qwen") ==> q.value.url == QwenEndpoint)
              && (mt != JStr("gemini") && mt != JStr("qwen") ==>
                    e.Some? && e.value.JStr? && q.value.url == Trim(e.value.s) && q.value.url != "")
  {
    var q := RequestFor(settings, system, user, stream, hasCallback);
    if q.Ok? && ModelType(settings) == JStr("gemini") {
      var model := ModelOr(TrimmedField(settings, "model").value, GeminiDefaultModel);
      var key := TrimmedField(settings, "apiKey").value.value;
      assert q.value.url == GeminiUrl(model, key);
      GeminiUrlPrefix(model, key);
    }
  }

  lemma GeminiUrlPrefix(model: string, apiKey: string)
    ensures StartsWith(GeminiUrl(model, apiKey), "https://generativelanguage.googleapis.com/v1beta/models/")
  {
    var p := "https://generativelanguage.googleapis.com/v1beta/models/";
    assert GeminiUrl(model, apiKey) == p + (model + ":generateContent?key=" + apiKey);
  }

  /** The model type's default model is used when the model setting is
      missing or blank, and the trimmed setting otherwise. */
  lemma ModelChosen(settings: Option<Json>, system: string, user: string, stream: bool, hasCallback: bool)
    ensures var q := RequestFor(settings, system, user, stream, hasCallback);
            var mt := ModelType(settings);
            var m := TrimmedField(settings, "model");
            q.Ok? && mt != JStr("gemini") ==>
              && m.Ok?
              && q.value.body.JObj?
              && Lookup(q.value.body.fields, "model") ==
                 Some(JStr(ModelOr(m.value, if mt == JStr("qwen") then QwenDefaultModel else CustomDefaultModel)))
  {
    var q := RequestFor(settings, system, user, stream, hasCallback);
    var mt := ModelType(settings);
    if q.Ok? && mt != JStr("gemini") {
      var m := ModelOr(TrimmedField(settings, "model").value, if mt == JStr("qwen") then QwenDefaultModel else CustomDefaultModel);
      assert q.value.body == ChatBody(m, system, user, stream && hasCallback);
      ChatBodyKeys(m, system, user, stream && hasCallback);
    }
  }

  /** Streaming is asked for, by `stream: true` in the body, exactly when
      both `stream` and `onFirstChunk` are given, and Gemini never streams. */
  lemma StreamRequested(settings: Option<Json>, system: string, user: string, stream: bool, hasCallback: bool)
    ensures var q := RequestFor(settings, system, user, stream, hasCallback);
            var mt := ModelType(settings);
            && (q.Ok? && mt != JStr("gemini") ==> q.value.body.JObj? && (HasKey(q.value.body.fields, "stream") <==> stream && hasCallback))
            && (q.Ok? && mt == JStr("gemini") ==> q.value.body.JObj? && !HasKey(q.value.body.fields, "stream"))
  {
    var q := RequestFor(settings, system, user, stream, hasCallback);
    var mt := ModelType(settings);
    if q.Ok? && mt != JStr("gemini") {
      var m := ModelOr(TrimmedField(settings, "model").value, if mt == JStr("qwen") then QwenDefaultModel else CustomDefaultModel);
      assert q.value.body == ChatBody(m, system, user, stream && hasCallback);
      ChatBodyKeys(m, system, user, stream && hasCallback);
    } else if q.Ok? {
      assert q.value.body == GeminiBody(system + "\n\n---\n\n" + user);
      GeminiBodyKeys(system + "\n\n---\n\n" + user);
    }
  }

  lemma GeminiBodyKeys(text: string)
    ensures GeminiBody(text).JObj? && !HasKey(GeminiBody(text).fields, "stream")
  {
    var f := GeminiBody(text).fields;
    assert f[0].0 == "contents" && f[0].0 != "stream";
    assert f[1..] == [];
    assert Lookup(f[1..], "stream") == None;
  }

  /** The keys of a chat body: `model` first, and `stream` only when streaming. */
  lemma ChatBodyKeys(model: string, system: string, user: string, useStream: bool)
    ensures ChatBody(model, system, user, useStream).JObj?
    ensures Lookup(ChatBody(model, system, user, useStream).fields, "model") == Some(JStr(model))
    ensures HasKey(ChatBody(model, system, user, useStream).fields, "stream") <==> useStream
  {
    var f := ChatBody(model, system, user, useStream).fields;
    assert f[0].0 == "model" && f[1].0 == "messages";
    if useStream {
      assert f[2] == ("stream", JBool(true)) && f[1..][1..] == f[2..];
      assert Lookup(f[2..], "stream").Some?;
      assert Lookup(f[1..], "stream").Some?;
    } else {
      assert f[1..][1..] == [];
      assert Lookup(f[1..], "stream") == None;
    }
  }

  /** `onFirstChunk` is called at most once, only for a streamed request
      whose answer has a success status. */
  lemma CallbackOnce(settings: Option<Json>, system: string, user: string, stream: bool, hasCallback: bool,
                     fetch: Request -> Response, parse: string -> Result<Json>)
    ensures var r := InvokeLlm(settings, system, user, stream, hasCallback, fetch, parse);
            && |r.calls| <= 1
            && (r.calls != [] ==> stream && hasCallback && ModelType(settings) != JStr("gemini") && r.sent.Some? &&
                                  fetch(r.sent.value).ok)
  {
    var mt := ModelType(settings);
    var q := RequestFor(settings, system, user, stream, hasCallback);
    InvokeSends(settings, system, user, stream, hasCallback, fetch, parse);
    if mt != JStr("gemini") && q.Ok? {
      assert InvokeLlm(settings, system, user, stream, hasCallback, fetch, parse) ==
             ChatAnswer(q.value, fetch(q.value), stream && hasCallback, hasCallback, parse);
      ChatAnswerCalls(q.value, fetch(q.value), stream && hasCallback, hasCallback, parse);
    }
  }

  /** The answer of a chat endpoint calls back only when streamed, and once. */
  lemma ChatAnswerCalls(req: Request, res: Response, useStream: bool, hasCallback: bool, parse: string -> Result<Json>)
    ensures var r := ChatAnswer(req, res, useStream, hasCallback, parse);
            && r.sent == Some(req)
            && |r.calls| <= 1
            && (r.calls != [] ==> useStream && hasCallback && res.ok)
            && (!res.ok ==> r.result == Err(HttpError(res)))
  {
    if res.ok && useStream {
      StreamText(Concat(res.chunks), hasCallback, parse);
    }
  }

  /** An answer with an error status is rejected with the status and the body. */
  lemma HttpErrorRejected(settings: Option<Json>, system: string, user: string, stream: bool, hasCallback: bool,
                          fetch: Request -> Response, parse: string -> Result<Json>)
    ensures var r := InvokeLlm(settings, system, user, stream, hasCallback, fetch, parse);
            r.sent.Some? && !fetch(r.sent.value).ok ==> r.result == Err(HttpError(fetch(r.sent.value))) && r.calls == []
  {
    var mt := ModelType(settings);
    var q := RequestFor(settings, system, user, stream, hasCallback);
    InvokeSends(settings, system, user, stream, hasCallback, fetch, parse);
    if mt != JStr("gemini") && q.Ok? {
      assert InvokeLlm(settings, system, user, stream, hasCallback, fetch, parse) ==
             ChatAnswer(q.value, fetch(q.value), stream && hasCallback, hasCallback, parse);
      ChatAnswerCalls(q.value, fetch(q.value), stream && hasCallback, hasCallback, parse);
    }
  }
}
