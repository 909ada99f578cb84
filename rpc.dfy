/**
 * The JSON-RPC 2.0 side shared by the three stdio servers: the responses
 * they write, the fixed `initialize` metadata, and the per-chunk line loop.
 * A chunk is trimmed and split on newlines; blank lines are skipped; each
 * other line takes one step, which writes zero or more responses and may
 * abandon the rest of the chunk.
 */
module Rpc {
  import opened Base
  import opened Json
  import opened Text
  import opened Mcp

  const JsonRpcVersion := "2.0"
  const ProtocolVersion := "2024-11-05"
  const ServerName := "whippy-ai-mcp-dxt"
  const ServerVersion := "1.0.0"

  const ParseErrorCode := -32700
  const InternalErrorCode := -32603
  const MethodNotFoundCode := -32601

  datatype RpcError = RpcError(code: int, message: string)

  /** How a listing presents a tool's schema: as declared, or wrapped as one object schema. */
  datatype SchemaView = Raw(fields: seq<Field>) | ObjectSchema(properties: seq<Field>)

  /** `{ name, description, inputSchema }`. */
  datatype ToolInfo = ToolInfo(name: string, description: string, inputSchema: SchemaView)

  /** What a `result` member carries. */
  datatype Payload =
    | Initialized(protocolVersion: string, listChanged: bool, serverName: string, serverVersion: string)
    | ToolList(tools: seq<ToolInfo>)
    | Content(text: string)

  /** A response has a `result` or an `error`, never both. */
  datatype Body = Result(payload: Payload) | Error(error: RpcError)

  /** A response as written to stdout; `id` is absent when the request had none. */
  datatype Response = Response(jsonrpc: string, id: Option<Json>, body: Body)

  /** The answer to `initialize`. */
  function InitializeResponse(id: Option<Json>): (r: Response)
    ensures r.jsonrpc == JsonRpcVersion && r.id == id
    ensures r.body == Result(Initialized("2024-11-05", true, "whippy-ai-mcp-dxt", "1.0.0"))
  {
    Response(JsonRpcVersion, id, Result(Initialized(ProtocolVersion, true, ServerName, ServerVersion)))
  }

  /** What the data handlers write when a line does not parse: `id` is `null`. */
  const ParseError := Response(JsonRpcVersion, Some(JNull), Error(RpcError(ParseErrorCode, "Parse error")))

  /** `{ content: [{ type: 'text', text: JSON.stringify(result, null, 2) }] }` for a handler's reply. */
  function CallResult(id: Option<Json>, reply: ToolReply, render: Renderer): Response {
    Response(JsonRpcVersion, id, Result(Content(render(ReplyJson(reply)))))
  }

  function Failure(id: Option<Json>, code: int, message: string): Response {
    Response(JsonRpcVersion, id, Error(RpcError(code, message)))
  }

  /** `Tool ${name} not found`. */
  function NotFound(name: Option<Json>): string {
    "Tool " + Interpolate(name) + " not found"
  }

  /** `{ description, schema, handler }`: what a server keeps for a tool name. */
  datatype Entry = Entry(description: string, schema: seq<Field>, handler: Handler)

  /** Named entries in order: a name answers with its first entry. */
  type Table = seq<(string, Entry)>

  predicate DistinctNames(table: Table) {
    forall i, j :: 0 <= i < j < |table| ==> table[i].0 != table[j].0
  }

  /** The index of the first entry for `name`, or the table's length when there is none. */
  function Position(table: Table, name: string): (p: nat)
    ensures p <= |table|
    ensures p < |table| ==> table[p].0 == name
    ensures forall j :: 0 <= j < p ==> table[j].0 != name
  {
    if table == [] then 0
    else if table[0].0 == name then 0
    else 1 + Position(table[1..], name)
  }

  /** `Map.prototype.get` on a map with these entries; `Array.prototype.find` on a list of them. */
  function At(table: Table, name: string): (e: Option<Entry>)
    ensures e.Some? <==> exists k :: 0 <= k < |table| && table[k].0 == name
    ensures e.Some? ==> (name, e.value) in table
  {
    var p := Position(table, name);
    if p < |table| then Some(table[p].1) else None
  }

  function EntryOf(tool: ToolDef): Entry {
    Entry(tool.description, tool.schema, tool.handler)
  }

  /** A tool list seen as named entries, in its own order. */
  function TableOf(tools: seq<ToolDef>): (table: Table)
    ensures |table| == |tools|
    ensures forall k :: 0 <= k < |tools| ==> table[k] == (tools[k].name, EntryOf(tools[k]))
  {
    seq(|tools|, k requires 0 <= k < |tools| => (tools[k].name, EntryOf(tools[k])))
  }

  /** The `tools/list` result: one `{ name, description, inputSchema }` per entry, schema as declared. */
  function Listing(table: Table): (tools: seq<ToolInfo>)
    ensures |tools| == |table|
    ensures forall k :: 0 <= k < |table| ==> tools[k] == ToolInfo(table[k].0, table[k].1.description, Raw(table[k].1.schema))
  {
    seq(|table|, k requires 0 <= k < |table| => ToolInfo(table[k].0, table[k].1.description, Raw(table[k].1.schema)))
  }

  /** Whether `v` is the string `s`, as `===` decides it. */
  predicate IsText(v: Option<Json>, s: string) {
    v == Some(JStr(s))
  }

  /** What `tools/call` throws when its `params` are nullish. */
  function ParamsFault(params: Option<Json>): Fault
    requires Nullish(params)
  {
    DestructureFault("name", "params", params)
  }

  /**
   * `handleRequest` of the two extension servers. Destructuring the request
   * happens before the `try`, so a `null` request makes the call reject
   * (`None`); every failure inside the `try` becomes a -32603 error with the
   * request's id. The handler is called with its arguments only: no context.
   */
  function Dispatch(request: Json, table: Table, world: World, render: Renderer): (r: Option<Response>)
    ensures r.None? <==> request.JNull?
    ensures r.Some? ==> r.value.jsonrpc == JsonRpcVersion && r.value.id == Get(request, "id")
    ensures r.Some? && r.value.body.Error? ==> r.value.body.error.code == InternalErrorCode
    ensures r.Some? && r.value.body.Result? && r.value.body.payload.Initialized? <==> IsText(Get(request, "method"), "initialize")
    ensures r.Some? && r.value.body.Result? && r.value.body.payload.ToolList? <==> IsText(Get(request, "method"), "tools/list")
    ensures r.Some? && r.value.body.Result? && r.value.body.payload.Content? ==> IsText(Get(request, "method"), "tools/call")
  {
    if request.JNull? then None
    else
      var requested := Get(request, "method");
      var params := Get(request, "params");
      var id := Get(request, "id");
      Some(
        if IsText(requested, "initialize") then InitializeResponse(id)
        else if IsText(requested, "tools/list") then Response(JsonRpcVersion, id, Result(ToolList(Listing(table))))
        else if IsText(requested, "tools/call") then
          if Nullish(params) then Failure(id, InternalErrorCode, FaultMessage(ParamsFault(params)))
          else
            var name := Member(params, "name");
            var entry := if name.Some? && name.value.JStr? then At(table, name.value.s) else None;
            if entry.None? then Failure(id, InternalErrorCode, NotFound(name))
            else
              match entry.value.handler(Member(params, "arguments"), None, world)
              case Resolved(reply) => CallResult(id, reply, render)
              case Rejected(f) => Failure(id, InternalErrorCode, FaultMessage(f))
        else Failure(id, InternalErrorCode, "Unknown method: " + Interpolate(requested)))
  }

  /**
   * One line of the extension servers' data handler: a line that does not
   * parse, or a request whose handling rejects, lands in the `catch` that
   * writes the parse error and abandons the chunk.
   */
  function ExtensionStep(table: Table, parse: string -> Option<Json>, world: World, render: Renderer): string -> Step {
    line =>
      match parse(line)
      case None => Halt([ParseError])
      case Some(request) =>
        var r := Dispatch(request, table, world, render);
        if r.None? then Halt([ParseError]) else Emit([r.value])
  }

  /** `data.toString().trim().split('\n')`. */
  function ChunkLines(chunk: string): (lines: seq<string>)
    ensures |lines| >= 1
    ensures forall k :: 0 <= k < |lines| ==> '\n' !in lines[k]
  {
    Split(Trim(chunk), '\n')
  }

  /** One line's effect: the responses it writes, whether it abandons the chunk, whether it initializes. */
  datatype Step = Step(out: seq<Response>, stop: bool, initializes: bool)

  function Emit(out: seq<Response>): Step {
    Step(out, false, false)
  }

  function Halt(out: seq<Response>): Step {
    Step(out, true, false)
  }

  /** Everything a chunk's lines write, in order, up to and including the first step that stops. */
  function Drive(lines: seq<string>, step: string -> Step): seq<Response> {
    if lines == [] then []
    else if Blank(lines[0]) then Drive(lines[1..], step)
    else
      var s := step(lines[0]);
      s.out + (if s.stop then [] else Drive(lines[1..], step))
  }

  /**
   * The loop of the extension servers' `data` handler: each non-blank line
   * in turn, writing what its step writes, until a step abandons the chunk.
   */
  method ProcessLines(chunk: string, step: string -> Step) returns (written: seq<Response>)
    ensures written == Drive(ChunkLines(chunk), step)
  {
    var lines := ChunkLines(chunk);
    written := [];
    var i := 0;
    var stopped := false;
    while i < |lines| && !stopped
      invariant 0 <= i <= |lines|
      invariant stopped ==> written == Drive(lines, step)
      invariant !stopped ==> written + Drive(lines[i..], step) == Drive(lines, step)
    {
      var line := lines[i];
      if Trim(line) != "" {
        Advance(lines, i, step, written);
        var s := step(line);
        written := written + s.out;
        stopped := s.stop;
      } else {
        DriveAt(lines, i, step);
      }
      i := i + 1;
    }
  }

  /** One turn of the loop: what the lines from `i` on write and whether they initialize, in terms of line `i` and the rest. */
  lemma DriveAt(lines: seq<string>, i: nat, step: string -> Step)
    requires i < |lines|
    ensures Blank(lines[i]) ==> Drive(lines[i..], step) == Drive(lines[i + 1..], step)
    ensures Blank(lines[i]) ==> Initializes(lines[i..], step) == Initializes(lines[i + 1..], step)
    ensures !Blank(lines[i]) ==> Drive(lines[i..], step) == step(lines[i]).out + (if step(lines[i]).stop then [] else Drive(lines[i + 1..], step))
    ensures !Blank(lines[i]) ==> Initializes(lines[i..], step) == (step(lines[i]).initializes || (!step(lines[i]).stop && Initializes(lines[i + 1..], step)))
  {
    assert lines[i..][0] == lines[i] && lines[i..][1..] == lines[i + 1..];
  }

  /** The loop invariant carried over one non-blank line: its output is appended, and it ends the chunk when it stops. */
  lemma Advance(lines: seq<string>, i: nat, step: string -> Step, written: seq<Response>)
    requires i < |lines| && !Blank(lines[i])
    requires written + Drive(lines[i..], step) == Drive(lines, step)
    ensures step(lines[i]).stop ==> written + step(lines[i]).out == Drive(lines, step)
    ensures !step(lines[i]).stop ==> written + step(lines[i]).out + Drive(lines[i + 1..], step) == Drive(lines, step)
    ensures Initializes(lines[i..], step) == (step(lines[i]).initializes || (!step(lines[i]).stop && Initializes(lines[i + 1..], step)))
  {
    DriveAt(lines, i, step);
    var s := step(lines[i]);
    if s.stop {
      assert s.out + [] == s.out;
    } else {
      assert written + s.out + Drive(lines[i + 1..], step) == written + (s.out + Drive(lines[i + 1..], step));
    }
  }

  /** Whether a processed line initializes. */
  predicate Initializes(lines: seq<string>, step: string -> Step) {
    if lines == [] then false
    else if Blank(lines[0]) then Initializes(lines[1..], step)
    else step(lines[0]).initializes || (!step(lines[0]).stop && Initializes(lines[1..], step))
  }

  /** The lines a data handler acts on: those left after dropping the blank ones. */
  function NonBlank(lines: seq<string>): (kept: seq<string>)
    ensures |kept| <= |lines|
    ensures forall k :: 0 <= k < |kept| ==> !Blank(kept[k]) && kept[k] in lines
  {
    if lines == [] then []
    else if Blank(lines[0]) then NonBlank(lines[1..])
    else [lines[0]] + NonBlank(lines[1..])
  }

  /** No acted-on line of `lines` stops. */
  predicate Continues(lines: seq<string>, step: string -> Step) {
    forall k :: 0 <= k < |lines| && !Blank(lines[k]) ==> !step(lines[k]).stop
  }

  /** Blank lines have no effect: acting on the non-blank lines alone writes the same. */
  lemma {:induction false} DriveSkipsBlank(lines: seq<string>, step: string -> Step)
    ensures Drive(lines, step) == Drive(NonBlank(lines), step)
  {
    if lines != [] {
      DriveSkipsBlank(lines[1..], step);
      if !Blank(lines[0]) {
        var tail := NonBlank(lines[1..]);
        assert ([lines[0]] + tail)[0] == lines[0] && ([lines[0]] + tail)[1..] == tail;
      }
    }
  }

  /** Lines are handled in order: a prefix that never stops writes first, then the rest does. */
  lemma {:induction false} DriveInOrder(a: seq<string>, b: seq<string>, step: string -> Step)
    requires Continues(a, step)
    ensures Drive(a + b, step) == Drive(a, step) + Drive(b, step)
  {
    if a != [] {
      assert (a + b)[0] == a[0] && (a + b)[1..] == a[1..] + b;
      assert Continues(a[1..], step) by {
        forall k | 0 <= k < |a[1..]| && !Blank(a[1..][k]) ensures !step(a[1..][k]).stop {
          assert a[1..][k] == a[k + 1];
        }
      }
      DriveInOrder(a[1..], b, step);
      if !Blank(a[0]) {
        var s := step(a[0]);
        assert s.out + (Drive(a[1..], step) + Drive(b, step)) == (s.out + Drive(a[1..], step)) + Drive(b, step);
      }
    } else {
      assert a + b == b;
    }
  }

  /** The line that stops is the last one handled: whatever follows it in the chunk writes nothing. */
  lemma {:induction false} DriveStopsAt(before: seq<string>, line: string, after: seq<string>, step: string -> Step)
    requires Continues(before, step)
    requires !Blank(line) && step(line).stop
    ensures Drive(before + [line] + after, step) == Drive(before, step) + step(line).out
  {
    assert before + [line] + after == before + ([line] + after);
    DriveInOrder(before, [line] + after, step);
    assert ([line] + after)[0] == line;
    assert ([line] + after)[1..] == after;
  }

  /** When every acted-on line writes one response and none stops, the chunk writes one response per line, in order. */
  lemma {:induction false} DriveOnePerLine(lines: seq<string>, step: string -> Step)
    requires Continues(lines, step)
    requires forall k :: 0 <= k < |lines| && !Blank(lines[k]) ==> |step(lines[k]).out| == 1
    ensures var kept := NonBlank(lines);
      |Drive(lines, step)| == |kept|
      && forall k :: 0 <= k < |kept| ==> Drive(lines, step)[k] == step(kept[k]).out[0]
  {
    if lines != [] {
      assert Continues(lines[1..], step) by {
        forall k | 0 <= k < |lines[1..]| && !Blank(lines[1..][k]) ensures !step(lines[1..][k]).stop {
          assert lines[1..][k] == lines[k + 1];
        }
      }
      forall k | 0 <= k < |lines[1..]| && !Blank(lines[1..][k]) ensures |step(lines[1..][k]).out| == 1 {
        assert lines[1..][k] == lines[k + 1];
      }
      DriveOnePerLine(lines[1..], step);
      if !Blank(lines[0]) {
        var tail := NonBlank(lines[1..]);
        assert NonBlank(lines) == [lines[0]] + tail;
        assert !step(lines[0]).stop && |step(lines[0]).out| == 1;
      }
    }
  }

  /** A line that does not parse, or that holds `null`, ends the chunk with one parse error. */
  lemma ExtensionParseError(before: seq<string>, line: string, after: seq<string>, table: Table, parse: string -> Option<Json>, world: World, render: Renderer)
    requires Continues(before, ExtensionStep(table, parse, world, render))
    requires !Blank(line) && (parse(line).None? || parse(line) == Some(JNull))
    ensures var step := ExtensionStep(table, parse, world, render);
      Drive(before + [line] + after, step) == Drive(before, step) + [ParseError]
  {
    DriveStopsAt(before, line, after, ExtensionStep(table, parse, world, render));
  }

  /** When every line holds a request other than `null`, each gets exactly one response, in order, carrying its id. */
  lemma ExtensionOnePerRequest(lines: seq<string>, table: Table, parse: string -> Option<Json>, world: World, render: Renderer)
    requires forall k :: 0 <= k < |lines| && !Blank(lines[k]) ==> parse(lines[k]).Some? && !parse(lines[k]).value.JNull?
    ensures var kept := NonBlank(lines);
      var out := Drive(lines, ExtensionStep(table, parse, world, render));
      && |out| == |kept|
      && forall k :: 0 <= k < |kept| ==>
           out[k] == Dispatch(parse(kept[k]).value, table, world, render).value && out[k].id == Get(parse(kept[k]).value, "id")
  {
    var step := ExtensionStep(table, parse, world, render);
    forall k | 0 <= k < |lines| && !Blank(lines[k]) ensures !step(lines[k]).stop && |step(lines[k]).out| == 1 {
    }
    DriveOnePerLine(lines, step);
  }

  /** Every method other than the three is answered with -32603 as well, not with -32601. */
  lemma UnknownMethodIsInternal(request: Json, table: Table, world: World, render: Renderer)
    requires !request.JNull?
    requires var m := Get(request, "method"); !IsText(m, "initialize") && !IsText(m, "tools/list") && !IsText(m, "tools/call")
    ensures Dispatch(request, table, world, render) ==
      Some(Failure(Get(request, "id"), InternalErrorCode, "Unknown method: " + Interpolate(Get(request, "method"))))
  {
  }

  /** A call by a name that has an entry runs its handler with the call's arguments and no context. */
  lemma ToolCallRuns(request: Json, table: Table, world: World, render: Renderer, name: string, e: Entry)
    requires IsText(Get(request, "method"), "tools/call")
    requires var params := Get(request, "params"); !Nullish(params) && IsText(Member(params, "name"), name)
    requires At(table, name) == Some(e)
    ensures var id := Get(request, "id");
      Dispatch(request, table, world, render) ==
        match e.handler(Member(Get(request, "params"), "arguments"), None, world)
        case Resolved(reply) => Some(CallResult(id, reply, render))
        case Rejected(f) => Some(Failure(id, InternalErrorCode, FaultMessage(f)))
  {
  }

  /** A call by a name without an entry, or by a name that is not a string, is reported as not found. */
  lemma ToolCallMissing(request: Json, table: Table, world: World, render: Renderer)
    requires IsText(Get(request, "method"), "tools/call")
    requires !Nullish(Get(request, "params"))
    requires var name := Member(Get(request, "params"), "name");
      !(name.Some? && name.value.JStr? && At(table, name.value.s).Some?)
    ensures Dispatch(request, table, world, render) ==
      Some(Failure(Get(request, "id"), InternalErrorCode, NotFound(Member(Get(request, "params"), "name"))))
  {
  }
}
