/**
 * The stdio server of src/dxt-index.ts: one `data` listener that reads the
 * tool list directly, keeps an `initialized` flag, and differs from the two
 * extension servers in three ways. A line that fails (bad JSON, a `null`
 * request, nullish call parameters) is dropped silently together with the
 * rest of its chunk. An unknown tool is answered with -32601 and also ends
 * the chunk. A tool call answers only when its promise settles, after the
 * chunk's synchronous writes, so its response is written later.
 */
module SrcStdio {
  import opened Base
  import opened Json
  import opened Text
  import opened Mcp
  import opened Rpc
  import LibTools

  /** What one line does: what it writes at once, what it writes when its call settles, whether it ends the chunk or initializes. */
  datatype Reaction = Reaction(now: seq<Response>, later: seq<Response>, stop: bool, initializes: bool)

  /** `tools.map(...)`: every tool with its schema wrapped in `z.object(tool.schema || {})`. */
  function SchemaListing(tools: seq<ToolDef>): (listed: seq<ToolInfo>)
    ensures |listed| == |tools|
    ensures forall k :: 0 <= k < |tools| ==> listed[k] == ToolInfo(tools[k].name, tools[k].description, ObjectSchema(tools[k].schema))
  {
    seq(|tools|, k requires 0 <= k < |tools| => ToolInfo(tools[k].name, tools[k].description, ObjectSchema(tools[k].schema)))
  }

  /** A reaction that writes nothing: the outer `catch` took over, and the chunk ends. */
  const Dropped := Reaction([], [], true, false)

  /** The body of the loop, for one non-blank line. */
  function React(tools: seq<ToolDef>, parse: string -> Option<Json>, world: World, render: Renderer, line: string): (a: Reaction)
    ensures a.initializes ==> parse(line).Some? && a.now == [InitializeResponse(Get(parse(line).value, "id"))] && !a.stop
    ensures a.stop ==> a.later == []
    ensures |a.now| + |a.later| <= 1
    ensures |a.later| == 1 ==> parse(line).Some? && a.later[0].id == Get(parse(line).value, "id")
  {
    match parse(line)
    case None => Dropped
    case Some(request) =>
      if request.JNull? then Dropped
      else
        var requested := Get(request, "method");
        var id := Get(request, "id");
        if IsText(requested, "initialize") then Reaction([InitializeResponse(id)], [], false, true)
        else if IsText(requested, "tools/list") then
          Reaction([Response(JsonRpcVersion, id, Result(ToolList(SchemaListing(tools))))], [], false, false)
        else if IsText(requested, "tools/call") then
          var params := Get(request, "params");
          if Nullish(params) then Dropped
          else
            var name := Member(params, "name");
            var found := Find(tools, name);
            if found.None? then Reaction([Failure(id, MethodNotFoundCode, NotFound(name))], [], true, false)
            else
              var settled :=
                match tools[found.value].handler(Member(params, "arguments"), None, world)
                case Resolved(reply) => CallResult(id, reply, render)
                case Rejected(f) => Failure(id, InternalErrorCode, FaultMessage(f));
              Reaction([], [settled], false, false)
        else Reaction([], [], false, false)
  }

  /** The synchronous side of a line, as a step of the chunk loop. */
  function NowStep(tools: seq<ToolDef>, parse: string -> Option<Json>, world: World, render: Renderer): string -> Step {
    line => var a := React(tools, parse, world, render, line); Step(a.now, a.stop, a.initializes)
  }

  /** The settled side of a line: the response its call writes later. */
  function LaterStep(tools: seq<ToolDef>, parse: string -> Option<Json>, world: World, render: Renderer): string -> Step {
    line => var a := React(tools, parse, world, render, line); Step(a.later, a.stop, a.initializes)
  }

  /** Both sides of a line agree on whether it ends the chunk. */
  lemma StepsAgree(tools: seq<ToolDef>, parse: string -> Option<Json>, world: World, render: Renderer, line: string)
    ensures NowStep(tools, parse, world, render)(line).stop == LaterStep(tools, parse, world, render)(line).stop
  {
  }

  /** The module state of src/dxt-index.ts. */
  class StdioServer {
    /** `let initialized = false`. */
    var initialized: bool

    constructor ()
      ensures !initialized
    {
      initialized := false;
    }

    /**
     * The `data` listener. `written` is what the chunk writes before it
     * returns; `pending` is what its tool calls write once they settle, in
     * the order the calls were made.
     */
    method OnData(tools: seq<ToolDef>, chunk: string, parse: string -> Option<Json>, world: World, render: Renderer)
      returns (written: seq<Response>, pending: seq<Response>)
      modifies this
      ensures written == Drive(ChunkLines(chunk), NowStep(tools, parse, world, render))
      ensures pending == Drive(ChunkLines(chunk), LaterStep(tools, parse, world, render))
      ensures initialized == (old(initialized) || Initializes(ChunkLines(chunk), NowStep(tools, parse, world, render)))
    {
      var now, later := NowStep(tools, parse, world, render), LaterStep(tools, parse, world, render);
      forall line ensures now(line).stop == later(line).stop {
        StepsAgree(tools, parse, world, render, line);
      }
      var initializes;
      written, pending, initializes := Consume(ChunkLines(chunk), now, later);
      if initializes {
        initialized := true;
      }
    }
  }

  /**
   * The loop over a chunk's lines, for two sides that agree on which line
   * ends the chunk: what each side writes, and whether a line initializes.
   */
  method Consume(lines: seq<string>, now: string -> Step, later: string -> Step)
    returns (written: seq<Response>, pending: seq<Response>, initializes: bool)
    requires forall line :: now(line).stop == later(line).stop
    ensures written == Drive(lines, now) && pending == Drive(lines, later)
    ensures initializes == Initializes(lines, now)
  {
    written, pending, initializes := [], [], false;
    var i := 0;
    var stopped := false;
    while i < |lines| && !stopped
      invariant 0 <= i <= |lines|
      invariant stopped ==> written == Drive(lines, now) && pending == Drive(lines, later)
      invariant stopped ==> initializes == Initializes(lines, now)
      invariant !stopped ==> written + Drive(lines[i..], now) == Drive(lines, now)
      invariant !stopped ==> pending + Drive(lines[i..], later) == Drive(lines, later)
      invariant !stopped ==> (initializes || Initializes(lines[i..], now)) == Initializes(lines, now)
    {
      var line := lines[i];
      if Trim(line) != "" {
        Advance(lines, i, now, written);
        Advance(lines, i, later, pending);
        var s, t := now(line), later(line);
        written := written + s.out;
        pending := pending + t.out;
        initializes := initializes || s.initializes;
        stopped := s.stop;
      } else {
        DriveAt(lines, i, now);
        DriveAt(lines, i, later);
      }
      i := i + 1;
    }
  }

  /** A chunk in which no line asks for `initialize` leaves the flag as it was. */
  lemma {:induction false} NoInitializeNoFlag(lines: seq<string>, tools: seq<ToolDef>, parse: string -> Option<Json>, world: World, render: Renderer)
    requires forall k :: 0 <= k < |lines| && parse(lines[k]).Some? ==> !IsText(Get(parse(lines[k]).value, "method"), "initialize")
    ensures !Initializes(lines, NowStep(tools, parse, world, render))
  {
    if lines != [] {
      assert forall k :: 0 <= k < |lines[1..]| ==> lines[1..][k] == lines[k + 1];
      NoInitializeNoFlag(lines[1..], tools, parse, world, render);
      assert !React(tools, parse, world, render, lines[0]).initializes;
    }
  }

  /** An `initialize` request, once reached, sets the flag and is answered at once. */
  lemma InitializeSetsFlag(before: seq<string>, line: string, after: seq<string>, tools: seq<ToolDef>, parse: string -> Option<Json>, world: World, render: Renderer)
    requires Continues(before, NowStep(tools, parse, world, render))
    requires !Blank(line) && parse(line).Some? && !parse(line).value.JNull? && IsText(Get(parse(line).value, "method"), "initialize")
    ensures Initializes(before + [line] + after, NowStep(tools, parse, world, render))
    ensures var now := NowStep(tools, parse, world, render);
      Drive(before + [line] + after, now) == Drive(before, now) + [InitializeResponse(Get(parse(line).value, "id"))] + Drive(after, now)
  {
    var now := NowStep(tools, parse, world, render);
    assert before + [line] + after == before + ([line] + after);
    DriveInOrder(before, [line] + after, now);
    assert ([line] + after)[0] == line && ([line] + after)[1..] == after;
    InitializesAfter(before, [line] + after, now);
  }

  /** A prefix that never stops lets a later line's initialization through. */
  lemma {:induction false} InitializesAfter(a: seq<string>, b: seq<string>, step: string -> Step)
    requires Continues(a, step)
    requires Initializes(b, step)
    ensures Initializes(a + b, step)
  {
    if a != [] {
      assert (a + b)[0] == a[0] && (a + b)[1..] == a[1..] + b;
      assert Continues(a[1..], step) by {
        forall k | 0 <= k < |a[1..]| && !Blank(a[1..][k]) ensures !step(a[1..][k]).stop {
          assert a[1..][k] == a[k + 1];
        }
      }
      InitializesAfter(a[1..], b, step);
    } else {
      assert a + b == b;
    }
  }

  /** `tools/list` wraps every schema in one object schema and keeps the list's order. */
  lemma ListsWrapped(tools: seq<ToolDef>, parse: string -> Option<Json>, world: World, render: Renderer, line: string)
    requires parse(line).Some? && !parse(line).value.JNull? && IsText(Get(parse(line).value, "method"), "tools/list")
    ensures var a := React(tools, parse, world, render, line);
      && a.now == [Response(JsonRpcVersion, Get(parse(line).value, "id"), Result(ToolList(SchemaListing(tools))))]
      && a.later == [] && !a.stop
  {
  }

  /**
   * A call of a tool that is not in the list is answered with -32601, and the
   * rest of the chunk is not read; the extension servers answer -32603 and
   * read on.
   */
  lemma UnknownToolEndsChunk(before: seq<string>, line: string, after: seq<string>, tools: seq<ToolDef>, parse: string -> Option<Json>, world: World, render: Renderer)
    requires Continues(before, NowStep(tools, parse, world, render))
    requires !Blank(line) && parse(line).Some?
    requires var request := parse(line).value;
      && !request.JNull? && IsText(Get(request, "method"), "tools/call") && !Nullish(Get(request, "params"))
      && Find(tools, Member(Get(request, "params"), "name")).None?
    ensures var request := parse(line).value;
      var now := NowStep(tools, parse, world, render);
      var later := LaterStep(tools, parse, world, render);
      && Drive(before + [line] + after, now) ==
           Drive(before, now) + [Failure(Get(request, "id"), MethodNotFoundCode, NotFound(Member(Get(request, "params"), "name")))]
      && Drive(before + [line] + after, later) == Drive(before, later)
    ensures var request := parse(line).value;
      var r := Dispatch(request, TableOf(tools), world, render);
      r == Some(Failure(Get(request, "id"), InternalErrorCode, NotFound(Member(Get(request, "params"), "name"))))
      && !ExtensionStep(TableOf(tools), parse, world, render)(line).stop
  {
    var now := NowStep(tools, parse, world, render);
    var later := LaterStep(tools, parse, world, render);
    var request := parse(line).value;
    DriveStopsAt(before, line, after, now);
    assert Continues(before, later) by {
      forall k | 0 <= k < |before| && !Blank(before[k]) ensures !later(before[k]).stop {
        assert !now(before[k]).stop;
      }
    }
    DriveStopsAt(before, line, after, later);
    assert later(line).out == [];
    var name := Member(Get(request, "params"), "name");
    if name.Some? && name.value.JStr? {
      var table := TableOf(tools);
      forall j | 0 <= j < |table| ensures table[j].0 != name.value.s {
        assert name != Some(JStr(tools[j].name));
      }
    }
    ToolCallMissing(request, TableOf(tools), world, render);
  }

  /** A line that does not parse, or holds `null`, is dropped with the rest of its chunk, silently. */
  lemma BadLineEndsChunk(before: seq<string>, line: string, after: seq<string>, tools: seq<ToolDef>, parse: string -> Option<Json>, world: World, render: Renderer)
    requires Continues(before, NowStep(tools, parse, world, render))
    requires !Blank(line) && (parse(line).None? || parse(line) == Some(JNull))
    ensures var now := NowStep(tools, parse, world, render);
      Drive(before + [line] + after, now) == Drive(before, now)
  {
    var now := NowStep(tools, parse, world, render);
    DriveStopsAt(before, line, after, now);
    assert now(line).out == [];
  }

  /**
   * A call of a listed tool writes nothing at once and exactly one response
   * when it settles: the handler's reply, or its failure as -32603.
   */
  lemma CallAnsweredLater(tools: seq<ToolDef>, parse: string -> Option<Json>, world: World, render: Renderer, line: string)
    requires parse(line).Some?
    requires var request := parse(line).value;
      && !request.JNull? && IsText(Get(request, "method"), "tools/call") && !Nullish(Get(request, "params"))
      && Find(tools, Member(Get(request, "params"), "name")).Some?
    ensures var request := parse(line).value;
      var params := Get(request, "params");
      var tool := tools[Find(tools, Member(params, "name")).value];
      var a := React(tools, parse, world, render, line);
      && a.now == [] && !a.stop && |a.later| == 1
      && a.later[0] == match tool.handler(Member(params, "arguments"), None, world)
                       case Resolved(reply) => CallResult(Get(request, "id"), reply, render)
                       case Rejected(f) => Failure(Get(request, "id"), InternalErrorCode, FaultMessage(f))
  {
  }

  /** With the tool table of src/lib/mcp-tools.ts, a call by a listed name always settles with a result. */
  lemma LibToolCallsResolve(parse: string -> Option<Json>, world: World, render: Renderer, line: string, k: nat)
    requires k < |LibTools.Ops|
    requires parse(line).Some?
    requires var request := parse(line).value;
      && !request.JNull? && IsText(Get(request, "method"), "tools/call") && !Nullish(Get(request, "params"))
      && IsText(Member(Get(request, "params"), "name"), LibTools.Name(LibTools.Ops[k]))
    ensures var a := React(LibTools.Tools(render), parse, world, render, line);
      a.now == [] && |a.later| == 1 && a.later[0].body.Result? && a.later[0].body.payload.Content?
  {
    var tools := LibTools.Tools(render);
    var request := parse(line).value;
    var params := Get(request, "params");
    assert tools[k].name == LibTools.Name(LibTools.Ops[k]);
    var found := Find(tools, Member(params, "name"));
    assert found.Some?;
    CallSettles(tools, parse, world, render, line, found.value);
  }

  /** A call that finds a tool whose handler resolves is answered later with its content. */
  lemma CallSettles(tools: seq<ToolDef>, parse: string -> Option<Json>, world: World, render: Renderer, line: string, i: nat)
    requires parse(line).Some?
    requires var request := parse(line).value;
      && !request.JNull? && IsText(Get(request, "method"), "tools/call") && !Nullish(Get(request, "params"))
      && Find(tools, Member(Get(request, "params"), "name")) == Some(i)
      && tools[i].handler(Member(Get(request, "params"), "arguments"), None, world).Resolved?
    ensures var a := React(tools, parse, world, render, line);
      a.now == [] && |a.later| == 1 && a.later[0].body.Result? && a.later[0].body.payload.Content?
  {
  }
}
