/**
 * The extension server of dxt-build/server/dxt-index.js: a `SimpleMcpServer`
 * without state that answers from the imported tool list directly, listing
 * it with `tools.map` and finding a tool with `tools.find`.
 */
module DxtServerArray {
  import opened Base
  import opened Json
  import opened Mcp
  import opened Rpc

  /** `handleRequest`: the shared dispatch over the tool list itself. */
  function Handle(tools: seq<ToolDef>, request: Json, world: World, render: Renderer): Option<Response> {
    Dispatch(request, TableOf(tools), world, render)
  }

  /** Looking a name up among the entries is `tools.find(t => t.name === name)`. */
  lemma FindAgrees(tools: seq<ToolDef>, name: string)
    ensures var i := Find(tools, Some(JStr(name)));
      At(TableOf(tools), name) == if i.Some? then Some(EntryOf(tools[i.value])) else None
  {
    var table := TableOf(tools);
    var i := Find(tools, Some(JStr(name)));
    forall j | 0 <= j < |tools| ensures (table[j].0 == name) == (Some(JStr(name)) == Some(JStr(tools[j].name))) {
    }
    if i.Some? {
      assert table[i.value].0 == name;
    }
  }

  /** `tools/list` reports every tool of the list, in the list's order, with its schema as declared. */
  lemma ListsInOrder(tools: seq<ToolDef>, request: Json, world: World, render: Renderer)
    requires !request.JNull? && IsText(Get(request, "method"), "tools/list")
    ensures var r := Handle(tools, request, world, render);
      r.Some? && r.value.body.Result? && r.value.body.payload.ToolList?
      && var listed := r.value.body.payload.tools;
      |listed| == |tools|
      && forall k :: 0 <= k < |tools| ==> listed[k] == ToolInfo(tools[k].name, tools[k].description, Raw(tools[k].schema))
  {
  }

  /** What one chunk of standard input makes the server write. */
  function OnDataOf(tools: seq<ToolDef>, chunk: string, parse: string -> Option<Json>, world: World, render: Renderer): seq<Response> {
    Drive(ChunkLines(chunk), ExtensionStep(TableOf(tools), parse, world, render))
  }

  /** The `data` listener of `start`. */
  method OnData(tools: seq<ToolDef>, chunk: string, parse: string -> Option<Json>, world: World, render: Renderer) returns (written: seq<Response>)
    ensures written == OnDataOf(tools, chunk, parse, world, render)
  {
    written := ProcessLines(chunk, ExtensionStep(TableOf(tools), parse, world, render));
  }
}
