/**
 * The extension server of dxt-build/dxt-index.js: a `SimpleMcpServer` that
 * copies the tool list into a `Map` when it starts and then answers each
 * line of standard input. The map is kept as its entries in insertion
 * order, which is the order `tools/list` reports them in.
 */
module DxtServer {
  import opened Base
  import opened Json
  import opened Mcp
  import opened Rpc
  import DxtServerArray
  import ServerTools

  /** `Map.prototype.set`: a new name goes last; a known name keeps its place and takes the new entry. */
  function Put(table: Table, name: string, entry: Entry): Table {
    var p := Position(table, name);
    if p < |table| then table[p := (name, entry)] else table + [(name, entry)]
  }

  /** `tools.forEach(tool => this.registerTool(...))`, one registration after another. */
  function RegisterAll(table: Table, tools: seq<ToolDef>): Table {
    if tools == [] then table
    else
      var last := tools[|tools| - 1];
      Put(RegisterAll(table, tools[..|tools| - 1]), last.name, EntryOf(last))
  }

  /** Two tables whose names agree up to the shorter length, and whose extra names are not `name`, place `name` alike. */
  lemma PositionAgrees(a: Table, b: Table, name: string)
    requires |a| <= |b|
    requires forall k :: 0 <= k < |a| ==> a[k].0 == b[k].0
    requires forall k :: |a| <= k < |b| ==> b[k].0 != name
    ensures Position(a, name) < |a| ==> Position(b, name) == Position(a, name)
    ensures Position(a, name) == |a| ==> Position(b, name) == |b|
  {
    forall j | 0 <= j < |a| ensures (b[j].0 == name) == (a[j].0 == name) {
    }
    var p := Position(a, name);
    if p < |a| {
      assert b[p].0 == name;
    }
  }

  /** The laws of `set` and `get`: what was set is got, other names are untouched, order is kept. */
  lemma {:induction false} PutLaws(table: Table, name: string, entry: Entry)
    ensures At(Put(table, name, entry), name) == Some(entry)
    ensures forall n :: n != name ==> At(Put(table, name, entry), n) == At(table, n)
    ensures |Put(table, name, entry)| == |table| + (if At(table, name).Some? then 0 else 1)
    ensures forall k :: 0 <= k < |table| ==> Put(table, name, entry)[k].0 == table[k].0
    ensures DistinctNames(table) ==> DistinctNames(Put(table, name, entry))
  {
    var r := Put(table, name, entry);
    var p := Position(table, name);
    forall k | 0 <= k < |table| ensures r[k].0 == table[k].0 {
    }
    assert r[p].0 == name;
    forall n | n != name ensures At(r, n) == At(table, n) {
      PositionAgrees(table, r, n);
    }
    if DistinctNames(table) && p == |table| {
      forall i, j | 0 <= i < j < |r| ensures r[i].0 != r[j].0 {
        if j == |table| {
          assert r[i].0 == table[i].0;
        }
      }
    }
  }

  /** Registering tools whose names are distinct keeps exactly the list, in order. */
  lemma {:induction false} RegisterDistinct(tools: seq<ToolDef>)
    requires Distinct(Names(tools))
    ensures RegisterAll([], tools) == TableOf(tools)
  {
    if tools != [] {
      var n := |tools| - 1;
      var prefix := tools[..n];
      assert Distinct(Names(prefix)) by {
        forall i, j | 0 <= i < j < |prefix| ensures Names(prefix)[i] != Names(prefix)[j] {
          assert Names(tools)[i] != Names(tools)[j];
        }
      }
      RegisterDistinct(prefix);
      var before := TableOf(prefix);
      forall k | 0 <= k < |before| ensures before[k].0 != tools[n].name {
        assert Names(tools)[k] != Names(tools)[n];
      }
      assert Position(before, tools[n].name) == |before|;
      assert TableOf(tools) == before + [(tools[n].name, EntryOf(tools[n]))];
    }
  }

  /** Whatever the names, a name answers with the entry of its last registration. */
  lemma {:induction false} LastRegistrationWins(table: Table, tools: seq<ToolDef>, k: nat)
    requires k < |tools|
    requires forall j :: k < j < |tools| ==> tools[j].name != tools[k].name
    ensures At(RegisterAll(table, tools), tools[k].name) == Some(EntryOf(tools[k]))
  {
    var n := |tools| - 1;
    var last := tools[n];
    PutLaws(RegisterAll(table, tools[..n]), last.name, EntryOf(last));
    if k < n {
      LastRegistrationWins(table, tools[..n], k);
    }
  }

  /** A name registered again keeps the place of its first registration. */
  lemma {:induction false} RegisterKeepsPlaces(table: Table, tools: seq<ToolDef>)
    ensures |RegisterAll(table, tools)| >= |table|
    ensures forall k :: 0 <= k < |table| ==> RegisterAll(table, tools)[k].0 == table[k].0
  {
    if tools != [] {
      var n := |tools| - 1;
      RegisterKeepsPlaces(table, tools[..n]);
      PutLaws(RegisterAll(table, tools[..n]), tools[n].name, EntryOf(tools[n]));
    }
  }

  /** The map's name list never repeats a name. */
  lemma {:induction false} RegisterAllDistinct(table: Table, tools: seq<ToolDef>)
    requires DistinctNames(table)
    ensures DistinctNames(RegisterAll(table, tools))
  {
    if tools != [] {
      var n := |tools| - 1;
      RegisterAllDistinct(table, tools[..n]);
      PutLaws(RegisterAll(table, tools[..n]), tools[n].name, EntryOf(tools[n]));
    }
  }

  /**
   * One request, as the map server answers it once `start` has registered
   * `tools`: the shared dispatch over the map's entries.
   */
  function Handle(tools: seq<ToolDef>, request: Json, world: World, render: Renderer): Option<Response> {
    Dispatch(request, RegisterAll([], tools), world, render)
  }

  /** For a list without repeated names the two extension servers answer every request alike. */
  lemma MatchesArrayServer(tools: seq<ToolDef>, request: Json, world: World, render: Renderer)
    requires Distinct(Names(tools))
    ensures Handle(tools, request, world, render) == DxtServerArray.Handle(tools, request, world, render)
  {
    RegisterDistinct(tools);
  }

  /** With the tool table of dxt-build/server/mcp-tools.js, the listing names its eighteen tools in order. */
  lemma ServerToolsListed(request: Json, world: World, render: Renderer)
    requires !request.JNull? && IsText(Get(request, "method"), "tools/list")
    ensures var r := Handle(ServerTools.Tools(render), request, world, render);
      r.Some? && r.value.body.Result? && r.value.body.payload.ToolList?
      && var listed := r.value.body.payload.tools;
      |listed| == |ServerTools.ToolNames|
      && forall k :: 0 <= k < |listed| ==> listed[k].name == ServerTools.ToolNames[k]
  {
    var tools := ServerTools.Tools(render);
    ServerTools.Catalogue(render);
    RegisterDistinct(tools);
    var listed := Listing(TableOf(tools));
    forall k | 0 <= k < |listed| ensures listed[k].name == ServerTools.ToolNames[k] {
      assert listed[k].name == Names(tools)[k];
    }
  }

  /** With that table, a call by any listed name is answered with a result, never an error. */
  lemma ServerToolCallsResolve(request: Json, world: World, render: Renderer, k: nat)
    requires k < |ServerTools.Ops|
    requires IsText(Get(request, "method"), "tools/call")
    requires !Nullish(Get(request, "params")) && IsText(Member(Get(request, "params"), "name"), ServerTools.ToolNames[k])
    ensures var r := Handle(ServerTools.Tools(render), request, world, render);
      r.Some? && r.value.id == Get(request, "id") && r.value.body.Result? && r.value.body.payload.Content?
  {
    var tools := ServerTools.Tools(render);
    ServerTools.Catalogue(render);
    RegisterDistinct(tools);
    var table := TableOf(tools);
    assert table[k].0 == ServerTools.ToolNames[k] by {
      assert Names(tools)[k] == ServerTools.ToolNames[k];
    }
    var e := At(table, table[k].0).value;
    assert (table[k].0, e) in table;
    var i :| 0 <= i < |table| && table[i] == (table[k].0, e);
    assert e.handler == ServerTools.ToolHandler(ServerTools.Ops[i], render);
    ToolCallRuns(request, table, world, render, table[k].0, e);
  }

  /** The server object: the tool map it fills when it starts. */
  class SimpleMcpServer {
    /** `tools = new Map()`, as its entries in insertion order. */
    var tools: Table

    /** The map never holds a name twice. */
    predicate Valid()
      reads this
    {
      DistinctNames(tools)
    }

    constructor ()
      ensures tools == [] && Valid()
    {
      tools := [];
    }

    /** `registerTool`: `this.tools.set(name, { description, schema, handler })`. */
    method RegisterTool(name: string, description: string, schema: seq<Field>, handler: Handler)
      requires Valid()
      modifies this
      ensures tools == Put(old(tools), name, Entry(description, schema, handler))
      ensures Valid()
      ensures At(tools, name) == Some(Entry(description, schema, handler))
      ensures forall n :: n != name ==> At(tools, n) == At(old(tools), n)
    {
      PutLaws(tools, name, Entry(description, schema, handler));
      tools := Put(tools, name, Entry(description, schema, handler));
    }

    /** The registration loop of `start`. */
    method Start(list: seq<ToolDef>)
      requires Valid()
      modifies this
      ensures tools == RegisterAll(old(tools), list)
      ensures Valid()
    {
      var i := 0;
      while i < |list|
        invariant 0 <= i <= |list|
        invariant tools == RegisterAll(old(tools), list[..i])
        invariant Valid()
      {
        assert list[..i + 1][..i] == list[..i];
        RegisterTool(list[i].name, list[i].description, list[i].schema, list[i].handler);
        i := i + 1;
      }
      assert list[..i] == list;
    }

    /** The `data` listener: what one chunk of standard input makes the server write. */
    method OnData(chunk: string, parse: string -> Option<Json>, world: World, render: Renderer) returns (written: seq<Response>)
      ensures written == Drive(ChunkLines(chunk), ExtensionStep(tools, parse, world, render))
    {
      written := ProcessLines(chunk, ExtensionStep(tools, parse, world, render));
    }
  }

  /** A fresh server started with `list` answers every request as `Handle` does. */
  method Serve(list: seq<ToolDef>, chunk: string, parse: string -> Option<Json>, world: World, render: Renderer) returns (written: seq<Response>)
    ensures written == Drive(ChunkLines(chunk), ExtensionStep(RegisterAll([], list), parse, world, render))
    ensures Distinct(Names(list)) ==> written == DxtServerArray.OnDataOf(list, chunk, parse, world, render)
  {
    var server := new SimpleMcpServer();
    server.Start(list);
    written := server.OnData(chunk, parse, world, render);
    if Distinct(Names(list)) {
      RegisterDistinct(list);
    }
  }
}
