/**
 * The Model Context Protocol side of a tool: its reply (a list of content
 * blocks), the faults a handler can throw, the call context and process
 * environment it reads, and the catalogue entry `{ name, description,
 * requireUserConfirmation, schema, handler }` with the schema kept as data.
 */
module Mcp {
  import opened Base
  import opened Json
  import Api

  /** `{ type, text }`; `text` is `undefined` when it was computed from `undefined`. */
  datatype ContentBlock = ContentBlock(kind: string, text: Option<string>)

  /** `{ content: [...] }`, what a tool handler resolves with. */
  datatype ToolReply = ToolReply(content: seq<ContentBlock>)

  function TextReply(text: Option<string>): (reply: ToolReply)
    ensures SingleText(reply) && reply.content[0].text == text
  {
    ToolReply([ContentBlock("text", text)])
  }

  /** Exactly one block, and it is a text block. */
  predicate SingleText(reply: ToolReply) {
    |reply.content| == 1 && reply.content[0].kind == "text"
  }

  /** The reply as the JSON value that `JSON.stringify` serialises. */
  function ReplyJson(reply: ToolReply): Json {
    JObj([("content", JArr(seq(|reply.content|, i requires 0 <= i < |reply.content| =>
      Object([("type", Some(JStr(reply.content[i].kind))),
              ("text", if reply.content[i].text.Some? then Some(JStr(reply.content[i].text.value)) else None)]))))])
  }

  /** A thrown value: an `Error` with its message, or any other value with what `String(value)` gives. */
  datatype Fault = ErrorFault(message: string) | ThrownValue(shown: string)

  /** `error instanceof Error ? error.message : String(error)`. */
  function FaultMessage(f: Fault): string {
    match f
    case ErrorFault(m) => m
    case ThrownValue(shown) => shown
  }

  /**
   * The `TypeError` that destructuring `{ property }` out of a nullish value
   * throws; `subject` is how the engine names the value (`'params'` for a
   * variable, `'undefined'` for an anonymous parameter).
   */
  function DestructureFault(property: string, subject: string, value: Option<Json>): Fault
    requires Nullish(value)
  {
    var what := if value.None? then "undefined" else "null";
    ErrorFault("Cannot destructure " + "property '" + property + "' of '" + subject + "' as it is " + what + ".")
  }

  /** `context.config` as the extension host passes it. */
  datatype CallConfig = CallConfig(whippyApiKey: Option<string>, whippyBaseUrl: Option<string>)

  datatype Context = Context(config: Option<CallConfig>)

  /** `context?.config`. */
  function ConfigOf(context: Option<Context>): Option<CallConfig> {
    if context.Some? then context.value.config else None
  }

  /** The two variables the servers read from `process.env`. */
  datatype Env = Env(whippyApiKey: Option<string>, whippyBaseUrl: Option<string>)

  /** What a handler sees of the world when it runs: the environment and the remote API. */
  datatype World = World(env: Env, remote: Api.Remote)

  datatype HandlerOutcome = Resolved(reply: ToolReply) | Rejected(fault: Fault)

  /** `async (params, context) => ...`, run against the world at call time. */
  type Handler = (Option<Json>, Option<Context>, World) -> HandlerOutcome

  /** The declared constraint of a schema field (zod's checking itself is not modelled). */
  datatype Kind =
    | KString(email: bool, maxLength: Option<nat>)
    | KNumber(min: Option<int>, max: Option<int>)
    | KBoolean
    | KArray(item: Kind)
    | KRecord(value: Kind)
    | KObject(fields: seq<Field>)

  datatype Presence = Required | Optional | Defaulted(value: Json)

  datatype Field = Field(key: string, kind: Kind, presence: Presence)

  datatype ToolDef = ToolDef(name: string, description: string, requireUserConfirmation: bool, schema: seq<Field>, handler: Handler)

  function Names(tools: seq<ToolDef>): (names: seq<string>)
    ensures |names| == |tools|
    ensures forall k :: 0 <= k < |tools| ==> names[k] == tools[k].name
  {
    seq(|tools|, k requires 0 <= k < |tools| => tools[k].name)
  }

  predicate Distinct(names: seq<string>) {
    forall i, j :: 0 <= i < j < |names| ==> names[i] != names[j]
  }

  /** `tools.find(t => t.name === name)`, as the index of the first match. */
  function Find(tools: seq<ToolDef>, name: Option<Json>): (r: Option<nat>)
    ensures r.Some? ==> r.value < |tools| && name == Some(JStr(tools[r.value].name))
    ensures r.Some? ==> forall j :: 0 <= j < r.value ==> name != Some(JStr(tools[j].name))
    ensures r.None? ==> forall j :: 0 <= j < |tools| ==> name != Some(JStr(tools[j].name))
  {
    if tools == [] then None
    else if name == Some(JStr(tools[0].name)) then Some(0)
    else
      var r := Find(tools[1..], name);
      if r.Some? then Some(r.value + 1) else None
  }

  /** A value a number or string constraint admits. */
  predicate Admits(kind: Kind, v: Json) {
    match kind
    case KNumber(min, max) => v.JNum? && (min.Some? ==> min.value <= v.n) && (max.Some? ==> v.n <= max.value)
    case KString(_, maxLength) => v.JStr? && (maxLength.Some? ==> |v.s| <= maxLength.value)
    case KBoolean => v.JBool?
    case _ => true
  }

  /** The field declared for `key`, if any. */
  function FieldOf(schema: seq<Field>, key: string): Option<Field> {
    if schema == [] then None
    else if schema[0].key == key then Some(schema[0])
    else FieldOf(schema[1..], key)
  }

  /** A field that no earlier field shadows is the one declared for its key. */
  lemma {:induction false} FieldAt(schema: seq<Field>, k: nat)
    requires k < |schema|
    requires forall j :: 0 <= j < k ==> schema[j].key != schema[k].key
    ensures FieldOf(schema, schema[k].key) == Some(schema[k])
  {
    if k > 0 {
      FieldAt(schema[1..], k - 1);
    }
  }

  /** Distinct keys, and every declared default meets its own constraint. */
  predicate WellFormed(schema: seq<Field>) {
    && (forall i, j :: 0 <= i < j < |schema| ==> schema[i].key != schema[j].key)
    && (forall k :: 0 <= k < |schema| ==> FieldWellFormed(schema[k]))
  }

  predicate FieldWellFormed(f: Field) {
    && (f.presence.Defaulted? ==> Admits(f.kind, f.presence.value))
    && (f.kind.KNumber? && f.kind.min.Some? && f.kind.max.Some? ==> f.kind.min.value <= f.kind.max.value)
    && (f.kind.KObject? ==> WellFormed(f.kind.fields))
  }
}
