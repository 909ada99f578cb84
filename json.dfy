/**
 * JSON values as the servers see them after `JSON.parse`, and the handful of
 * JavaScript coercions the code applies to them: member access with `?.`,
 * truthiness, template-literal interpolation and object literals whose
 * `undefined` members vanish when serialised.
 */
module Json {
  import opened Base
  import Text

  /** Numbers are integers in this model; floating point is not modelled. */
  datatype Json =
    | JNull
    | JBool(b: bool)
    | JNum(n: int)
    | JStr(s: string)
    | JArr(items: seq<Json>)
    | JObj(members: seq<(string, Json)>)

  /** `JSON.stringify(value, null, 2)`: left abstract, a parameter of every caller. */
  type Renderer = Json -> string

  /** The value of `key` among `members`; a later duplicate wins, as with `JSON.parse`. */
  function Lookup(members: seq<(string, Json)>, key: string): (r: Option<Json>)
    ensures r.Some? <==> exists k :: 0 <= k < |members| && members[k].0 == key
    ensures r.Some? ==> (key, r.value) in members
  {
    if members == [] then None
    else if members[|members| - 1].0 == key then Some(members[|members| - 1].1)
    else
      var r := Lookup(members[..|members| - 1], key);
      assert forall k :: 0 <= k < |members| - 1 ==> members[..|members| - 1][k] == members[k];
      r
  }

  /** `v.key` on a value that is not nullish: only objects have members. */
  function Get(v: Json, key: string): Option<Json> {
    if v.JObj? then Lookup(v.members, key) else None
  }

  /** `v?.key`. */
  function Member(v: Option<Json>, key: string): Option<Json> {
    if v.Some? then Get(v.value, key) else None
  }

  /** `v === null || v === undefined`: the values that destructuring rejects. */
  predicate Nullish(v: Option<Json>) {
    v.None? || v.value.JNull?
  }

  /** JavaScript truthiness (NaN is not modelled). */
  predicate Truthy(v: Option<Json>) {
    match v
    case None => false
    case Some(JNull) => false
    case Some(JBool(b)) => b
    case Some(JNum(n)) => n != 0
    case Some(JStr(s)) => s != ""
    case Some(_) => true
  }

  /** Truthiness of an optional string. */
  predicate Filled(s: Option<string>) {
    s.Some? && s.value != ""
  }

  /** `a || b` on optional strings. */
  function Or(a: Option<string>, b: Option<string>): (r: Option<string>)
    ensures Filled(a) ==> r == a
    ensures !Filled(a) ==> r == b
  {
    if Filled(a) then a else b
  }

  /** `${s}` for an optional string: `undefined` is written out. */
  function Show(s: Option<string>): (r: string)
    ensures s.Some? ==> r == s.value
    ensures s.None? ==> r == "undefined"
  {
    if s.Some? then s.value else "undefined"
  }

  /** `String(v)` for a defined value. */
  function ToStr(v: Json): string {
    match v
    case JNull => "null"
    case JBool(b) => if b then "true" else "false"
    case JNum(n) => Text.IntToString(n)
    case JStr(s) => s
    case JArr(items) =>
      var parts := seq(|items|, i requires 0 <= i < |items| => if items[i].JNull? then "" else ToStr(items[i]));
      if parts == [] then "" else Text.Join(parts, ',')
    case JObj(_) => "[object Object]"
  }

  /** `${v}` in a template literal. */
  function Interpolate(v: Option<Json>): (r: string)
    ensures v.None? ==> r == "undefined"
    ensures v.Some? && v.value.JStr? ==> r == v.value.s
  {
    if v.Some? then ToStr(v.value) else "undefined"
  }

  /** `JSON.stringify(v, null, 2)`, which returns `undefined` for `undefined`. */
  function Stringify(v: Option<Json>, render: Renderer): (r: Option<string>)
    ensures r.Some? <==> v.Some?
  {
    if v.Some? then Some(render(v.value)) else None
  }

  /** `${JSON.stringify(v, null, 2)}`. */
  function Dump(v: Option<Json>, render: Renderer): string {
    Show(Stringify(v, render))
  }

  /** The members an object literal keeps once serialised: `undefined` ones are dropped. */
  function Kept(fields: seq<(string, Option<Json>)>): (members: seq<(string, Json)>)
    ensures |members| <= |fields|
    ensures forall m :: m in members ==> (m.0, Some(m.1)) in fields
    ensures forall k, v :: (k, Some(v)) in fields ==> (k, v) in members
  {
    if fields == [] then []
    else
      var rest := Kept(fields[..|fields| - 1]);
      var last := fields[|fields| - 1];
      if last.1.Some? then rest + [(last.0, last.1.value)] else rest
  }

  /** An object literal such as `{ name, message, contact_ids }`. */
  function Object(fields: seq<(string, Option<Json>)>): Json {
    JObj(Kept(fields))
  }

  predicate DistinctKeys(fields: seq<(string, Option<Json>)>) {
    forall i, j :: 0 <= i < j < |fields| ==> fields[i].0 != fields[j].0
  }

  /** The value written for `key` in an object literal. */
  function Written(fields: seq<(string, Option<Json>)>, key: string): Option<Json> {
    if fields == [] then None
    else if fields[|fields| - 1].0 == key then fields[|fields| - 1].1
    else Written(fields[..|fields| - 1], key)
  }

  /** Reading a member back from an object literal gives what was written for it. */
  lemma {:induction false} GetObject(fields: seq<(string, Option<Json>)>, key: string)
    requires DistinctKeys(fields)
    ensures Get(Object(fields), key) == Written(fields, key)
  {
    if fields != [] {
      var init := fields[..|fields| - 1];
      var last := fields[|fields| - 1];
      assert DistinctKeys(init) by {
        forall i, j | 0 <= i < j < |init| ensures init[i].0 != init[j].0 {
          assert init[i] == fields[i] && init[j] == fields[j];
        }
      }
      GetObject(init, key);
      if last.1.Some? {
        var members := Kept(init) + [(last.0, last.1.value)];
        assert members[..|members| - 1] == Kept(init);
      }
      if last.0 == key {
        WrittenAbsent(init, key);
      }
    }
  }

  /** A key that no field of the literal uses is not written. */
  lemma {:induction false} WrittenAbsent(fields: seq<(string, Option<Json>)>, key: string)
    requires forall i :: 0 <= i < |fields| ==> fields[i].0 != key
    ensures Written(fields, key) == None
    ensures Lookup(Kept(fields), key) == None
  {
    if fields != [] {
      var init := fields[..|fields| - 1];
      assert forall i :: 0 <= i < |init| ==> init[i] == fields[i];
      WrittenAbsent(init, key);
      var last := fields[|fields| - 1];
      if last.1.Some? {
        var members := Kept(init) + [(last.0, last.1.value)];
        assert members[..|members| - 1] == Kept(init);
      }
    }
  }

  /** Each field of an object literal with distinct keys reads back as written. */
  lemma {:induction false} ObjectField(fields: seq<(string, Option<Json>)>, k: nat)
    requires DistinctKeys(fields) && k < |fields|
    ensures Get(Object(fields), fields[k].0) == fields[k].1
  {
    GetObject(fields, fields[k].0);
    WrittenAt(fields, k);
  }

  lemma {:induction false} WrittenAt(fields: seq<(string, Option<Json>)>, k: nat)
    requires DistinctKeys(fields) && k < |fields|
    ensures Written(fields, fields[k].0) == fields[k].1
  {
    if k < |fields| - 1 {
      var init := fields[..|fields| - 1];
      assert init[k] == fields[k];
      assert DistinctKeys(init) by {
        forall i, j | 0 <= i < j < |init| ensures init[i].0 != init[j].0 {
          assert init[i] == fields[i] && init[j] == fields[j];
        }
      }
      WrittenAt(init, k);
    }
  }
}
