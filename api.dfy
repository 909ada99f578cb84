/**
 * What every `WhippyClient` method shares: the request it sends, the outcome
 * of the HTTP call (a response body, or an error that may carry a status, an
 * error envelope and a transport message), and the `{success, data, error,
 * message}` record it hands back. The HTTP client itself is a parameter.
 */
module Api {
  import opened Base
  import opened Json

  datatype Verb = GET | POST | PUT | DELETE

  /** One call on the HTTP client: verb, path under the base URL, query parameters and body. */
  datatype Request = Request(verb: Verb, path: string, query: seq<(string, Json)>, body: Option<Json>)

  /** What `axios.create` was configured with. */
  datatype Connection = Connection(baseUrl: string, headers: seq<(string, string)>, timeoutMs: nat)

  /** A rejected call: `error.response?.status`, `error.response?.data` and `error.message`. */
  datatype HttpError = HttpError(status: Option<int>, data: Option<Json>, message: string)

  datatype HttpOutcome = Responded(body: Json) | Failed(error: HttpError)

  /** The HTTP client, seen from the caller: one outcome per configured client and request. */
  type Remote = (Connection, Request) -> HttpOutcome

  /** `WhippyApiResponse`: `{ success, data?, error?, message? }`. */
  datatype ApiResult = ApiResult(success: bool, data: Option<Json>, error: Option<string>, message: Option<string>)

  /** A method's effect: the request it issued and the record it returned. */
  datatype Call = Call(request: Request, result: ApiResult)

  /**
   * How a method's catch block words a failure: the first envelope
   * description when there is one, or the transport message alone.
   */
  datatype ErrorPolicy = EnvelopeFirst | TransportOnly

  const DefaultBaseUrl := "https://api.whippy.co/v1"
  const TimeoutMs := 30000
  const UserAgent := "Whippy-MCP-Server/1.0.0"

  /** The first header with that name. */
  function Header(headers: seq<(string, string)>, name: string): Option<string> {
    if headers == [] then None
    else if headers[0].0 == name then Some(headers[0].1)
    else Header(headers[1..], name)
  }

  /** A header that no earlier header shadows is found. */
  lemma {:induction false} HeaderAt(headers: seq<(string, string)>, k: nat)
    requires k < |headers|
    requires forall j :: 0 <= j < k ==> headers[j].0 != headers[k].0
    ensures Header(headers, headers[k].0) == Some(headers[k].1)
  {
    if k > 0 {
      HeaderAt(headers[1..], k - 1);
    }
  }

  /** Query parameters as the HTTP client serialises them: `null` and `undefined` ones are skipped. */
  function Query(params: seq<(string, Option<Json>)>): (q: seq<(string, Json)>)
    ensures |q| <= |params|
    ensures forall k :: 0 <= k < |q| ==> q[k].1 != JNull
    ensures forall k, v :: (k, v) in q <==> (k, Some(v)) in params && v != JNull
  {
    if params == [] then []
    else
      var rest := Query(params[1..]);
      if Nullish(params[0].1) then rest else [(params[0].0, params[0].1.value)] + rest
  }

  /** The parameters are serialised one after another, in their order. */
  lemma {:induction false} QueryAppend(a: seq<(string, Option<Json>)>, b: seq<(string, Option<Json>)>)
    ensures Query(a + b) == Query(a) + Query(b)
  {
    if a != [] {
      assert (a + b)[0] == a[0];
      assert (a + b)[1..] == a[1..] + b;
      QueryAppend(a[1..], b);
      if !Nullish(a[0].1) {
        var head := [(a[0].0, a[0].1.value)];
        assert head + (Query(a[1..]) + Query(b)) == (head + Query(a[1..])) + Query(b);
      }
    } else {
      assert a + b == b;
    }
  }

  /** One parameter is sent exactly when it is neither `undefined` nor `null`. */
  lemma QueryOne(name: string, value: Option<Json>)
    ensures Query([(name, value)]) == if Nullish(value) then [] else [(name, value.value)]
  {
    assert [(name, value)][1..] == [];
  }

  /** With two defined, non-null parameters the query is exactly those two, in order. */
  lemma QueryPair(a: string, x: Json, b: string, y: Json)
    ensures x != JNull && y != JNull ==> Query([(a, Some(x)), (b, Some(y))]) == [(a, x), (b, y)]
  {
    var params := [(a, Some(x)), (b, Some(y))];
    assert params[1..] == [(b, Some(y))];
    assert params[1..][1..] == [];
  }

  /** `error.response?.data?.errors?.[0]?.description`, counted only when it is a non-empty string. */
  function Description(e: HttpError): Option<string> {
    if e.data.None? then None
    else
      match Get(e.data.value, "errors")
      case Some(JArr(items)) =>
        if items == [] then None
        else (match Get(items[0], "description")
              case Some(JStr(d)) => if d != "" then Some(d) else None
              case _ => None)
      case _ => None
  }

  function ErrorText(policy: ErrorPolicy, e: HttpError): string {
    match policy
    case EnvelopeFirst => Description(e).GetOr(e.message)
    case TransportOnly => e.message
  }

  /** `WhippyApiError`: `{ errors: [{ description }], status }`. */
  function Envelope(descriptions: seq<string>, status: int): Json {
    JObj([("errors", JArr(seq(|descriptions|, i requires 0 <= i < |descriptions| => JObj([("description", JStr(descriptions[i]))])))),
          ("status", JNum(status))])
  }

  /** With an API envelope, the envelope-first policy reports the first description unless it is empty. */
  lemma EnvelopeError(descriptions: seq<string>, status: Option<int>, code: int, message: string)
    ensures var e := HttpError(status, Some(Envelope(descriptions, code)), message);
      ErrorText(EnvelopeFirst, e) == (if descriptions != [] && descriptions[0] != "" then descriptions[0] else message)
      && ErrorText(TransportOnly, e) == message
  {
    var envelope := Envelope(descriptions, code);
    var items := seq(|descriptions|, i requires 0 <= i < |descriptions| => JObj([("description", JStr(descriptions[i]))]));
    var members := envelope.members;
    assert members[1].0 == "status" != "errors";
    assert members[..1] == [("errors", JArr(items))];
    assert Lookup(members, "errors") == Lookup(members[..1], "errors");
    assert Lookup(members[..1], "errors") == Some(JArr(items));
    if descriptions != [] {
      assert Get(items[0], "description") == Some(JStr(descriptions[0]));
    }
  }

  /** Without a response body (a network error) both policies agree on the transport message. */
  lemma NoBodyPoliciesAgree(e: HttpError)
    requires e.data.None?
    ensures ErrorText(EnvelopeFirst, e) == ErrorText(TransportOnly, e) == e.message
  {
  }

  /** The record a method returns for an HTTP outcome: `{ success: true, data: response.data }` or `{ success: false, error }`. */
  function Wrap(policy: ErrorPolicy, outcome: HttpOutcome): ApiResult {
    match outcome
    case Responded(body) => ApiResult(true, Some(body), None, None)
    case Failed(e) => ApiResult(false, None, Some(ErrorText(policy, e)), None)
  }

  /** `r` is what a method with this policy reports for `outcome`: success exactly when the call succeeded. */
  predicate Reports(policy: ErrorPolicy, outcome: HttpOutcome, r: ApiResult) {
    && r.success == outcome.Responded?
    && r.message.None?
    && (outcome.Responded? ==> r.data == Some(outcome.body) && r.error.None?)
    && (outcome.Failed? ==> r.data.None? && r.error == Some(ErrorText(policy, outcome.error)))
  }

  /** `r` is what a method that answers success with a fixed message reports: no data either way. */
  predicate Confirms(policy: ErrorPolicy, outcome: HttpOutcome, message: string, r: ApiResult) {
    && r.success == outcome.Responded?
    && r.data.None?
    && (outcome.Responded? ==> r.message == Some(message) && r.error.None?)
    && (outcome.Failed? ==> r.message.None? && r.error == Some(ErrorText(policy, outcome.error)))
  }

  /** Issue `request` and wrap its outcome: no HTTP failure escapes as a throw. */
  function Perform(connection: Connection, policy: ErrorPolicy, request: Request, remote: Remote): (c: Call)
    ensures c.request == request
    ensures Reports(policy, remote(connection, request), c.result)
  {
    Call(request, Wrap(policy, remote(connection, request)))
  }

  /** Issue `request`; success carries `message` instead of the response body. */
  function PerformConfirmed(connection: Connection, policy: ErrorPolicy, request: Request, message: string, remote: Remote): (c: Call)
    ensures c.request == request
    ensures Confirms(policy, remote(connection, request), message, c.result)
  {
    var outcome := remote(connection, request);
    Call(request, if outcome.Responded? then ApiResult(true, None, None, Some(message)) else Wrap(policy, outcome))
  }
}
