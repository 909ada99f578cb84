/**
 * The tool invoker that both tool tables share: `getWhippyClient` picks the
 * credential (call configuration first, then the environment), and the
 * handler that `createToolHandler` builds runs the business function and
 * turns whatever happens into exactly one text block. Nothing escapes it.
 * The two tables differ only in the bytes of their three prefixes.
 */
module Invoker {
  import opened Base
  import opened Json
  import opened Api
  import opened Mcp
  import opened Text
  import ServerClient

  /** The missing-key message, written in short pieces so that the verifier can read off its characters. */
  const MissingKeyMessage := "Whippy API key is " + "required. Please " + "configure it in the " + "extension settings " + "or set WHIPPY_API_KEY " + "environment variable."

  /** What the handler reports for a thrown value that is not an `Error`. */
  const UnknownErrorMessage := "Unknown error occurred"

  const RateLimitAdvice := "\n\nPlease wait before retrying. Rate limits:\n- Standard APIs: 25 requests/second\n- Time Consuming APIs: 10 requests/minute\n- High Limit APIs: 35-50 requests/second"

  /** The prefixes of the failure, rate-limit and error texts. */
  datatype Labels = Labels(failed: string, rateLimited: string, error: string)

  /** What a tool's business function does: return a result record, or throw. */
  datatype BusinessOutcome = Returned(result: ApiResult) | Threw(fault: Fault)

  type Business = (ServerClient.WhippyClient, Option<Json>, Remote) -> BusinessOutcome

  /** `config?.whippy_api_key || process.env.WHIPPY_API_KEY`. */
  function ApiKey(config: Option<CallConfig>, env: Env): Option<string> {
    Or(if config.Some? then config.value.whippyApiKey else None, env.whippyApiKey)
  }

  /** `config?.whippy_base_url || process.env.WHIPPY_BASE_URL`. */
  function BaseUrl(config: Option<CallConfig>, env: Env): Option<string> {
    Or(if config.Some? then config.value.whippyBaseUrl else None, env.whippyBaseUrl)
  }

  /** `getWhippyClient`: a client for the first truthy key, or the missing-key error before any client exists. */
  function GetWhippyClient(config: Option<CallConfig>, env: Env): (r: Result<ServerClient.WhippyClient, Fault>)
    ensures var fromConfig := if config.Some? then config.value.whippyApiKey else None;
      && (r.Err? <==> !Filled(fromConfig) && !Filled(env.whippyApiKey))
      && (r.Err? ==> r.error == ErrorFault(MissingKeyMessage))
      && (r.Ok? && Filled(fromConfig) ==> r.value.apiKey == fromConfig.value)
      && (r.Ok? && !Filled(fromConfig) ==> r.value.apiKey == env.whippyApiKey.value)
    ensures var fromConfig := if config.Some? then config.value.whippyBaseUrl else None;
      && (r.Ok? && Filled(fromConfig) ==> r.value.client.baseUrl == fromConfig.value)
      && (r.Ok? && !Filled(fromConfig) && Filled(env.whippyBaseUrl) ==> r.value.client.baseUrl == env.whippyBaseUrl.value)
      && (r.Ok? && !Filled(fromConfig) && !Filled(env.whippyBaseUrl) ==> r.value.client.baseUrl == DefaultBaseUrl)
  {
    var key := ApiKey(config, env);
    if !Filled(key) then Err(ErrorFault(MissingKeyMessage))
    else Ok(ServerClient.New(ServerClient.Config(key.value, BaseUrl(config, env))))
  }

  /** The substring test that sorts a thrown fault into the rate-limit text. */
  predicate IsRateLimit(message: string) {
    Contains(message, "429") || Contains(message, "Rate Limit")
  }

  /** `error instanceof Error ? error.message : 'Unknown error occurred'`. */
  function CaughtMessage(f: Fault): string {
    if f.ErrorFault? then f.message else UnknownErrorMessage
  }

  /** The text of the catch block. */
  function FaultText(labels: Labels, f: Fault): string {
    var message := CaughtMessage(f);
    if IsRateLimit(message) then labels.rateLimited + message + RateLimitAdvice
    else labels.error + message
  }

  /** The text for a returned record: `result.message || JSON.stringify(result.data)`, or the failure text. */
  function ResultText(labels: Labels, r: ApiResult, render: Renderer): Option<string> {
    if r.success then (if Filled(r.message) then r.message else Stringify(r.data, render))
    else Some(labels.failed + Show(r.error))
  }

  /** The reply of a handler built by `createToolHandler`, for one call. */
  function Invoke(labels: Labels, business: Business, params: Option<Json>, context: Option<Context>, world: World, render: Renderer): (reply: ToolReply)
    ensures SingleText(reply)
    ensures !Filled(ApiKey(ConfigOf(context), world.env)) ==> reply.content[0].text == Some(labels.error + MissingKeyMessage)
  {
    MissingKeyIsNoRateLimit(MissingKeyMessage);
    var text :=
      match GetWhippyClient(ConfigOf(context), world.env)
      case Err(f) => Some(FaultText(labels, f))
      case Ok(client) =>
        match business(client, params, world.remote)
        case Returned(r) => ResultText(labels, r, render)
        case Threw(f) => Some(FaultText(labels, f));
    TextReply(text)
  }

  /** The missing-key message is never classified as a rate limit. */
  lemma MissingKeyIsNoRateLimit(message: string)
    requires message == MissingKeyMessage
    ensures !IsRateLimit(message)
  {
    MissingKeyHasNoFour();
    MissingKeyHasNoCapitalR();
    NoRateLimitWithout(message);
  }

  /** A fact about the characters of the missing-key message, in a lemma of its own so that its caller stays within the verifier's resource limit. */
  lemma MissingKeyHasNoFour()
    ensures '4' !in MissingKeyMessage
  {
  }

  /** A fact about the characters of the missing-key message, in a lemma of its own so that its caller stays within the verifier's resource limit. */
  lemma MissingKeyHasNoCapitalR()
    ensures 'R' !in MissingKeyMessage
  {
  }

  /** A message with neither a `4` nor an `R` in it is never classified as a rate limit. */
  lemma NoRateLimitWithout(message: string)
    requires '4' !in message && 'R' !in message
    ensures !IsRateLimit(message)
  {
    Absent(message, "429");
    Absent(message, "Rate Limit");
  }

  /** The `TypeError` of a failed destructuring is reported as an error, not as a rate limit, for the property names the tools use. */
  lemma DestructureIsNoRateLimit(property: string, subject: string, value: Option<Json>)
    requires Nullish(value)
    requires '4' !in property && 'R' !in property && '4' !in subject && 'R' !in subject
    ensures !IsRateLimit(FaultMessage(DestructureFault(property, subject, value)))
  {
    var what := if value.None? then "undefined" else "null";
    var message := "Cannot destructure " + "property '" + property + "' of '" + subject + "' as it is " + what + ".";
    assert FaultMessage(DestructureFault(property, subject, value)) == message;
    DestructureWordsCalm();
    assert '4' !in message && 'R' !in message;
    NoRateLimitWithout(message);
  }

  /** The fixed words of the destructuring message hold neither a `4` nor an `R`. */
  lemma DestructureWordsCalm()
    ensures '4' !in "Cannot destructure " && 'R' !in "Cannot destructure "
    ensures '4' !in "property '" && 'R' !in "property '"
    ensures '4' !in "' of '" && 'R' !in "' of '"
    ensures '4' !in "' as it is " && 'R' !in "' as it is "
    ensures '4' !in "undefined" && 'R' !in "undefined" && '4' !in "null" && 'R' !in "null"
    ensures '4' !in "." && 'R' !in "."
  {
  }

  /** Without a key the business function is never consulted: any two give the same reply. */
  lemma NoKeySkipsBusiness(labels: Labels, b1: Business, b2: Business, params: Option<Json>, context: Option<Context>, world: World, render: Renderer)
    requires !Filled(ApiKey(ConfigOf(context), world.env))
    ensures Invoke(labels, b1, params, context, world, render) == Invoke(labels, b2, params, context, world, render)
  {
  }

  /** With a key, the business function receives the client built for it, and the call parameters unchanged. */
  lemma BusinessSeesClient(labels: Labels, business: Business, params: Option<Json>, context: Option<Context>, world: World, render: Renderer)
    requires Filled(ApiKey(ConfigOf(context), world.env))
    ensures var client := ServerClient.New(ServerClient.Config(ApiKey(ConfigOf(context), world.env).value, BaseUrl(ConfigOf(context), world.env)));
      Invoke(labels, business, params, context, world, render).content[0].text ==
        match business(client, params, world.remote)
        case Returned(r) => ResultText(labels, r, render)
        case Threw(f) => Some(FaultText(labels, f))
  {
  }

  /** A successful record shows its message when that is truthy, and otherwise the dump of its data. */
  lemma SuccessText(labels: Labels, r: ApiResult, render: Renderer)
    requires r.success
    ensures Filled(r.message) ==> ResultText(labels, r, render) == r.message
    ensures !Filled(r.message) && r.data.Some? ==> ResultText(labels, r, render) == Some(render(r.data.value))
    ensures !Filled(r.message) && r.data.None? ==> ResultText(labels, r, render) == None
  {
  }

  /** A failed record shows only its error: the message the business function attached is ignored. */
  lemma FailureIgnoresMessage(labels: Labels, r: ApiResult, m: Option<string>, render: Renderer)
    requires !r.success
    ensures ResultText(labels, r, render) == ResultText(labels, r.(message := m, data := None), render)
    ensures ResultText(labels, r, render) == Some(labels.failed + Show(r.error))
  {
  }

  /** The catch block's classification: the rate-limit text exactly when the message mentions it. */
  lemma FaultClassified(labels: Labels, f: Fault)
    ensures IsRateLimit(CaughtMessage(f)) ==> FaultText(labels, f) == labels.rateLimited + CaughtMessage(f) + RateLimitAdvice
    ensures !IsRateLimit(CaughtMessage(f)) ==> FaultText(labels, f) == labels.error + CaughtMessage(f)
    ensures f.ThrownValue? ==> FaultText(labels, f) == labels.error + UnknownErrorMessage
  {
    NoRateLimitWithout(UnknownErrorMessage);
  }
}
