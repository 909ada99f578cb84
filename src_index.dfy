/**
 * The web server of src/index.ts: ten tools registered with the MCP adapter,
 * each a handler that reads the key from the environment, calls the original
 * client, and writes one text block. Success shows a tool's opening and the
 * dump of the returned data, failure the client's error, and a thrown fault
 * its message; there is no rate-limit case.
 */
module SrcIndex {
  import opened Base
  import opened Json
  import opened Api
  import opened Mcp
  import opened Text
  import Invoker
  import SrcClient

  const MissingKeyMessage := "WHIPPY_API_KEY environment variable is required"

  datatype Op =
    | CreateContact | GetContact | ListContacts | SendSms | SendEmail
    | CreateCampaign | ListCampaigns | SendCampaign | CreateLead | GetCampaignAnalytics

  /** The registration order. */
  const Ops := [CreateContact, GetContact, ListContacts, SendSms, SendEmail,
                CreateCampaign, ListCampaigns, SendCampaign, CreateLead, GetCampaignAnalytics]

  const ToolNames := ["create_contact", "get_contact", "list_contacts", "send_sms", "send_email",
                      "create_campaign", "list_campaigns", "send_campaign", "create_lead", "get_campaign_analytics"]

  function Name(op: Op): string {
    match op
    case CreateContact => "create_contact"
    case GetContact => "get_contact"
    case ListContacts => "list_contacts"
    case SendSms => "send_sms"
    case SendEmail => "send_email"
    case CreateCampaign => "create_campaign"
    case ListCampaigns => "list_campaigns"
    case SendCampaign => "send_campaign"
    case CreateLead => "create_lead"
    case GetCampaignAnalytics => "get_campaign_analytics"
  }

  function Description(op: Op): string {
    match op
    case CreateContact => "Create a new contact in Whippy"
    case GetContact => "Get a contact by ID from Whippy"
    case ListContacts => "List contacts from Whippy with pagination"
    case SendSms => "Send an SMS message via Whippy"
    case SendEmail => "Send an email via Whippy"
    case CreateCampaign => "Create a new campaign in Whippy"
    case ListCampaigns => "List all campaigns from Whippy"
    case SendCampaign => "Send a campaign immediately"
    case CreateLead => "Create a new lead in Whippy"
    case GetCampaignAnalytics => "Get analytics for a specific campaign"
  }

  const Str := KString(false, None)
  const EmailStr := KString(true, None)

  /** The zod shape each tool declares, as data. */
  function Schema(op: Op): seq<Field> {
    match op
    case CreateContact => [Field("name", Str, Optional), Field("email", EmailStr, Optional), Field("phone", Str, Optional)]
    case GetContact => [Field("contactId", Str, Required)]
    case ListContacts => [Field("offset", KNumber(Some(0), None), Defaulted(JNum(0))), Field("limit", KNumber(Some(1), Some(100)), Defaulted(JNum(50)))]
    case SendSms => [Field("to", Str, Required), Field("message", Str, Required), Field("from", Str, Optional)]
    case SendEmail => [Field("to", EmailStr, Required), Field("subject", Str, Required), Field("message", Str, Required), Field("from", EmailStr, Optional)]
    case CreateCampaign => [Field("name", Str, Required), Field("message", Str, Required), Field("contact_ids", KArray(Str), Optional), Field("scheduled_at", Str, Optional)]
    case ListCampaigns => []
    case SendCampaign => [Field("campaign_id", Str, Required)]
    case CreateLead => [Field("name", Str, Optional), Field("email", EmailStr, Optional), Field("phone", Str, Optional),
                        Field("source", Str, Optional), Field("status", Str, Optional)]
    case GetCampaignAnalytics => [Field("campaign_id", Str, Required)]
  }

  /** The first property a handler destructures from its parameters, for the handlers that destructure. */
  function Destructured(op: Op): Option<string> {
    match op
    case GetContact => Some("contactId")
    case ListContacts => Some("offset")
    case SendSms | SendEmail => Some("to")
    case CreateCampaign => Some("name")
    case SendCampaign | GetCampaignAnalytics => Some("campaign_id")
    case _ => None
  }

  /** `{ api_key }`, the object `getWhippyClient` passes: it has no `apiKey` and no `baseUrl` member. */
  function ConfigAsWritten(key: string): SrcClient.Config {
    SrcClient.Config(None, None)
  }

  /** `{ apiKey: api_key }`, the configuration the client reads. */
  function ClientConfig(key: string): SrcClient.Config {
    SrcClient.Config(Some(key), None)
  }

  /** `getWhippyClient` as written: the key is checked, then not handed over. */
  function GetWhippyClientAsWritten(env: Env): Result<SrcClient.WhippyClient, Fault> {
    if !Filled(env.whippyApiKey) then Err(ErrorFault(MissingKeyMessage))
    else Ok(SrcClient.New(ConfigAsWritten(env.whippyApiKey.value)))
  }

  /** `getWhippyClient` with the key handed to the client under the name it reads. */
  function GetWhippyClient(env: Env): (r: Result<SrcClient.WhippyClient, Fault>)
    ensures r.Err? <==> !Filled(env.whippyApiKey)
    ensures r.Err? ==> r.error == ErrorFault(MissingKeyMessage)
    ensures r.Ok? ==> r.value.apiKey == env.whippyApiKey
    ensures r.Ok? ==> Header(r.value.client.headers, "Authorization") == Some("Bearer " + env.whippyApiKey.value)
    ensures r.Ok? ==> r.value.client.baseUrl == DefaultBaseUrl
  {
    if !Filled(env.whippyApiKey) then Err(ErrorFault(MissingKeyMessage))
    else Ok(SrcClient.New(ClientConfig(env.whippyApiKey.value)))
  }

  /** As written, whatever key is set, the client authenticates as `Bearer undefined`. */
  lemma BearerUndefined(env: Env)
    requires Filled(env.whippyApiKey)
    ensures var r := GetWhippyClientAsWritten(env);
      r.Ok? && r.value.apiKey == None
      && Header(r.value.client.headers, "Authorization") == Some("Bearer undefined")
      && (env.whippyApiKey.value != "undefined" ==>
            Header(r.value.client.headers, "Authorization") != Some("Bearer " + env.whippyApiKey.value))
  {
    var key := env.whippyApiKey.value;
    assert "Bearer " + "undefined" == "Bearer undefined";
    assert GetWhippyClientAsWritten(env) == Ok(SrcClient.New(SrcClient.Config(None, None)));
    assert ("Bearer " + key)[7..] == key;
    assert "Bearer undefined"[7..] == "undefined";
  }

  /** The client call a handler makes, unless destructuring its parameters throws first. */
  function Issue(op: Op, client: SrcClient.WhippyClient, params: Option<Json>, remote: Remote): (c: Option<Call>)
    ensures c.None? <==> Destructured(op).Some? && Nullish(params)
  {
    if Destructured(op).Some? && Nullish(params) then None
    else
      Some(
        match op
        case CreateContact => client.CreateContact(params, remote)
        case GetContact => client.GetContact(Interpolate(Member(params, "contactId")), remote)
        case ListContacts => client.ListContacts(Member(params, "offset"), Member(params, "limit"), remote)
        case SendSms => client.SendSms(Member(params, "to"), Member(params, "message"), Member(params, "from"), remote)
        case SendEmail => client.SendEmail(Member(params, "to"), Member(params, "subject"), Member(params, "message"), Member(params, "from"), remote)
        case CreateCampaign => client.CreateCampaign(Some(CampaignPayload(params)), remote)
        case ListCampaigns => client.ListCampaigns(remote)
        case SendCampaign => client.SendCampaign(Interpolate(Member(params, "campaign_id")), remote)
        case CreateLead => client.CreateLead(params, remote)
        case GetCampaignAnalytics => client.GetCampaignAnalytics(Interpolate(Member(params, "campaign_id")), remote))
  }

  /** `{ name, message, contact_ids, scheduled_at }`. */
  function CampaignPayload(params: Option<Json>): Json {
    Object([("name", Member(params, "name")), ("message", Member(params, "message")),
            ("contact_ids", Member(params, "contact_ids")), ("scheduled_at", Member(params, "scheduled_at"))])
  }

  /** The fixed opening of a success text. */
  function Banner(op: Op): (b: string)
    ensures |b| > 0
  {
    match op
    case CreateContact => "\U{2705} Contact created successfully!\n"
    case GetContact => "\U{1F4CB} Contact Details:\n"
    case ListContacts => "\U{1F4CB} Contacts (Offset: "
    case SendSms => "\U{1F4F1} SMS sent successfully!\n"
    case SendEmail => "\U{1F4E7} Email sent successfully!\n"
    case CreateCampaign => "\U{1F680} Campaign created successfully!\n"
    case ListCampaigns => "\U{1F4CA} Campaigns:\n"
    case SendCampaign => "\U{1F680} Campaign sent successfully!\n"
    case CreateLead => "\U{1F3AF} Lead created successfully!\n"
    case GetCampaignAnalytics => "\U{1F4CA} Campaign Analytics:\n"
  }

  /** What `❌ Failed to …` names. */
  function Task(op: Op): string {
    match op
    case CreateContact => "create contact"
    case GetContact => "get contact"
    case ListContacts => "list contacts"
    case SendSms => "send SMS"
    case SendEmail => "send email"
    case CreateCampaign => "create campaign"
    case ListCampaigns => "list campaigns"
    case SendCampaign => "send campaign"
    case CreateLead => "create lead"
    case GetCampaignAnalytics => "get campaign analytics"
  }

  /** What `❌ Error …` names. */
  function Doing(op: Op): string {
    match op
    case CreateContact => "creating contact"
    case GetContact => "getting contact"
    case ListContacts => "listing contacts"
    case SendSms => "sending SMS"
    case SendEmail => "sending email"
    case CreateCampaign => "creating campaign"
    case ListCampaigns => "listing campaigns"
    case SendCampaign => "sending campaign"
    case CreateLead => "creating lead"
    case GetCampaignAnalytics => "getting campaign analytics"
  }

  /** The success text: the opening, the page it was asked for when listing contacts, and the dump of the data. */
  function SuccessText(op: Op, params: Option<Json>, data: Option<Json>, render: Renderer): (t: string)
    ensures StartsWith(t, Banner(op))
    ensures op != ListContacts ==> t == Banner(op) + Dump(data, render)
  {
    var page := if op == ListContacts then Interpolate(Member(params, "offset")) + ", Limit: " + Interpolate(Member(params, "limit")) + "):\n" else "";
    Banner(op) + (page + Dump(data, render))
  }

  function FailedText(op: Op, error: Option<string>): string {
    "\U{274C} Failed to " + Task(op) + ": " + Show(error)
  }

  function ErrorText(op: Op, message: string): string {
    "\U{274C} Error " + Doing(op) + ": " + message
  }

  /** The text of the `try`/`catch` body, once the parameters were destructured, given what `getWhippyClient` returned. */
  function Answer(op: Op, params: Option<Json>, built: Result<SrcClient.WhippyClient, Fault>, remote: Remote, render: Renderer): string
    requires !(Destructured(op).Some? && Nullish(params))
  {
    match built
    case Err(f) => ErrorText(op, Invoker.CaughtMessage(f))
    case Ok(client) =>
      var r := Issue(op, client, params, remote).value.result;
      if r.success then SuccessText(op, params, r.data, render) else FailedText(op, r.error)
  }

  /**
   * The registered handler. Destructuring happens at the parameter list,
   * outside the `try`, so nullish parameters make it reject; otherwise it
   * resolves with one text block. The call context is not consulted.
   */
  function ToolHandler(op: Op, render: Renderer): (h: Handler)
    ensures forall params, context, world :: h(params, context, world).Rejected? <==> Destructured(op).Some? && Nullish(params)
    ensures forall params, context, world :: h(params, context, world).Resolved? ==> SingleText(h(params, context, world).reply)
  {
    (params: Option<Json>, context: Option<Context>, world: World) =>
      if Destructured(op).Some? && Nullish(params) then Rejected(DestructureFault(Destructured(op).value, "undefined", params))
      else Resolved(TextReply(Some(Answer(op, params, GetWhippyClient(world.env), world.remote, render))))
  }

  /** The registered handler as written: the same body over the client `getWhippyClient` builds as written. */
  function ToolHandlerAsWritten(op: Op, render: Renderer): (h: Handler)
    ensures forall params, context, world :: h(params, context, world).Rejected? <==> Destructured(op).Some? && Nullish(params)
    ensures forall params, context, world :: h(params, context, world).Resolved? ==> SingleText(h(params, context, world).reply)
  {
    (params: Option<Json>, context: Option<Context>, world: World) =>
      if Destructured(op).Some? && Nullish(params) then Rejected(DestructureFault(Destructured(op).value, "undefined", params))
      else Resolved(TextReply(Some(Answer(op, params, GetWhippyClientAsWritten(world.env), world.remote, render))))
  }

  /** The tools in registration order. */
  function Registrations(render: Renderer): (tools: seq<ToolDef>)
    ensures |tools| == |Ops|
    ensures forall k :: 0 <= k < |Ops| ==> tools[k] == ToolDef(Name(Ops[k]), Description(Ops[k]), false, Schema(Ops[k]), ToolHandler(Ops[k], render))
  {
    seq(|Ops|, k requires 0 <= k < |Ops| => ToolDef(Name(Ops[k]), Description(Ops[k]), false, Schema(Ops[k]), ToolHandler(Ops[k], render)))
  }

  /** Exactly ten tools, under these names, no two alike. */
  lemma Catalogue(render: Renderer)
    ensures |Registrations(render)| == 10
    ensures Names(Registrations(render)) == ToolNames
    ensures Distinct(Names(Registrations(render)))
  {
    var names := Names(Registrations(render));
    forall k | 0 <= k < |Ops| ensures names[k] == ToolNames[k] {
      NameAt(k);
    }
    assert names == ToolNames;
    forall i | 0 <= i < |ToolNames| ensures forall j :: i < j < |ToolNames| ==> ToolNames[i] != ToolNames[j] {
      NameRow(i);
    }
  }

  /** The name at position `k` of the tool list, one position per call, which keeps Catalogue within the verifier's resource limit. */
  lemma NameAt(k: nat)
    requires k < |Ops|
    ensures Name(Ops[k]) == ToolNames[k]
  {
  }

  /** The name at position `i` differs from every later name; one row per call keeps Catalogue within the verifier's resource limit. */
  lemma NameRow(i: nat)
    requires i < |ToolNames|
    ensures forall j :: i < j < |ToolNames| ==> ToolNames[i] != ToolNames[j]
  {
  }

  /**
   * The text a tool answers with: the missing-key error; the success text
   * over the client's data; or the failure text with the client's error,
   * whatever that error says (no rate-limit case).
   */
  lemma ReplyText(op: Op, params: Option<Json>, context: Option<Context>, world: World, render: Renderer)
    requires !(Destructured(op).Some? && Nullish(params))
    ensures var text := ToolHandler(op, render)(params, context, world).reply.content[0].text;
      && (!Filled(world.env.whippyApiKey) ==> text == Some(ErrorText(op, MissingKeyMessage)))
      && (Filled(world.env.whippyApiKey) ==>
            var client := SrcClient.New(ClientConfig(world.env.whippyApiKey.value));
            var r := Issue(op, client, params, world.remote).value.result;
            text == Some(if r.success then SuccessText(op, params, r.data, render) else FailedText(op, r.error)))
  {
  }

  /**
   * The text a handler as written answers with: with a key set, the request
   * goes out over a connection that authenticates as `Bearer undefined`,
   * and the text is the success or failure text of whatever came back.
   */
  lemma ReplyTextAsWritten(op: Op, params: Option<Json>, context: Option<Context>, world: World, render: Renderer)
    requires !(Destructured(op).Some? && Nullish(params))
    ensures var text := ToolHandlerAsWritten(op, render)(params, context, world).reply.content[0].text;
      && (!Filled(world.env.whippyApiKey) ==> text == Some(ErrorText(op, MissingKeyMessage)))
      && (Filled(world.env.whippyApiKey) ==>
            var client := SrcClient.New(ConfigAsWritten(world.env.whippyApiKey.value));
            var r := Issue(op, client, params, world.remote).value.result;
            && Header(client.client.headers, "Authorization") == Some("Bearer undefined")
            && text == Some(if r.success then SuccessText(op, params, r.data, render) else FailedText(op, r.error)))
  {
    if Filled(world.env.whippyApiKey) {
      BearerUndefined(world.env);
    }
  }

  /** `list_contacts` succeeds with the page it was asked for in its text, and asks the client for page `offset`. */
  lemma ListContactsPage(offset: int, limit: int, client: SrcClient.WhippyClient, remote: Remote, render: Renderer)
    ensures var params := Some(Object([("offset", Some(JNum(offset))), ("limit", Some(JNum(limit)))]));
      var c := Issue(ListContacts, client, params, remote).value;
      && c.request.query == [("page", JNum(offset)), ("limit", JNum(limit))]
      && SuccessText(ListContacts, params, c.result.data, render) ==
           Banner(ListContacts) + (IntToString(offset) + ", Limit: " + IntToString(limit) + "):\n" + Dump(c.result.data, render))
  {
    var fields := [("offset", Some(JNum(offset))), ("limit", Some(JNum(limit)))];
    ObjectField(fields, 0);
    ObjectField(fields, 1);
  }

  /** `create_campaign` posts exactly the four campaign fields it was given. */
  lemma CampaignPayloadFields(params: Option<Json>)
    ensures var body := CampaignPayload(params);
      && Get(body, "name") == Member(params, "name")
      && Get(body, "message") == Member(params, "message")
      && Get(body, "contact_ids") == Member(params, "contact_ids")
      && Get(body, "scheduled_at") == Member(params, "scheduled_at")
      && (forall key :: key !in {"name", "message", "contact_ids", "scheduled_at"} ==> Get(body, key) == None)
  {
    var fields := [("name", Member(params, "name")), ("message", Member(params, "message")),
                   ("contact_ids", Member(params, "contact_ids")), ("scheduled_at", Member(params, "scheduled_at"))];
    ObjectField(fields, 0);
    ObjectField(fields, 1);
    ObjectField(fields, 2);
    ObjectField(fields, 3);
    CampaignPayloadOnly(params);
  }

  /** The payload holds no key but the four it writes. */
  lemma CampaignPayloadOnly(params: Option<Json>)
    ensures forall key :: key !in {"name", "message", "contact_ids", "scheduled_at"} ==> Get(CampaignPayload(params), key) == None
  {
    var fields := [("name", Member(params, "name")), ("message", Member(params, "message")),
                   ("contact_ids", Member(params, "contact_ids")), ("scheduled_at", Member(params, "scheduled_at"))];
    assert DistinctKeys(fields);
    forall key | key !in {"name", "message", "contact_ids", "scheduled_at"} ensures Get(CampaignPayload(params), key) == None {
      GetObject(fields, key);
      WrittenAbsent(fields, key);
    }
  }

  /** The page served to anything but a POST in development mode, kept as its lines; a tool line is `- ` and the tool's name. */
  const DevLines := ["Whippy MCP Server - Development Mode", "", "Available tools:",
                     "- " + "create_contact", "- " + "get_contact", "- " + "list_contacts", "- " + "send_sms",
                     "- " + "send_email", "- " + "create_campaign", "- " + "list_campaigns", "- " + "send_campaign",
                     "- " + "create_lead", "- " + "get_campaign_analytics"]

  const DevListing := Join(DevLines, '\n')

  /**
   * The development page lists exactly the registered tools (see `Catalogue`):
   * it splits into three header lines and then one line per tool, in
   * registration order.
   */
  lemma DevListingNamesTools()
    ensures Split(DevListing, '\n') == DevLines
    ensures |DevLines| == 3 + |ToolNames|
    ensures DevLines[..3] == ["Whippy MCP Server - Development Mode", "", "Available tools:"]
    ensures forall k :: 0 <= k < |ToolNames| ==> DevLines[3 + k] == "- " + ToolNames[k]
  {
    forall k | 0 <= k < |DevLines| ensures '\n' !in DevLines[k] {
      LineAt(k);
    }
    SplitJoin(DevLines, '\n');
    forall k | 0 <= k < |ToolNames| ensures DevLines[3 + k] == "- " + ToolNames[k] {
      BulletAt(k);
    }
  }

  /** Line `3 + k` of the development listing, one position per call, which keeps DevListingNamesTools within the verifier's resource limit. */
  lemma BulletAt(k: nat)
    requires k < |ToolNames|
    ensures DevLines[3 + k] == "- " + ToolNames[k]
  {
  }

  /** No line of the development listing holds a newline; one line per call, for the same reason as BulletAt. */
  lemma LineAt(k: nat)
    requires k < |DevLines|
    ensures '\n' !in DevLines[k]
  {
  }
}
