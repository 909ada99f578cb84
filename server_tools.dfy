/**
 * The tool table of the extension build: eighteen tools, each a name, a
 * description, a confirmation flag, a declared schema and a handler built by
 * `createToolHandler` around a business function. A business function reads
 * its arguments out of the call parameters, calls one client method and, on
 * any outcome, replaces the record's message with its own banner and a dump
 * of the data.
 */
module ServerTools {
  import opened Base
  import opened Json
  import opened Api
  import opened Mcp
  import opened Text
  import opened Invoker
  import ServerClient

  /** `❌ Failed: `, `⏰ Rate Limit Exceeded: ` and `❌ Error: `. */
  const ToolLabels := Labels("\U{274C} Failed: ", "\U{23F0} Rate Limit Exceeded: ", "\U{274C} Error: ")

  datatype Op =
    | CreateContact | GetContact | ListContacts | SearchContacts | SendSms | SendMessagingSms
    | SendEmail | CreateCampaign | GetCampaign | ListCampaigns | SendCampaign | CreateLead
    | GetConversation | ListConversations | GetCampaignAnalytics | ListAgents | GetAgent | InitiateAgentCall

  /** The tools in the order of the exported array. */
  const Ops := [CreateContact, GetContact, ListContacts, SearchContacts, SendSms, SendMessagingSms,
                SendEmail, CreateCampaign, GetCampaign, ListCampaigns, SendCampaign, CreateLead,
                GetConversation, ListConversations, GetCampaignAnalytics, ListAgents, GetAgent, InitiateAgentCall]

  const ToolNames := ["create_contact", "get_contact", "list_contacts", "search_contacts",
                      "send_or_schedule_sms_or_whatsapp", "send_messaging_sms", "send_email",
                      "create_campaign", "get_campaign", "list_campaigns", "send_campaign", "create_lead",
                      "get_conversation", "list_conversations", "get_campaign_analytics", "list_agents",
                      "get_agent", "initiate_agent_call"]

  function Name(op: Op): string {
    match op
    case CreateContact => "create_contact"
    case GetContact => "get_contact"
    case ListContacts => "list_contacts"
    case SearchContacts => "search_contacts"
    case SendSms => "send_or_schedule_sms_or_whatsapp"
    case SendMessagingSms => "send_messaging_sms"
    case SendEmail => "send_email"
    case CreateCampaign => "create_campaign"
    case GetCampaign => "get_campaign"
    case ListCampaigns => "list_campaigns"
    case SendCampaign => "send_campaign"
    case CreateLead => "create_lead"
    case GetConversation => "get_conversation"
    case ListConversations => "list_conversations"
    case GetCampaignAnalytics => "get_campaign_analytics"
    case ListAgents => "list_agents"
    case GetAgent => "get_agent"
    case InitiateAgentCall => "initiate_agent_call"
  }

  function Description(op: Op): string {
    match op
    case CreateContact => "Create a new contact in Whippy"
    case GetContact => "Get a contact by ID from Whippy"
    case ListContacts => "List contacts from Whippy with pagination. Returns { data: [...], total: number }. Use total to determine if more pages exist."
    case SearchContacts => "Search contacts by name, email, or phone with pagination. Returns full contact objects including tags, notes, and communication preferences."
    case SendSms => "Send or schedule an SMS or WhatsApp message via Whippy. Phone numbers are automatically formatted to E.164 format. Schedule at is optional and must be in ISO 8601 format. From number must be a valid phone number that supports SMS or WhatsApp in the organization."
    case SendMessagingSms => "Send a comprehensive SMS message via Whippy Messaging API with support for attachments, scheduling, and contact management. Phone numbers are automatically formatted to E.164 format."
    case SendEmail => "Send a comprehensive email message via Whippy Messaging API with support for attachments, CC/BCC, reply-to, and sender name"
    case CreateCampaign => "Create a new campaign in Whippy"
    case GetCampaign => "Get a campaign by ID from Whippy"
    case ListCampaigns => "List all campaigns from Whippy"
    case SendCampaign => "Send a campaign immediately via Whippy"
    case CreateLead => "Create a new lead in Whippy"
    case GetConversation => "Get a conversation by ID from Whippy"
    case ListConversations => "List conversations from Whippy with pagination. Returns { data: [...], total: number }. Use total to determine if more pages exist."
    case GetCampaignAnalytics => "Get analytics for a specific campaign"
    case ListAgents => "List AI agents from Whippy with pagination. Returns { data: [...], total: number }. Agents include voice settings, LLM configuration, and call handling preferences."
    case GetAgent => "Get a specific AI agent by ID. Returns full agent details including voice settings, LLM configuration, and provider settings."
    case InitiateAgentCall => "Initiate an outbound call with an AI agent. Agent must be active with an active LLM, and channel must support AI agents. Phone numbers are automatically formatted to E.164 format. Custom placeholders can be passed to the agent during the call."
  }

  /** `requireUserConfirmation: true`. */
  predicate Confirmed(op: Op) {
    op in {CreateContact, SendSms, SendMessagingSms, SendEmail, CreateCampaign, SendCampaign, CreateLead, InitiateAgentCall}
  }

  const Str := KString(false, None)
  const EmailStr := KString(true, None)
  const Strs := KArray(KString(false, None))

  /** `z.number().min(0).default(0)`. */
  const OffsetField := Field("offset", KNumber(Some(0), None), Defaulted(JNum(0)))

  /** `z.number().min(1).max(100).default(50)`. */
  const LimitField := Field("limit", KNumber(Some(1), Some(100)), Defaulted(JNum(50)))

  /** The declared schema of each tool, in declaration order. */
  function Schema(op: Op): seq<Field> {
    match op
    case CreateContact => [Field("name", Str, Optional), Field("email", EmailStr, Optional), Field("phone", Str, Optional)]
    case GetContact => [Field("contact_id", Str, Required)]
    case ListContacts => [OffsetField, LimitField]
    case SearchContacts => [Field("name", Str, Optional), Field("email", EmailStr, Optional), Field("phone", Str, Optional), LimitField, OffsetField]
    case SendSms => [Field("to", Str, Required), Field("message", Str, Required), Field("from", Str, Optional)]
    case SendMessagingSms =>
      [Field("to", Str, Required), Field("from", Str, Required), Field("body", KString(false, Some(1000)), Required),
       Field("attachments", Strs, Optional), Field("schedule_at", Str, Optional),
       Field("opt_in_to_all_channels", KBoolean, Optional), Field("opt_in_to", Strs, Optional)]
    case SendEmail =>
      [Field("to", Str, Required), Field("from", Str, Required), Field("subject", Str, Required), Field("body", Str, Required),
       Field("cc", Str, Optional), Field("bcc", Str, Optional), Field("reply_to", Str, Optional), Field("sender_name", Str, Optional),
       Field("attachments", Strs, Optional), Field("opt_in_to_all_channels", KBoolean, Optional), Field("opt_in_to", Strs, Optional)]
    case CreateCampaign =>
      [Field("name", Str, Required), Field("message", Str, Required), Field("contact_ids", Strs, Optional), Field("scheduled_at", Str, Optional)]
    case GetCampaign => [Field("campaignId", Str, Required)]
    case ListCampaigns => []
    case SendCampaign => [Field("campaignId", Str, Required)]
    case CreateLead =>
      [Field("name", Str, Optional), Field("email", EmailStr, Optional), Field("phone", Str, Optional),
       Field("source", Str, Optional), Field("status", Str, Optional)]
    case GetConversation => [Field("conversation_id", Str, Required)]
    case ListConversations => [OffsetField, LimitField]
    case GetCampaignAnalytics => [Field("campaign_id", Str, Required)]
    case ListAgents => [Field("name", Str, Optional), LimitField, OffsetField]
    case GetAgent => [Field("agent_id", Str, Required)]
    case InitiateAgentCall =>
      [Field("agent_id", Str, Required), Field("from", Str, Required), Field("to", Str, Required),
       Field("custom_placeholders_data", KRecord(Str), Optional)]
  }

  /** The first property a business function destructures from its parameters, if it destructures at all. */
  function Destructured(op: Op): Option<string> {
    match op
    case GetContact => Some("contact_id")
    case ListContacts | ListConversations => Some("offset")
    case SendSms => Some("to")
    case CreateCampaign | ListAgents => Some("name")
    case GetCampaign | SendCampaign => Some("campaignId")
    case GetConversation => Some("conversation_id")
    case GetCampaignAnalytics => Some("campaign_id")
    case GetAgent | InitiateAgentCall => Some("agent_id")
    case _ => None
  }

  /** `{ limit, offset }`, with `name` added only when it is truthy. */
  function AgentParams(name: Option<Json>, limit: Option<Json>, offset: Option<Json>): Json {
    Object([("limit", limit), ("offset", offset)] + (if Truthy(name) then [("name", name)] else []))
  }

  /** `{ name, message, contact_ids, scheduled_at }`. */
  function CampaignPayload(params: Option<Json>): Json {
    Object([("name", Member(params, "name")), ("message", Member(params, "message")),
            ("contact_ids", Member(params, "contact_ids")), ("scheduled_at", Member(params, "scheduled_at"))])
  }

  /** `{ from, to, custom_placeholders_data }`. */
  function CallPayload(params: Option<Json>): Json {
    Object([("from", Member(params, "from")), ("to", Member(params, "to")),
            ("custom_placeholders_data", Member(params, "custom_placeholders_data"))])
  }

  /**
   * The client call a business function makes; none when destructuring
   * nullish parameters throws first. An identifier reaches the path as
   * `${id}` writes it.
   */
  function Issue(op: Op, client: ServerClient.WhippyClient, params: Option<Json>, remote: Remote): (c: Option<Call>)
    ensures c.None? <==> Destructured(op).Some? && Nullish(params)
  {
    if Destructured(op).Some? && Nullish(params) then None
    else
      Some(match op
        case CreateContact => client.CreateContact(params, remote)
        case GetContact => client.GetContact(Interpolate(Member(params, "contact_id")), remote)
        case ListContacts => client.ListContacts(Member(params, "offset"), Member(params, "limit"), remote)
        case SearchContacts => client.SearchContacts(params, remote)
        case SendSms => client.SendSms(Member(params, "to"), Member(params, "message"), Member(params, "from"), remote)
        case SendMessagingSms => client.SendMessagingSms(params, remote)
        case SendEmail => client.SendMessagingEmail(params, remote)
        case CreateCampaign => client.CreateCampaign(Some(CampaignPayload(params)), remote)
        case GetCampaign => client.GetCampaign(Interpolate(Member(params, "campaignId")), remote)
        case ListCampaigns => client.ListCampaigns(remote)
        case SendCampaign => client.SendCampaign(Interpolate(Member(params, "campaignId")), remote)
        case CreateLead => client.CreateLead(params, remote)
        case GetConversation => client.GetConversation(Interpolate(Member(params, "conversation_id")), remote)
        case ListConversations => client.ListConversations(Member(params, "offset"), Member(params, "limit"), remote)
        case GetCampaignAnalytics => client.GetCampaignAnalytics(Interpolate(Member(params, "campaign_id")), remote)
        case ListAgents => client.ListAgents(Some(AgentParams(Member(params, "name"), Member(params, "limit"), Member(params, "offset"))), remote)
        case GetAgent => client.GetAgent(Interpolate(Member(params, "agent_id")), remote)
        case InitiateAgentCall => client.InitiateAgentCall(Interpolate(Member(params, "agent_id")), Some(CallPayload(params)), remote))
  }

  /** The fixed opening of each tool's message, up to the first interpolated value. */
  function Banner(op: Op): (b: string)
    ensures |b| > 0
  {
    match op
    case CreateContact => "\U{2705} Contact created successfully!\n"
    case GetContact => "\U{1F4CB} Contact Details:\n"
    case ListContacts => "\U{1F4CB} Contacts (Offset: "
    case SearchContacts => "\U{1F50D} Contact Search Results:\n"
    case SendSms => "\U{1F4F1} SMS sent successfully!\n"
    case SendMessagingSms => "\U{1F4F1} Messaging SMS sent successfully!\n\nMessage ID: "
    case SendEmail => "\U{1F4E7} Messaging Email sent successfully!\n"
    case CreateCampaign => "\U{1F680} Campaign created successfully!\n"
    case GetCampaign => "\U{1F4CA} Campaign Details:\n"
    case ListCampaigns => "\U{1F4CA} Campaigns:\n"
    case SendCampaign => "\U{1F680} Campaign sent successfully!\n"
    case CreateLead => "\U{1F3AF} Lead created successfully!\n"
    case GetConversation => "\U{1F4AC} Conversation Details:\n"
    case ListConversations => "\U{1F4AC} Conversations (Offset: "
    case GetCampaignAnalytics => "\U{1F4CA} Campaign Analytics:\n"
    case ListAgents => "\U{1F916} Agents (Offset: "
    case GetAgent => "\U{1F916} Agent Details:\n"
    case InitiateAgentCall => "\U{1F4DE} Agent Call Initiated:\n"
  }

  /** The message a business function writes over the record, whatever its outcome. */
  function SuccessMessage(op: Op, params: Option<Json>, r: ApiResult, render: Renderer): (m: string)
    ensures StartsWith(m, Banner(op))
  {
    var dump := Dump(r.data, render);
    var page := Interpolate(Member(params, "offset")) + ", Limit: " + Interpolate(Member(params, "limit")) + "):\n" + dump;
    var rest :=
      match op
      case ListContacts | ListConversations | ListAgents => page
      case SendMessagingSms =>
        Interpolate(Member(r.data, "id")) + "\nContact ID: " + Interpolate(Member(r.data, "contact_id"))
        + "\nConversation ID: " + Interpolate(Member(r.data, "conversation_id"))
        + "\nDelivery Status: " + Interpolate(Member(r.data, "delivery_status"))
        + "\n\nFull Response:\n" + dump
      case SendCampaign => Show(r.message)
      case _ => dump;
    Banner(op) + rest
  }

  /**
   * The business function of a tool: the destructuring `TypeError`, or the
   * client's record with its message replaced (`{ ...result, message }`).
   */
  function Run(op: Op, client: ServerClient.WhippyClient, params: Option<Json>, remote: Remote, render: Renderer): (o: BusinessOutcome)
    ensures o.Threw? <==> Issue(op, client, params, remote).None?
    ensures o.Threw? ==> o.fault == DestructureFault(Destructured(op).value, "undefined", params)
    ensures o.Returned? ==> var r := Issue(op, client, params, remote).value.result;
      && o.result.success == r.success && o.result.data == r.data && o.result.error == r.error
      && Filled(o.result.message)
      && StartsWith(o.result.message.value, Banner(op))
  {
    match Issue(op, client, params, remote)
    case None => Threw(DestructureFault(Destructured(op).value, "undefined", params))
    case Some(c) => Returned(c.result.(message := Some(SuccessMessage(op, params, c.result, render))))
  }

  /** `createToolHandler(...)` for one tool: it always resolves, with one text block. */
  function ToolHandler(op: Op, render: Renderer): (h: Handler)
    ensures forall params, context, world :: h(params, context, world).Resolved? && SingleText(h(params, context, world).reply)
  {
    (params, context, world) =>
      Resolved(Invoke(ToolLabels, (client: ServerClient.WhippyClient, p: Option<Json>, remote: Remote) => Run(op, client, p, remote, render), params, context, world, render))
  }

  function Tool(op: Op, render: Renderer): ToolDef {
    ToolDef(Name(op), Description(op), Confirmed(op), Schema(op), ToolHandler(op, render))
  }

  /** The exported `tools` array. */
  function Tools(render: Renderer): (tools: seq<ToolDef>)
    ensures |tools| == |Ops|
    ensures forall k :: 0 <= k < |Ops| ==> tools[k] == Tool(Ops[k], render)
  {
    seq(|Ops|, k requires 0 <= k < |Ops| => Tool(Ops[k], render))
  }

  /** The client a handler builds for its call context and environment. */
  function ClientFor(context: Option<Context>, world: World): ServerClient.WhippyClient
    requires Filled(ApiKey(ConfigOf(context), world.env))
  {
    ServerClient.New(ServerClient.Config(ApiKey(ConfigOf(context), world.env).value, BaseUrl(ConfigOf(context), world.env)))
  }

  /** The eighteen tools under their published names, no two alike. */
  lemma Catalogue(render: Renderer)
    ensures Names(Tools(render)) == ToolNames
    ensures Distinct(Names(Tools(render)))
  {
    var names := Names(Tools(render));
    forall k | 0 <= k < |Ops| ensures names[k] == ToolNames[k] {
      assert names[k] == Name(Ops[k]);
      NameAt(k);
    }
    assert names == ToolNames;
    forall i | 0 <= i < |ToolNames| ensures forall j :: i < j < |ToolNames| ==> ToolNames[i] != ToolNames[j] {
      NameRow(i);
    }
  }

  /** The name at position `k` of the tool list, one position per call, which keeps Catalogue within the verifier's resource limit. */
  lemma NameAt(k: nat)
    requires k < |Ops|
    ensures Name(Ops[k]) == ToolNames[k]
  {
  }

  /** The name at position `i` differs from every later name; one row per call keeps Catalogue within the verifier's resource limit. */
  lemma NameRow(i: nat)
    requires i < |ToolNames|
    ensures forall j :: i < j < |ToolNames| ==> ToolNames[i] != ToolNames[j]
  {
  }

  /** The handler's text is what the shared invoker makes of this tool's business function. */
  lemma HandlerText(op: Op, params: Option<Json>, context: Option<Context>, world: World, render: Renderer)
    requires Filled(ApiKey(ConfigOf(context), world.env))
    ensures ToolHandler(op, render)(params, context, world).reply.content[0].text ==
      match Run(op, ClientFor(context, world), params, world.remote, render)
      case Returned(r) => ResultText(ToolLabels, r, render)
      case Threw(f) => Some(FaultText(ToolLabels, f))
  {
    var business := (client: ServerClient.WhippyClient, p: Option<Json>, remote: Remote) => Run(op, client, p, remote, render);
    BusinessSeesClient(ToolLabels, business, params, context, world, render);
  }

  /** No property name the tools destructure holds a `4` or an `R`. */
  lemma DestructuredCalm(op: Op)
    requires Destructured(op).Some?
    ensures '4' !in Destructured(op).value && 'R' !in Destructured(op).value
  {
  }

  /**
   * The text a tool answers with: the missing-key error; the destructuring
   * error for a tool called without parameters; the tool's message when the
   * client call succeeded; or the failure text carrying the client's error.
   */
  lemma ReplyText(op: Op, params: Option<Json>, context: Option<Context>, world: World, render: Renderer)
    ensures var text := ToolHandler(op, render)(params, context, world).reply.content[0].text;
      && (!Filled(ApiKey(ConfigOf(context), world.env)) ==> text == Some(ToolLabels.error + MissingKeyMessage))
      && (Filled(ApiKey(ConfigOf(context), world.env)) && Destructured(op).Some? && Nullish(params) ==>
            text == Some(ToolLabels.error + FaultMessage(DestructureFault(Destructured(op).value, "undefined", params))))
      && (Filled(ApiKey(ConfigOf(context), world.env)) && !(Destructured(op).Some? && Nullish(params)) ==>
            var r := Issue(op, ClientFor(context, world), params, world.remote).value.result;
            text == (if r.success then Some(SuccessMessage(op, params, r, render)) else Some(ToolLabels.failed + Show(r.error))))
  {
    if !Filled(ApiKey(ConfigOf(context), world.env)) {
      KeyMissingText(op, params, context, world, render);
    } else if Destructured(op).Some? && Nullish(params) {
      ThrownText(op, params, context, world, render);
    } else {
      SettledText(op, params, context, world, render);
    }
  }

  /** Without a key the handler answers with the missing-key error. */
  lemma KeyMissingText(op: Op, params: Option<Json>, context: Option<Context>, world: World, render: Renderer)
    requires !Filled(ApiKey(ConfigOf(context), world.env))
    ensures ToolHandler(op, render)(params, context, world).reply.content[0].text == Some(ToolLabels.error + MissingKeyMessage)
  {
  }

  /** A destructuring tool called without parameters answers with the `TypeError`. */
  lemma ThrownText(op: Op, params: Option<Json>, context: Option<Context>, world: World, render: Renderer)
    requires Filled(ApiKey(ConfigOf(context), world.env)) && Destructured(op).Some? && Nullish(params)
    ensures ToolHandler(op, render)(params, context, world).reply.content[0].text == Some(ToolLabels.error + FaultMessage(DestructureFault(Destructured(op).value, "undefined", params)))
  {
    HandlerText(op, params, context, world, render);
    DestructuredCalm(op);
    DestructureIsNoRateLimit(Destructured(op).value, "undefined", params);
  }

  /** Otherwise the handler answers with the tool's message or the failure text. */
  lemma SettledText(op: Op, params: Option<Json>, context: Option<Context>, world: World, render: Renderer)
    requires Filled(ApiKey(ConfigOf(context), world.env)) && !(Destructured(op).Some? && Nullish(params))
    ensures var r := Issue(op, ClientFor(context, world), params, world.remote).value.result;
      ToolHandler(op, render)(params, context, world).reply.content[0].text == (if r.success then Some(SuccessMessage(op, params, r, render)) else Some(ToolLabels.failed + Show(r.error)))
  {
    HandlerText(op, params, context, world, render);
  }

  /** Every declared default meets its own bounds, and no schema declares a key twice. */
  lemma SchemasWellFormed(op: Op)
    ensures WellFormed(Schema(op))
  {
    var schema := Schema(op);
    forall i | 0 <= i < |schema| ensures FieldWellFormed(schema[i]) && forall j :: i < j < |schema| ==> schema[i].key != schema[j].key {
      KeyRow(op, i);
    }
  }

  /** Field `i` of a tool's schema is well formed and no later field has its key; split by tool so that SchemasWellFormed stays within the verifier's resource limit. */
  lemma KeyRow(op: Op, i: nat)
    requires i < |Schema(op)|
    ensures FieldWellFormed(Schema(op)[i])
    ensures forall j :: i < j < |Schema(op)| ==> Schema(op)[i].key != Schema(op)[j].key
  {
    match op
    case CreateContact =>
    case GetContact =>
    case ListContacts =>
    case SearchContacts => SearchRow(i);
    case SendSms =>
    case SendMessagingSms => MessagingSmsRow(i);
    case SendEmail => EmailRow(i);
    case CreateCampaign => CampaignRow(i);
    case GetCampaign =>
    case ListCampaigns =>
    case SendCampaign =>
    case CreateLead => LeadRow(i);
    case GetConversation =>
    case ListConversations =>
    case GetCampaignAnalytics =>
    case ListAgents => AgentsRow(i);
    case GetAgent =>
    case InitiateAgentCall => AgentCallRow(i);
  }

  /** KeyRow for the `search_contacts` schema, in a lemma of its own so that KeyRow stays within the verifier's resource limit. */
  lemma SearchRow(i: nat)
    requires i < |Schema(SearchContacts)|
    ensures FieldWellFormed(Schema(SearchContacts)[i])
    ensures forall j :: i < j < |Schema(SearchContacts)| ==> Schema(SearchContacts)[i].key != Schema(SearchContacts)[j].key
  {
  }

  /** KeyRow for the `send_messaging_sms` schema, in a lemma of its own so that KeyRow stays within the verifier's resource limit. */
  lemma MessagingSmsRow(i: nat)
    requires i < |Schema(SendMessagingSms)|
    ensures FieldWellFormed(Schema(SendMessagingSms)[i])
    ensures forall j :: i < j < |Schema(SendMessagingSms)| ==> Schema(SendMessagingSms)[i].key != Schema(SendMessagingSms)[j].key
  {
  }

  /** KeyRow for the `send_email` schema, in a lemma of its own so that KeyRow stays within the verifier's resource limit. */
  lemma EmailRow(i: nat)
    requires i < |Schema(SendEmail)|
    ensures FieldWellFormed(Schema(SendEmail)[i])
    ensures forall j :: i < j < |Schema(SendEmail)| ==> Schema(SendEmail)[i].key != Schema(SendEmail)[j].key
  {
  }

  /** KeyRow for the `create_campaign` schema, in a lemma of its own so that KeyRow stays within the verifier's resource limit. */
  lemma CampaignRow(i: nat)
    requires i < |Schema(CreateCampaign)|
    ensures FieldWellFormed(Schema(CreateCampaign)[i])
    ensures forall j :: i < j < |Schema(CreateCampaign)| ==> Schema(CreateCampaign)[i].key != Schema(CreateCampaign)[j].key
  {
  }

  /** KeyRow for the `create_lead` schema, in a lemma of its own so that KeyRow stays within the verifier's resource limit. */
  lemma LeadRow(i: nat)
    requires i < |Schema(CreateLead)|
    ensures FieldWellFormed(Schema(CreateLead)[i])
    ensures forall j :: i < j < |Schema(CreateLead)| ==> Schema(CreateLead)[i].key != Schema(CreateLead)[j].key
  {
  }

  /** KeyRow for the `list_agents` schema, in a lemma of its own so that KeyRow stays within the verifier's resource limit. */
  lemma AgentsRow(i: nat)
    requires i < |Schema(ListAgents)|
    ensures FieldWellFormed(Schema(ListAgents)[i])
    ensures forall j :: i < j < |Schema(ListAgents)| ==> Schema(ListAgents)[i].key != Schema(ListAgents)[j].key
  {
  }

  /** KeyRow for the `initiate_agent_call` schema, in a lemma of its own so that KeyRow stays within the verifier's resource limit. */
  lemma AgentCallRow(i: nat)
    requires i < |Schema(InitiateAgentCall)|
    ensures FieldWellFormed(Schema(InitiateAgentCall)[i])
    ensures forall j :: i < j < |Schema(InitiateAgentCall)| ==> Schema(InitiateAgentCall)[i].key != Schema(InitiateAgentCall)[j].key
  {
  }

  /** The four paginated tools declare `offset` (at least 0, default 0) and `limit` (1 to 100, default 50). */
  lemma PaginationDeclared(op: Op)
    requires op in {ListContacts, SearchContacts, ListConversations, ListAgents}
    ensures FieldOf(Schema(op), "offset") == Some(OffsetField)
    ensures FieldOf(Schema(op), "limit") == Some(LimitField)
    ensures Admits(OffsetField.kind, JNum(0)) && Admits(LimitField.kind, JNum(50))
  {
    var schema := Schema(op);
    match op
    case ListContacts | ListConversations =>
      FieldAt(schema, 0);
      FieldAt(schema, 1);
    case SearchContacts =>
      FieldAt(schema, 3);
      FieldAt(schema, 4);
    case ListAgents =>
      FieldAt(schema, 1);
      FieldAt(schema, 2);
  }

  /** Confirmation is asked exactly of the tools that send a POST, except the contact search. */
  lemma ConfirmationForWrites(op: Op, client: ServerClient.WhippyClient, params: Option<Json>, remote: Remote)
    requires Issue(op, client, params, remote).Some?
    ensures Confirmed(op) <==> Issue(op, client, params, remote).value.request.verb == POST && op != SearchContacts
  {
  }

  /**
   * `list_agents` queries `limit` and `offset`, then `name` only when it is
   * truthy; each goes out only when it is neither `undefined` nor `null`.
   * Parameters that cannot be destructured throw before any request.
   */
  lemma ListAgentsQuery(client: ServerClient.WhippyClient, params: Option<Json>, remote: Remote)
    ensures Nullish(params) ==> Issue(ListAgents, client, params, remote).None?
    ensures !Nullish(params) ==>
      var name := Member(params, "name");
      var c := Issue(ListAgents, client, params, remote).value;
      && c.request.verb == GET && c.request.path == "/agents"
      && c.request.query == Query([("limit", Member(params, "limit")), ("offset", Member(params, "offset"))]
                                  + (if Truthy(name) then [("name", name)] else []))
    ensures !Nullish(params) && !Nullish(Member(params, "limit")) && !Nullish(Member(params, "offset")) ==>
      var name := Member(params, "name");
      Issue(ListAgents, client, params, remote).value.request.query ==
        [("limit", Member(params, "limit").value), ("offset", Member(params, "offset").value)]
        + (if Truthy(name) then [("name", name.value)] else [])
  {
    if !Nullish(params) {
      var name := Member(params, "name");
      var pair := [("limit", Member(params, "limit")), ("offset", Member(params, "offset"))];
      var tail := if Truthy(name) then [("name", name)] else [];
      AgentsIssued(client, params, remote);
      ServerClient.ObjectQuery(pair + tail);
      if !Nullish(Member(params, "limit")) && !Nullish(Member(params, "offset")) {
        QueryAppend(pair, tail);
        QueryPair("limit", Member(params, "limit").value, "offset", Member(params, "offset").value);
        QueryOne("name", name);
      }
    }
  }

  /** What `list_agents` hands the client. */
  lemma AgentsIssued(client: ServerClient.WhippyClient, params: Option<Json>, remote: Remote)
    requires !Nullish(params)
    ensures Issue(ListAgents, client, params, remote) == Some(client.ListAgents(Some(AgentParams(Member(params, "name"), Member(params, "limit"), Member(params, "offset"))), remote))
  {
  }

  /** `create_campaign` posts exactly the four campaign fields it read, each as given. */
  lemma CampaignPayloadFields(params: Option<Json>)
    ensures var body := CampaignPayload(params);
      && Get(body, "name") == Member(params, "name")
      && Get(body, "message") == Member(params, "message")
      && Get(body, "contact_ids") == Member(params, "contact_ids")
      && Get(body, "scheduled_at") == Member(params, "scheduled_at")
      && (forall key :: key !in {"name", "message", "contact_ids", "scheduled_at"} ==> Get(body, key) == None)
  {
    var fields := [("name", Member(params, "name")), ("message", Member(params, "message")),
                   ("contact_ids", Member(params, "contact_ids")), ("scheduled_at", Member(params, "scheduled_at"))];
    ObjectField(fields, 0);
    ObjectField(fields, 1);
    ObjectField(fields, 2);
    ObjectField(fields, 3);
    forall key | key !in {"name", "message", "contact_ids", "scheduled_at"} ensures Get(CampaignPayload(params), key) == None {
      GetObject(fields, key);
      WrittenAbsent(fields, key);
    }
  }

  /** The identifier a tool reads is the path segment its request addresses, even when it is missing (`undefined`). */
  lemma IdentifierPath(op: Op, client: ServerClient.WhippyClient, params: Option<Json>, remote: Remote)
    requires op in {GetContact, GetCampaign, SendCampaign, GetConversation, GetCampaignAnalytics, GetAgent, InitiateAgentCall}
    requires !Nullish(params)
    ensures var c := Issue(op, client, params, remote).value;
      var id := Split(Interpolate(Member(params, Destructured(op).value)), '/');
      Segments(c.request.path) ==
        match op
        case GetContact => ["contacts"] + id
        case GetCampaign => ["campaigns"] + id
        case SendCampaign => ["campaigns"] + id + ["send"]
        case GetConversation => ["conversations"] + id
        case GetCampaignAnalytics => ["campaigns"] + id + ["analytics"]
        case GetAgent => ["agents"] + id
        case InitiateAgentCall => ["agents"] + id + ["call"]
        case _ => []
  {
  }

  /** A `send_campaign` that succeeds answers its banner followed by the client's confirmation. */
  lemma SendCampaignText(params: Option<Json>, context: Option<Context>, world: World, render: Renderer)
    requires Filled(ApiKey(ConfigOf(context), world.env)) && !Nullish(params)
    requires world.remote(ClientFor(context, world).client, Issue(SendCampaign, ClientFor(context, world), params, world.remote).value.request).Responded?
    ensures ToolHandler(SendCampaign, render)(params, context, world).reply.content[0].text ==
      Some(Banner(SendCampaign) + "Campaign sent successfully")
  {
    var client := ClientFor(context, world);
    var c := client.SendCampaign(Interpolate(Member(params, "campaignId")), world.remote);
    assert Issue(SendCampaign, client, params, world.remote) == Some(c);
    assert c.result.success && c.result.message == Some("Campaign sent successfully");
    assert SuccessMessage(SendCampaign, params, c.result, render) == Banner(SendCampaign) + "Campaign sent successfully";
    ReplyText(SendCampaign, params, context, world, render);
  }
}
