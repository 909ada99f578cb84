/**
 * The tool table of the TypeScript sources: seventeen tools sharing the
 * invoker of the extension build. It differs in its prefixes (stored as
 * mis-decoded bytes), in `create_campaign`, which takes `campaign_name`
 * and posts it as `title` with full contact objects, and in the nested
 * `address` and `birth_date` schemas of a contact.
 */
module LibTools {
  import opened Base
  import opened Json
  import opened Api
  import opened Mcp
  import opened Text
  import opened Invoker
  import ServerClient
  import ServerTools
  import SrcClient

  /** The three prefixes, exactly as the file stores them. */
  const ToolLabels := Labels("\U{E2}\U{152} Failed: ", "\U{E2}\U{B0} Rate Limit Exceeded: ", "\U{E2}\U{152} Error: ")

  datatype Op =
    | CreateContact | GetContact | ListContacts | SearchContacts | SendSms | SendEmail
    | CreateCampaign | GetCampaign | ListCampaigns | SendCampaign | CreateLead | GetConversation
    | ListConversations | GetCampaignAnalytics | ListAgents | GetAgent | InitiateAgentCall

  /** The tools in the order of the exported array. */
  const Ops := [CreateContact, GetContact, ListContacts, SearchContacts, SendSms, SendEmail,
                CreateCampaign, GetCampaign, ListCampaigns, SendCampaign, CreateLead, GetConversation,
                ListConversations, GetCampaignAnalytics, ListAgents, GetAgent, InitiateAgentCall]

  const ToolNames := ["create_contact", "get_contact", "list_contacts", "search_contacts",
                      "send_or_schedule_sms_or_whatsapp", "send_email", "create_campaign", "get_campaign",
                      "list_campaigns", "send_campaign", "create_lead", "get_conversation",
                      "list_conversations", "get_campaign_analytics", "list_agents", "get_agent",
                      "initiate_agent_call"]

  function Name(op: Op): string {
    match op
    case CreateContact => "create_contact"
    case GetContact => "get_contact"
    case ListContacts => "list_contacts"
    case SearchContacts => "search_contacts"
    case SendSms => "send_or_schedule_sms_or_whatsapp"
    case SendEmail => "send_email"
    case CreateCampaign => "create_campaign"
    case GetCampaign => "get_campaign"
    case ListCampaigns => "list_campaigns"
    case SendCampaign => "send_campaign"
    case CreateLead => "create_lead"
    case GetConversation => "get_conversation"
    case ListConversations => "list_conversations"
    case GetCampaignAnalytics => "get_campaign_analytics"
    case ListAgents => "list_agents"
    case GetAgent => "get_agent"
    case InitiateAgentCall => "initiate_agent_call"
  }

  function Description(op: Op): string {
    match op
    case CreateContact => "Create a new contact in Whippy with full details including address and birth date"
    case GetContact => "Get a contact by ID from Whippy"
    case ListContacts => "List contacts from Whippy with pagination. Returns { data: [...], total: number }. Use total to determine if more pages exist."
    case SearchContacts => "Search contacts by name, email, or phone with pagination. Returns full contact objects including tags, notes, and communication preferences."
    case SendSms => "Send a comprehensive SMS message via Whippy Messaging API with support for attachments, scheduling, and contact management. Phone numbers are automatically formatted to E.164 format."
    case SendEmail => "Send a comprehensive email message via Whippy Messaging API with support for attachments, CC/BCC, reply-to, and sender name"
    case CreateCampaign => "Create a new SMS campaign in Whippy with full contact details"
    case GetCampaign => "Get a campaign by ID from Whippy"
    case ListCampaigns => "List all campaigns from Whippy"
    case SendCampaign => "Send a campaign immediately via Whippy"
    case CreateLead => "Create a new lead in Whippy"
    case GetConversation => "Get a conversation by ID from Whippy"
    case ListConversations => "List conversations from Whippy with pagination. Returns { data: [...], total: number }. Use total to determine if more pages exist."
    case GetCampaignAnalytics => "Get analytics for a specific campaign"
    case ListAgents => "List AI agents from Whippy with pagination. Returns { data: [...], total: number }. Agents include voice settings, LLM configuration, and call handling preferences."
    case GetAgent => "Get a specific AI agent by ID. Returns full agent details including voice settings, LLM configuration, and provider settings."
    case InitiateAgentCall => "Initiate an outbound call with an AI agent. Agent must be active with an active LLM, and channel must support AI agents. Phone numbers are automatically formatted to E.164 format. Custom placeholders can be passed to the agent during the call."
  }

  /** `requireUserConfirmation: true`. */
  predicate Confirmed(op: Op) {
    op in {CreateContact, SendSms, SendEmail, CreateCampaign, SendCampaign, CreateLead, InitiateAgentCall}
  }

  const Str := KString(false, None)
  const EmailStr := KString(true, None)
  const Strs := KArray(KString(false, None))

  /** The six optional lines of a postal address. */
  const AddressKind := KObject([Field("address_line_one", Str, Optional), Field("address_line_two", Str, Optional),
                                Field("city", Str, Optional), Field("country", Str, Optional),
                                Field("post_code", Str, Optional), Field("state", Str, Optional)])

  /** `day` 1 to 31, `month` 1 to 12, `year` unbounded, each optional. */
  const BirthDateKind := KObject([Field("day", KNumber(Some(1), Some(31)), Optional),
                                  Field("month", KNumber(Some(1), Some(12)), Optional),
                                  Field("year", KNumber(None, None), Optional)])

  /** The descriptive fields a contact shares in both places it is declared. */
  const ContactDetails := [Field("external_id", Str, Optional), Field("default_channel_id", Str, Optional),
                           Field("language", Str, Optional), Field("address", AddressKind, Optional),
                           Field("birth_date", BirthDateKind, Optional)]

  /** One recipient of `create_campaign`: only the phone is required. */
  const RecipientKind := KObject([Field("name", Str, Optional), Field("email", EmailStr, Optional), Field("phone", Str, Required)] + ContactDetails)

  /** The declared schema of each tool, in declaration order. */
  function Schema(op: Op): seq<Field> {
    match op
    case CreateContact => [Field("name", Str, Optional), Field("email", EmailStr, Optional), Field("phone", Str, Optional)] + ContactDetails
    case GetContact => [Field("contact_id", Str, Required)]
    case ListContacts => [ServerTools.OffsetField, ServerTools.LimitField]
    case SearchContacts =>
      [Field("name", Str, Optional), Field("email", EmailStr, Optional), Field("phone", Str, Optional),
       ServerTools.LimitField, ServerTools.OffsetField]
    case SendSms =>
      [Field("to", Str, Required), Field("from", Str, Required), Field("body", KString(false, Some(1000)), Required),
       Field("attachments", Strs, Optional), Field("schedule_at", Str, Optional),
       Field("opt_in_to_all_channels", KBoolean, Optional), Field("opt_in_to", Strs, Optional)]
    case SendEmail =>
      [Field("to", Str, Required), Field("from", Str, Required), Field("subject", Str, Required), Field("body", Str, Required),
       Field("cc", Str, Optional), Field("bcc", Str, Optional), Field("reply_to", Str, Optional), Field("sender_name", Str, Optional),
       Field("attachments", Strs, Optional), Field("opt_in_to_all_channels", KBoolean, Optional), Field("opt_in_to", Strs, Optional)]
    case CreateCampaign =>
      [Field("campaign_name", Str, Required), Field("body", Str, Required), Field("from", Str, Required),
       Field("to", KArray(RecipientKind), Required), Field("attachments", Strs, Optional), Field("schedule_at", Str, Optional)]
    case GetCampaign => [Field("campaign_id", Str, Required)]
    case ListCampaigns => []
    case SendCampaign => [Field("campaign_id", Str, Required)]
    case CreateLead =>
      [Field("name", Str, Optional), Field("email", EmailStr, Optional), Field("phone", Str, Optional),
       Field("source", Str, Optional), Field("status", Str, Optional)]
    case GetConversation => [Field("conversation_id", Str, Required)]
    case ListConversations => [ServerTools.OffsetField, ServerTools.LimitField]
    case GetCampaignAnalytics => [Field("campaign_id", Str, Required)]
    case ListAgents => [Field("name", Str, Optional), ServerTools.LimitField, ServerTools.OffsetField]
    case GetAgent => [Field("agent_id", Str, Required)]
    case InitiateAgentCall =>
      [Field("agent_id", Str, Required), Field("from", Str, Required), Field("to", Str, Required),
       Field("custom_placeholders_data", KRecord(Str), Optional)]
  }

  /** The first property a business function destructures from its parameters, if it destructures at all. */
  function Destructured(op: Op): Option<string> {
    match op
    case GetContact => Some("contact_id")
    case ListContacts | ListConversations => Some("offset")
    case CreateCampaign => Some("campaign_name")
    case GetCampaign | SendCampaign | GetCampaignAnalytics => Some("campaign_id")
    case GetConversation => Some("conversation_id")
    case ListAgents => Some("name")
    case GetAgent | InitiateAgentCall => Some("agent_id")
    case _ => None
  }

  /** `{ title: campaign_name, body, from, to, attachments, schedule_at }`. */
  function CampaignPayload(params: Option<Json>): Json {
    Object([("title", Member(params, "campaign_name")), ("body", Member(params, "body")), ("from", Member(params, "from")),
            ("to", Member(params, "to")), ("attachments", Member(params, "attachments")), ("schedule_at", Member(params, "schedule_at"))])
  }

  /**
   * The client call a business function makes; none when destructuring
   * nullish parameters throws first.
   */
  function Issue(op: Op, client: ServerClient.WhippyClient, params: Option<Json>, remote: Remote): (c: Option<Call>)
    ensures c.None? <==> Destructured(op).Some? && Nullish(params)
  {
    if Destructured(op).Some? && Nullish(params) then None
    else
      Some(match op
        case CreateContact => client.CreateContact(params, remote)
        case GetContact => client.GetContact(Interpolate(Member(params, "contact_id")), remote)
        case ListContacts => client.ListContacts(Member(params, "offset"), Member(params, "limit"), remote)
        case SearchContacts => client.SearchContacts(params, remote)
        case SendSms => client.SendMessagingSms(params, remote)
        case SendEmail => client.SendMessagingEmail(params, remote)
        case CreateCampaign => client.CreateCampaign(Some(CampaignPayload(params)), remote)
        case GetCampaign => client.GetCampaign(Interpolate(Member(params, "campaign_id")), remote)
        case ListCampaigns => client.ListCampaigns(remote)
        case SendCampaign => client.SendCampaign(Interpolate(Member(params, "campaign_id")), remote)
        case CreateLead => client.CreateLead(params, remote)
        case GetConversation => client.GetConversation(Interpolate(Member(params, "conversation_id")), remote)
        case ListConversations => client.ListConversations(Member(params, "offset"), Member(params, "limit"), remote)
        case GetCampaignAnalytics => client.GetCampaignAnalytics(Interpolate(Member(params, "campaign_id")), remote)
        case ListAgents =>
          client.ListAgents(Some(ServerTools.AgentParams(Member(params, "name"), Member(params, "limit"), Member(params, "offset"))), remote)
        case GetAgent => client.GetAgent(Interpolate(Member(params, "agent_id")), remote)
        case InitiateAgentCall => client.InitiateAgentCall(Interpolate(Member(params, "agent_id")), Some(ServerTools.CallPayload(params)), remote))
  }

  /** The fixed opening of each tool's message, up to the first interpolated value. */
  function Banner(op: Op): (b: string)
    ensures |b| > 0
  {
    match op
    case CreateContact => "\U{E2}\U{153}\U{2026} Contact created successfully!\n"
    case GetContact => "\U{11F}\U{178}\U{201C}\U{2039} Contact Details:\n"
    case ListContacts => "\U{11F}\U{178}\U{201C}\U{2039} Contacts (Offset: "
    case SearchContacts => "\U{11F}\U{178}\U{201D} Contact Search Results:\n"
    case SendSms => "\U{11F}\U{178}\U{201C}\U{B1} Messaging SMS sent successfully!\n\nMessage ID: "
    case SendEmail => "\U{11F}\U{178}\U{201C}\U{A7} Messaging Email sent successfully!\n"
    case CreateCampaign => "\U{11F}\U{178}\U{161}\U{20AC} SMS Campaign created successfully!\n"
    case GetCampaign => "\U{11F}\U{178}\U{201C}\U{160} Campaign Details:\n"
    case ListCampaigns => "\U{11F}\U{178}\U{201C}\U{160} Campaigns:\n"
    case SendCampaign => "\U{11F}\U{178}\U{161}\U{20AC} Campaign sent successfully!\n"
    case CreateLead => "\U{11F}\U{178}\U{AF} Lead created successfully!\n"
    case GetConversation => "\U{11F}\U{178}\U{2019}\U{AC} Conversation Details:\n"
    case ListConversations => "\U{11F}\U{178}\U{2019}\U{AC} Conversations (Offset: "
    case GetCampaignAnalytics => "\U{11F}\U{178}\U{201C}\U{160} Campaign Analytics:\n"
    case ListAgents => "\U{11F}\U{178}\U{A4}\U{2013} Agents (Offset: "
    case GetAgent => "\U{11F}\U{178}\U{A4}\U{2013} Agent Details:\n"
    case InitiateAgentCall => "\U{11F}\U{178}\U{201C} Agent Call Initiated:\n"
  }

  /** The message a business function writes over the record, whatever its outcome. */
  function SuccessMessage(op: Op, params: Option<Json>, r: ApiResult, render: Renderer): (m: string)
    ensures StartsWith(m, Banner(op))
  {
    var dump := Dump(r.data, render);
    var page := Interpolate(Member(params, "offset")) + ", Limit: " + Interpolate(Member(params, "limit")) + "):\n" + dump;
    var rest :=
      match op
      case ListContacts | ListConversations | ListAgents => page
      case SendSms =>
        Interpolate(Member(r.data, "id"))
        + "\nConversation ID: " + Interpolate(Member(r.data, "conversation_id"))
        + "\nDelivery Status: " + Interpolate(Member(r.data, "delivery_status"))
        + "\n\nFull Response:\n" + dump
      case SendCampaign => Show(r.message)
      case _ => dump;
    Banner(op) + rest
  }

  /** The business function: the destructuring `TypeError`, or the client's record with its message replaced. */
  function Run(op: Op, client: ServerClient.WhippyClient, params: Option<Json>, remote: Remote, render: Renderer): (o: BusinessOutcome)
    ensures o.Threw? <==> Issue(op, client, params, remote).None?
    ensures o.Threw? ==> o.fault == DestructureFault(Destructured(op).value, "undefined", params)
    ensures o.Returned? ==> var r := Issue(op, client, params, remote).value.result;
      && o.result.success == r.success && o.result.data == r.data && o.result.error == r.error
      && Filled(o.result.message)
      && StartsWith(o.result.message.value, Banner(op))
  {
    match Issue(op, client, params, remote)
    case None => Threw(DestructureFault(Destructured(op).value, "undefined", params))
    case Some(c) => Returned(c.result.(message := Some(SuccessMessage(op, params, c.result, render))))
  }

  /** `createToolHandler(...)` for one tool: it always resolves, with one text block. */
  function ToolHandler(op: Op, render: Renderer): (h: Handler)
    ensures forall params, context, world :: h(params, context, world).Resolved? && SingleText(h(params, context, world).reply)
  {
    (params, context, world) =>
      Resolved(Invoke(ToolLabels, (client: ServerClient.WhippyClient, p: Option<Json>, remote: Remote) => Run(op, client, p, remote, render), params, context, world, render))
  }

  function Tool(op: Op, render: Renderer): ToolDef {
    ToolDef(Name(op), Description(op), Confirmed(op), Schema(op), ToolHandler(op, render))
  }

  /** The exported `tools` array. */
  function Tools(render: Renderer): (tools: seq<ToolDef>)
    ensures |tools| == |Ops|
    ensures forall k :: 0 <= k < |Ops| ==> tools[k].name == Name(Ops[k]) && tools[k].handler == ToolHandler(Ops[k], render)
  {
    seq(|Ops|, k requires 0 <= k < |Ops| => Tool(Ops[k], render))
  }

  /** The seventeen tools under their published names, no two alike. */
  lemma Catalogue(render: Renderer)
    ensures Names(Tools(render)) == ToolNames
    ensures Distinct(Names(Tools(render)))
  {
    var names := Names(Tools(render));
    forall k | 0 <= k < |Ops| ensures names[k] == ToolNames[k] {
      assert names[k] == Name(Ops[k]);
      NameAt(k);
    }
    assert names == ToolNames;
    forall i | 0 <= i < |ToolNames| ensures forall j :: i < j < |ToolNames| ==> ToolNames[i] != ToolNames[j] {
      NameRow(i);
    }
  }

  /** The name at position `k` of the tool list, one position per call, which keeps Catalogue within the verifier's resource limit. */
  lemma NameAt(k: nat)
    requires k < |Ops|
    ensures Name(Ops[k]) == ToolNames[k]
  {
  }

  /** The name at position `i` differs from every later name; one row per call keeps Catalogue within the verifier's resource limit. */
  lemma NameRow(i: nat)
    requires i < |ToolNames|
    ensures forall j :: i < j < |ToolNames| ==> ToolNames[i] != ToolNames[j]
  {
  }

  /** The handler's text is what the shared invoker makes of this tool's business function. */
  lemma HandlerText(op: Op, params: Option<Json>, context: Option<Context>, world: World, render: Renderer)
    requires Filled(ApiKey(ConfigOf(context), world.env))
    ensures ToolHandler(op, render)(params, context, world).reply.content[0].text ==
      match Run(op, ServerTools.ClientFor(context, world), params, world.remote, render)
      case Returned(r) => ResultText(ToolLabels, r, render)
      case Threw(f) => Some(FaultText(ToolLabels, f))
  {
    var business := (client: ServerClient.WhippyClient, p: Option<Json>, remote: Remote) => Run(op, client, p, remote, render);
    BusinessSeesClient(ToolLabels, business, params, context, world, render);
  }

  /** No property name the tools destructure holds a `4` or an `R`. */
  lemma DestructuredCalm(op: Op)
    requires Destructured(op).Some?
    ensures '4' !in Destructured(op).value && 'R' !in Destructured(op).value
  {
  }

  /**
   * The text a tool answers with: the missing-key error; the destructuring
   * error for a tool called without parameters; the tool's message when the
   * client call succeeded; or the failure text carrying the client's error.
   */
  lemma ReplyText(op: Op, params: Option<Json>, context: Option<Context>, world: World, render: Renderer)
    ensures var text := ToolHandler(op, render)(params, context, world).reply.content[0].text;
      && (!Filled(ApiKey(ConfigOf(context), world.env)) ==> text == Some(ToolLabels.error + MissingKeyMessage))
      && (Filled(ApiKey(ConfigOf(context), world.env)) && Destructured(op).Some? && Nullish(params) ==>
            text == Some(ToolLabels.error + FaultMessage(DestructureFault(Destructured(op).value, "undefined", params))))
      && (Filled(ApiKey(ConfigOf(context), world.env)) && !(Destructured(op).Some? && Nullish(params)) ==>
            var r := Issue(op, ServerTools.ClientFor(context, world), params, world.remote).value.result;
            text == (if r.success then Some(SuccessMessage(op, params, r, render)) else Some(ToolLabels.failed + Show(r.error))))
  {
    if !Filled(ApiKey(ConfigOf(context), world.env)) {
      KeyMissingText(op, params, context, world, render);
    } else if Destructured(op).Some? && Nullish(params) {
      ThrownText(op, params, context, world, render);
    } else {
      SettledText(op, params, context, world, render);
    }
  }

  /** Without a key the handler answers with the missing-key error. */
  lemma KeyMissingText(op: Op, params: Option<Json>, context: Option<Context>, world: World, render: Renderer)
    requires !Filled(ApiKey(ConfigOf(context), world.env))
    ensures ToolHandler(op, render)(params, context, world).reply.content[0].text == Some(ToolLabels.error + MissingKeyMessage)
  {
  }

  /** A destructuring tool called without parameters answers with the `TypeError`. */
  lemma ThrownText(op: Op, params: Option<Json>, context: Option<Context>, world: World, render: Renderer)
    requires Filled(ApiKey(ConfigOf(context), world.env)) && Destructured(op).Some? && Nullish(params)
    ensures ToolHandler(op, render)(params, context, world).reply.content[0].text == Some(ToolLabels.error + FaultMessage(DestructureFault(Destructured(op).value, "undefined", params)))
  {
    HandlerText(op, params, context, world, render);
    DestructuredCalm(op);
    DestructureIsNoRateLimit(Destructured(op).value, "undefined", params);
  }

  /** Otherwise the handler answers with the tool's message or the failure text. */
  lemma SettledText(op: Op, params: Option<Json>, context: Option<Context>, world: World, render: Renderer)
    requires Filled(ApiKey(ConfigOf(context), world.env)) && !(Destructured(op).Some? && Nullish(params))
    ensures var r := Issue(op, ServerTools.ClientFor(context, world), params, world.remote).value.result;
      ToolHandler(op, render)(params, context, world).reply.content[0].text == (if r.success then Some(SuccessMessage(op, params, r, render)) else Some(ToolLabels.failed + Show(r.error)))
  {
    HandlerText(op, params, context, world, render);
  }

  /** Every declared default meets its bounds, and no schema, nested ones included, declares a key twice. */
  lemma SchemasWellFormed(op: Op)
    ensures WellFormed(Schema(op))
  {
    var schema := Schema(op);
    NestedWellFormed();
    forall i | 0 <= i < |schema| ensures FieldWellFormed(schema[i]) && forall j :: i < j < |schema| ==> schema[i].key != schema[j].key {
      KeyRow(op, i);
    }
  }

  /** The address, birth-date and recipient sub-schemas have well-formed fields with distinct keys. */
  lemma NestedWellFormed()
    ensures WellFormed(AddressKind.fields) && WellFormed(BirthDateKind.fields) && WellFormed(RecipientKind.fields)
  {
    var recipient := RecipientKind.fields;
    forall i | 0 <= i < |recipient| ensures FieldWellFormed(recipient[i]) && forall j :: i < j < |recipient| ==> recipient[i].key != recipient[j].key {
      RecipientRow(i);
    }
  }

  /** Field `i` of the recipient sub-schema, one row per call, which keeps NestedWellFormed within the verifier's resource limit. */
  lemma RecipientRow(i: nat)
    requires i < |RecipientKind.fields|
    requires WellFormed(AddressKind.fields) && WellFormed(BirthDateKind.fields)
    ensures FieldWellFormed(RecipientKind.fields[i])
    ensures forall j :: i < j < |RecipientKind.fields| ==> RecipientKind.fields[i].key != RecipientKind.fields[j].key
  {
  }

  /** Field `i` of a tool's schema is well formed and no later field has its key; split by tool so that SchemasWellFormed stays within the verifier's resource limit. */
  lemma KeyRow(op: Op, i: nat)
    requires i < |Schema(op)|
    requires WellFormed(AddressKind.fields) && WellFormed(BirthDateKind.fields) && WellFormed(RecipientKind.fields)
    ensures FieldWellFormed(Schema(op)[i])
    ensures forall j :: i < j < |Schema(op)| ==> Schema(op)[i].key != Schema(op)[j].key
  {
    match op
    case CreateContact => ContactRow(i);
    case GetContact =>
    case ListContacts =>
    case SearchContacts => SearchRow(i);
    case SendSms => SmsRow(i);
    case SendEmail => EmailRow(i);
    case CreateCampaign => CampaignRow(i);
    case GetCampaign =>
    case ListCampaigns =>
    case SendCampaign =>
    case CreateLead => LeadRow(i);
    case GetConversation =>
    case ListConversations =>
    case GetCampaignAnalytics =>
    case ListAgents => AgentsRow(i);
    case GetAgent =>
    case InitiateAgentCall => AgentCallRow(i);
  }

  /** KeyRow for the `create_contact` schema, in a lemma of its own so that KeyRow stays within the verifier's resource limit. */
  lemma ContactRow(i: nat)
    requires i < |Schema(CreateContact)|
    requires WellFormed(AddressKind.fields) && WellFormed(BirthDateKind.fields) && WellFormed(RecipientKind.fields)
    ensures FieldWellFormed(Schema(CreateContact)[i])
    ensures forall j :: i < j < |Schema(CreateContact)| ==> Schema(CreateContact)[i].key != Schema(CreateContact)[j].key
  {
  }

  /** KeyRow for the `search_contacts` schema, in a lemma of its own so that KeyRow stays within the verifier's resource limit. */
  lemma SearchRow(i: nat)
    requires i < |Schema(SearchContacts)|
    requires WellFormed(AddressKind.fields) && WellFormed(BirthDateKind.fields) && WellFormed(RecipientKind.fields)
    ensures FieldWellFormed(Schema(SearchContacts)[i])
    ensures forall j :: i < j < |Schema(SearchContacts)| ==> Schema(SearchContacts)[i].key != Schema(SearchContacts)[j].key
  {
  }

  /** KeyRow for the `send_or_schedule_sms_or_whatsapp` schema, in a lemma of its own so that KeyRow stays within the verifier's resource limit. */
  lemma SmsRow(i: nat)
    requires i < |Schema(SendSms)|
    requires WellFormed(AddressKind.fields) && WellFormed(BirthDateKind.fields) && WellFormed(RecipientKind.fields)
    ensures FieldWellFormed(Schema(SendSms)[i])
    ensures forall j :: i < j < |Schema(SendSms)| ==> Schema(SendSms)[i].key != Schema(SendSms)[j].key
  {
  }

  /** KeyRow for the `send_email` schema, in a lemma of its own so that KeyRow stays within the verifier's resource limit. */
  lemma EmailRow(i: nat)
    requires i < |Schema(SendEmail)|
    requires WellFormed(AddressKind.fields) && WellFormed(BirthDateKind.fields) && WellFormed(RecipientKind.fields)
    ensures FieldWellFormed(Schema(SendEmail)[i])
    ensures forall j :: i < j < |Schema(SendEmail)| ==> Schema(SendEmail)[i].key != Schema(SendEmail)[j].key
  {
  }

  /** KeyRow for the `create_campaign` schema, in a lemma of its own so that KeyRow stays within the verifier's resource limit. */
  lemma CampaignRow(i: nat)
    requires i < |Schema(CreateCampaign)|
    requires WellFormed(AddressKind.fields) && WellFormed(BirthDateKind.fields) && WellFormed(RecipientKind.fields)
    ensures FieldWellFormed(Schema(CreateCampaign)[i])
    ensures forall j :: i < j < |Schema(CreateCampaign)| ==> Schema(CreateCampaign)[i].key != Schema(CreateCampaign)[j].key
  {
  }

  /** KeyRow for the `create_lead` schema, in a lemma of its own so that KeyRow stays within the verifier's resource limit. */
  lemma LeadRow(i: nat)
    requires i < |Schema(CreateLead)|
    requires WellFormed(AddressKind.fields) && WellFormed(BirthDateKind.fields) && WellFormed(RecipientKind.fields)
    ensures FieldWellFormed(Schema(CreateLead)[i])
    ensures forall j :: i < j < |Schema(CreateLead)| ==> Schema(CreateLead)[i].key != Schema(CreateLead)[j].key
  {
  }

  /** KeyRow for the `list_agents` schema, in a lemma of its own so that KeyRow stays within the verifier's resource limit. */
  lemma AgentsRow(i: nat)
    requires i < |Schema(ListAgents)|
    requires WellFormed(AddressKind.fields) && WellFormed(BirthDateKind.fields) && WellFormed(RecipientKind.fields)
    ensures FieldWellFormed(Schema(ListAgents)[i])
    ensures forall j :: i < j < |Schema(ListAgents)| ==> Schema(ListAgents)[i].key != Schema(ListAgents)[j].key
  {
  }

  /** KeyRow for the `initiate_agent_call` schema, in a lemma of its own so that KeyRow stays within the verifier's resource limit. */
  lemma AgentCallRow(i: nat)
    requires i < |Schema(InitiateAgentCall)|
    requires WellFormed(AddressKind.fields) && WellFormed(BirthDateKind.fields) && WellFormed(RecipientKind.fields)
    ensures FieldWellFormed(Schema(InitiateAgentCall)[i])
    ensures forall j :: i < j < |Schema(InitiateAgentCall)| ==> Schema(InitiateAgentCall)[i].key != Schema(InitiateAgentCall)[j].key
  {
  }

  /** The four paginated tools declare `offset` (at least 0, default 0) and `limit` (1 to 100, default 50). */
  lemma PaginationDeclared(op: Op)
    requires op in {ListContacts, SearchContacts, ListConversations, ListAgents}
    ensures FieldOf(Schema(op), "offset") == Some(ServerTools.OffsetField)
    ensures FieldOf(Schema(op), "limit") == Some(ServerTools.LimitField)
  {
    var schema := Schema(op);
    match op
    case ListContacts | ListConversations =>
      FieldAt(schema, 0);
      FieldAt(schema, 1);
    case SearchContacts =>
      FieldAt(schema, 3);
      FieldAt(schema, 4);
    case ListAgents =>
      FieldAt(schema, 1);
      FieldAt(schema, 2);
  }

  /**
   * The declared bounds of a contact, and of each campaign recipient: a
   * birth day from 1 to 31 and a month from 1 to 12. The SMS body is at
   * most 1000 characters.
   */
  lemma DeclaredBounds()
    ensures FieldOf(Schema(CreateContact), "birth_date") == Some(Field("birth_date", BirthDateKind, Optional))
    ensures FieldOf(BirthDateKind.fields, "day") == Some(Field("day", KNumber(Some(1), Some(31)), Optional))
    ensures FieldOf(BirthDateKind.fields, "month") == Some(Field("month", KNumber(Some(1), Some(12)), Optional))
    ensures FieldOf(Schema(CreateCampaign), "to") == Some(Field("to", KArray(RecipientKind), Required))
    ensures FieldOf(RecipientKind.fields, "birth_date") == Some(Field("birth_date", BirthDateKind, Optional))
    ensures FieldOf(Schema(SendSms), "body") == Some(Field("body", KString(false, Some(1000)), Required))
  {
    BirthDateDeclared();
    RecipientsDeclared();
    FieldAt(Schema(SendSms), 2);
  }

  /** `create_contact` declares an optional `birth_date` object whose `day` is 1..31 and `month` 1..12. */
  lemma BirthDateDeclared()
    ensures FieldOf(Schema(CreateContact), "birth_date") == Some(Field("birth_date", BirthDateKind, Optional))
    ensures FieldOf(BirthDateKind.fields, "day") == Some(Field("day", KNumber(Some(1), Some(31)), Optional))
    ensures FieldOf(BirthDateKind.fields, "month") == Some(Field("month", KNumber(Some(1), Some(12)), Optional))
  {
    FieldAt(Schema(CreateContact), 7);
    FieldAt(BirthDateKind.fields, 0);
    FieldAt(BirthDateKind.fields, 1);
  }

  /** `create_campaign` requires a `to` array of recipients, each with an optional `birth_date`. */
  lemma RecipientsDeclared()
    ensures FieldOf(Schema(CreateCampaign), "to") == Some(Field("to", KArray(RecipientKind), Required))
    ensures FieldOf(RecipientKind.fields, "birth_date") == Some(Field("birth_date", BirthDateKind, Optional))
  {
    FieldAt(Schema(CreateCampaign), 3);
    FieldAt(RecipientKind.fields, 7);
  }

  /** `create_campaign` posts `campaign_name` as `title` and the other five fields unchanged, and nothing else. */
  lemma CampaignPayloadFields(params: Option<Json>)
    ensures var body := CampaignPayload(params);
      && Get(body, "title") == Member(params, "campaign_name")
      && Get(body, "body") == Member(params, "body")
      && Get(body, "from") == Member(params, "from")
      && Get(body, "to") == Member(params, "to")
      && Get(body, "attachments") == Member(params, "attachments")
      && Get(body, "schedule_at") == Member(params, "schedule_at")
      && (forall key :: key !in {"title", "body", "from", "to", "attachments", "schedule_at"} ==> Get(body, key) == None)
  {
    var fields := [("title", Member(params, "campaign_name")), ("body", Member(params, "body")), ("from", Member(params, "from")),
                   ("to", Member(params, "to")), ("attachments", Member(params, "attachments")), ("schedule_at", Member(params, "schedule_at"))];
    assert DistinctKeys(fields);
    ObjectField(fields, 0);
    ObjectField(fields, 1);
    ObjectField(fields, 2);
    ObjectField(fields, 3);
    ObjectField(fields, 4);
    ObjectField(fields, 5);
    forall key | key !in {"title", "body", "from", "to", "attachments", "schedule_at"} ensures Get(CampaignPayload(params), key) == None {
      GetObject(fields, key);
      WrittenAbsent(fields, key);
    }
  }

  /** This table's `create_campaign` reaches the campaign endpoint with the payload above. */
  lemma CampaignRequest(client: ServerClient.WhippyClient, params: Option<Json>, remote: Remote)
    requires !Nullish(params)
    ensures var c := Issue(CreateCampaign, client, params, remote).value;
      c.request.verb == POST && c.request.body == Some(CampaignPayload(params))
  {
  }

  /**
   * `list_agents` issues the call of the extension build, so it queries
   * `limit` and `offset`, then `name` only when it is truthy; each goes out
   * only when it is neither `undefined` nor `null`.
   */
  lemma ListAgentsQuery(client: ServerClient.WhippyClient, params: Option<Json>, remote: Remote)
    ensures Issue(ListAgents, client, params, remote) == ServerTools.Issue(ServerTools.ListAgents, client, params, remote)
    ensures Nullish(params) ==> Issue(ListAgents, client, params, remote).None?
    ensures !Nullish(params) ==>
      var name := Member(params, "name");
      var c := Issue(ListAgents, client, params, remote).value;
      && c.request.verb == GET && c.request.path == "/agents"
      && c.request.query == Query([("limit", Member(params, "limit")), ("offset", Member(params, "offset"))]
                                  + (if Truthy(name) then [("name", name)] else []))
    ensures !Nullish(params) && !Nullish(Member(params, "limit")) && !Nullish(Member(params, "offset")) ==>
      var name := Member(params, "name");
      Issue(ListAgents, client, params, remote).value.request.query ==
        [("limit", Member(params, "limit").value), ("offset", Member(params, "offset").value)]
        + (if Truthy(name) then [("name", name.value)] else [])
  {
    if !Nullish(params) {
      AgentsIssued(client, params, remote);
      ServerTools.AgentsIssued(client, params, remote);
    }
    ServerTools.ListAgentsQuery(client, params, remote);
  }

  /** What `list_agents` hands the client. */
  lemma AgentsIssued(client: ServerClient.WhippyClient, params: Option<Json>, remote: Remote)
    requires !Nullish(params)
    ensures Issue(ListAgents, client, params, remote) == Some(client.ListAgents(Some(ServerTools.AgentParams(Member(params, "name"), Member(params, "limit"), Member(params, "offset"))), remote))
  {
  }

  /**
   * `{ api_key, base_url }`, the object `getWhippyClient` hands to the client
   * of src/lib/whippy-client.ts that this file imports: that client reads
   * `apiKey` and `baseUrl`, and the object has neither.
   */
  function ConfigAsWritten(key: string, baseUrl: Option<string>): SrcClient.Config {
    SrcClient.Config(None, None)
  }

  /** As written, the imported client authenticates as `Bearer undefined` and ignores the configured base URL. */
  lemma BearerUndefined(key: string, baseUrl: Option<string>)
    ensures var client := SrcClient.New(ConfigAsWritten(key, baseUrl));
      && client.apiKey == None
      && Header(client.client.headers, "Authorization") == Some("Bearer undefined")
      && (key != "undefined" ==> Header(client.client.headers, "Authorization") != Some("Bearer " + key))
      && client.client.baseUrl == DefaultBaseUrl
  {
    assert "Bearer " + "undefined" == "Bearer undefined";
    assert ("Bearer " + key)[7..] == key;
    assert "Bearer undefined"[7..] == "undefined";
  }
}
