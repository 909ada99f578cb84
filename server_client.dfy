/**
 * The API client that the extension build runs (a class whose two fields,
 * the key and the configured HTTP connection, are set once by the
 * constructor). Each method issues one request and wraps its outcome in a
 * `WhippyApiResponse` record. The organization, contact (create, get,
 * search), messaging, channel and agent methods prefer the API's own
 * description of a failure over the transport message.
 */
module ServerClient {
  import opened Base
  import opened Json
  import opened Api
  import opened Text

  /** `WhippyConfig` of the build: `{ api_key, base_url? }`. */
  datatype Config = Config(apiKey: string, baseUrl: Option<string>)

  /** What `response.data.data` throws when the body is `null`; the catch reports it as the error. */
  const NullBodyMessage := "Cannot read properties of null (reading 'data')"

  /** An object's members as the defined fields of a literal. */
  function Present(members: seq<(string, Json)>): (fields: seq<(string, Option<Json>)>)
    ensures |fields| == |members|
    ensures forall k :: 0 <= k < |members| ==> fields[k] == (members[k].0, Some(members[k].1))
  {
    seq(|members|, k requires 0 <= k < |members| => (members[k].0, Some(members[k].1)))
  }

  /** An object literal sent as query parameters: its defined, non-null fields, in the order written. */
  lemma {:induction false} ObjectQuery(fields: seq<(string, Option<Json>)>)
    ensures Query(Present(Kept(fields))) == Query(fields)
  {
    if fields != [] {
      var n := |fields| - 1;
      var last := fields[n];
      assert fields == fields[..n] + [last];
      ObjectQuery(fields[..n]);
      QueryAppend(fields[..n], [last]);
      QueryOne(last.0, last.1);
      if last.1.Some? {
        var rest := Kept(fields[..n]);
        assert Present(rest + [(last.0, last.1.value)]) == Present(rest) + [last];
        QueryAppend(Present(rest), [last]);
      }
    }
  }

  /** The constructor: the key is kept, and the connection gets the base URL, the headers and the timeout. */
  function New(config: Config): (w: WhippyClient)
    ensures w.apiKey == config.apiKey
    ensures w.client.baseUrl == (if Filled(config.baseUrl) then config.baseUrl.value else DefaultBaseUrl)
    ensures Header(w.client.headers, "X-WHIPPY-KEY") == Some(config.apiKey)
    ensures Header(w.client.headers, "Content-Type") == Some("application/json")
    ensures Header(w.client.headers, "User-Agent") == Some(UserAgent)
    ensures w.client.timeoutMs == TimeoutMs
  {
    var headers := [("X-WHIPPY-KEY", config.apiKey), ("Content-Type", "application/json"), ("User-Agent", UserAgent)];
    HeaderAt(headers, 0);
    HeaderAt(headers, 1);
    HeaderAt(headers, 2);
    var baseUrl := Or(config.baseUrl, Some(DefaultBaseUrl)).value;
    WhippyClient(config.apiKey, Connection(baseUrl, headers, TimeoutMs))
  }

  /** The client: its key and the configured HTTP connection, both fixed by the constructor. */
  datatype WhippyClient = WhippyClient(apiKey: string, client: Connection) {

    /** `getOrganization`: GET `/organization`;
     * a failure reports the first envelope description, else the transport message. */
    function GetOrganization(remote: Remote): (c: Call)
      ensures c.request.verb == GET && c.request.query == [] && c.request.body == None
      ensures c.request.path == "/organization"
      ensures Reports(EnvelopeFirst, remote(client, c.request), c.result)
    {
      Perform(client, EnvelopeFirst, Request(GET, "/organization", [], None), remote)
    }

    /** `validateAuth`: the success flag of `getOrganization`; nothing it calls can throw. */
    function ValidateAuth(remote: Remote): (ok: bool)
      ensures ok <==> remote(client, Request(GET, "/organization", [], None)).Responded?
    {
      GetOrganization(remote).result.success
    }

    /** `createContact`: POST `/contacts`;
     * a failure reports the first envelope description, else the transport message. */
    function CreateContact(contact: Option<Json>, remote: Remote): (c: Call)
      ensures c.request.verb == POST && c.request.query == [] && c.request.body == contact
      ensures c.request.path == "/contacts"
      ensures Reports(EnvelopeFirst, remote(client, c.request), c.result)
    {
      Perform(client, EnvelopeFirst, Request(POST, "/contacts", [], contact), remote)
    }

    /** `getContact`: GET `/contacts/{id}`;
     * a failure reports the first envelope description, else the transport message. */
    function GetContact(contactId: string, remote: Remote): (c: Call)
      ensures c.request.verb == GET && c.request.query == [] && c.request.body == None
      ensures Segments(c.request.path) == ["contacts"] + Split(contactId, '/')
      ensures Reports(EnvelopeFirst, remote(client, c.request), c.result)
    {
      UnderSegments("contacts", contactId);
      Perform(client, EnvelopeFirst, Request(GET, Under("contacts", contactId), [], None), remote)
    }

    /** `listContacts`: GET `/contacts`; a failure reports the transport message. */
    function ListContacts(offset: Option<Json>, limit: Option<Json>, remote: Remote): (c: Call)
      ensures c.request.verb == GET && c.request.body == None
      ensures c.request.path == "/contacts"
      ensures offset != Some(JNull) && limit != Some(JNull) ==>
        c.request.query == [("offset", offset.GetOr(JNum(0))), ("limit", limit.GetOr(JNum(50)))]
      ensures Reports(TransportOnly, remote(client, c.request), c.result)
    {
      QueryPair("offset", offset.GetOr(JNum(0)), "limit", limit.GetOr(JNum(50)));
      Perform(client, TransportOnly, Request(GET, "/contacts", Query([("offset", Some(offset.GetOr(JNum(0)))), ("limit", Some(limit.GetOr(JNum(50))))]), None), remote)
    }

    /** `updateContact`: PUT `/contacts/{id}`; a failure reports the transport message. */
    function UpdateContact(contactId: string, contact: Option<Json>, remote: Remote): (c: Call)
      ensures c.request.verb == PUT && c.request.query == [] && c.request.body == contact
      ensures Segments(c.request.path) == ["contacts"] + Split(contactId, '/')
      ensures Reports(TransportOnly, remote(client, c.request), c.result)
    {
      UnderSegments("contacts", contactId);
      Perform(client, TransportOnly, Request(PUT, Under("contacts", contactId), [], contact), remote)
    }

    /** `deleteContact`: DELETE `/contacts/{id}`; success answers 'Contact deleted successfully' and no data;
     * a failure reports the transport message. */
    function DeleteContact(contactId: string, remote: Remote): (c: Call)
      ensures c.request.verb == DELETE && c.request.query == [] && c.request.body == None
      ensures Segments(c.request.path) == ["contacts"] + Split(contactId, '/')
      ensures Confirms(TransportOnly, remote(client, c.request), "Contact deleted successfully", c.result)
    {
      UnderSegments("contacts", contactId);
      PerformConfirmed(client, TransportOnly, Request(DELETE, Under("contacts", contactId), [], None), "Contact deleted successfully", remote)
    }

    /** `searchContacts`: POST `/contacts/search`, answering the `data` member of the response body. */
    function SearchContacts(params: Option<Json>, remote: Remote): (c: Call)
      ensures c.request == Request(POST, "/contacts/search", [], params)
      ensures var outcome := remote(client, c.request);
        && c.result.success == (outcome.Responded? && outcome.body != JNull)
        && c.result.message.None?
        && (c.result.success ==> c.result.data == Get(outcome.body, "data") && c.result.error.None?)
        && (outcome.Failed? ==> c.result.data.None? && c.result.error == Some(ErrorText(EnvelopeFirst, outcome.error)))
        && (outcome == Responded(JNull) ==> c.result.data.None? && c.result.error == Some(NullBodyMessage))
    {
      var request := Request(POST, "/contacts/search", [], params);
      var outcome := remote(client, request);
      Call(request,
        match outcome
        case Responded(JNull) => ApiResult(false, None, Some(NullBodyMessage), None)
        case Responded(body) => ApiResult(true, Get(body, "data"), None, None)
        case Failed(e) => Wrap(EnvelopeFirst, outcome))
    }

    /** `createCampaign`: POST `/campaigns/sms`; a failure reports the transport message. */
    function CreateCampaign(campaign: Option<Json>, remote: Remote): (c: Call)
      ensures c.request.verb == POST && c.request.query == [] && c.request.body == campaign
      ensures c.request.path == "/campaigns/sms"
      ensures Reports(TransportOnly, remote(client, c.request), c.result)
    {
      Perform(client, TransportOnly, Request(POST, "/campaigns/sms", [], campaign), remote)
    }

    /** `getCampaign`: GET `/campaigns/{id}`; a failure reports the transport message. */
    function GetCampaign(campaignId: string, remote: Remote): (c: Call)
      ensures c.request.verb == GET && c.request.query == [] && c.request.body == None
      ensures Segments(c.request.path) == ["campaigns"] + Split(campaignId, '/')
      ensures Reports(TransportOnly, remote(client, c.request), c.result)
    {
      UnderSegments("campaigns", campaignId);
      Perform(client, TransportOnly, Request(GET, Under("campaigns", campaignId), [], None), remote)
    }

    /** `listCampaigns`: GET `/campaigns`; a failure reports the transport message. */
    function ListCampaigns(remote: Remote): (c: Call)
      ensures c.request.verb == GET && c.request.query == [] && c.request.body == None
      ensures c.request.path == "/campaigns"
      ensures Reports(TransportOnly, remote(client, c.request), c.result)
    {
      Perform(client, TransportOnly, Request(GET, "/campaigns", [], None), remote)
    }

    /** `sendCampaign`: POST `/campaigns/{id}/send`; success answers 'Campaign sent successfully' and no data;
     * a failure reports the transport message. */
    function SendCampaign(campaignId: string, remote: Remote): (c: Call)
      ensures c.request.verb == POST && c.request.query == [] && c.request.body == None
      ensures Segments(c.request.path) == ["campaigns"] + Split(campaignId, '/') + ["send"]
      ensures Confirms(TransportOnly, remote(client, c.request), "Campaign sent successfully", c.result)
    {
      ActionSegments("campaigns", campaignId, "send");
      PerformConfirmed(client, TransportOnly, Request(POST, Action("campaigns", campaignId, "send"), [], None), "Campaign sent successfully", remote)
    }

    /** `sendSMS`: POST `/messages/sms`; a failure reports the transport message. */
    function SendSms(to: Option<Json>, message: Option<Json>, from: Option<Json>, remote: Remote): (c: Call)
      ensures c.request.verb == POST && c.request.query == []
      ensures c.request.path == "/messages/sms"
      ensures c.request.body.Some? && Get(c.request.body.value, "to") == to && Get(c.request.body.value, "message") == message && Get(c.request.body.value, "from") == from
      ensures Reports(TransportOnly, remote(client, c.request), c.result)
    {
      var payload := [("to", to), ("message", message), ("from", from)];
      ObjectField(payload, 0);
      ObjectField(payload, 1);
      ObjectField(payload, 2);
      Perform(client, TransportOnly, Request(POST, "/messages/sms", [], Some(Object(payload))), remote)
    }

    /** `sendMessagingSMS`: POST `/messaging/sms`;
     * a failure reports the first envelope description, else the transport message. */
    function SendMessagingSms(params: Option<Json>, remote: Remote): (c: Call)
      ensures c.request.verb == POST && c.request.query == [] && c.request.body == params
      ensures c.request.path == "/messaging/sms"
      ensures Reports(EnvelopeFirst, remote(client, c.request), c.result)
    {
      Perform(client, EnvelopeFirst, Request(POST, "/messaging/sms", [], params), remote)
    }

    /** `sendEmail`: POST `/messages/email`; a failure reports the transport message. */
    function SendEmail(to: Option<Json>, subject: Option<Json>, message: Option<Json>, from: Option<Json>, remote: Remote): (c: Call)
      ensures c.request.verb == POST && c.request.query == []
      ensures c.request.path == "/messages/email"
      ensures c.request.body.Some? && Get(c.request.body.value, "to") == to && Get(c.request.body.value, "subject") == subject && Get(c.request.body.value, "message") == message && Get(c.request.body.value, "from") == from
      ensures Reports(TransportOnly, remote(client, c.request), c.result)
    {
      var payload := [("to", to), ("subject", subject), ("message", message), ("from", from)];
      ObjectField(payload, 0);
      ObjectField(payload, 1);
      ObjectField(payload, 2);
      ObjectField(payload, 3);
      Perform(client, TransportOnly, Request(POST, "/messages/email", [], Some(Object(payload))), remote)
    }

    /** `sendMessagingEmail`: POST `/messaging/email`;
     * a failure reports the first envelope description, else the transport message. */
    function SendMessagingEmail(params: Option<Json>, remote: Remote): (c: Call)
      ensures c.request.verb == POST && c.request.query == [] && c.request.body == params
      ensures c.request.path == "/messaging/email"
      ensures Reports(EnvelopeFirst, remote(client, c.request), c.result)
    {
      Perform(client, EnvelopeFirst, Request(POST, "/messaging/email", [], params), remote)
    }

    /** `createSequence`: POST `/sequences`; a failure reports the transport message. */
    function CreateSequence(sequence: Option<Json>, remote: Remote): (c: Call)
      ensures c.request.verb == POST && c.request.query == [] && c.request.body == sequence
      ensures c.request.path == "/sequences"
      ensures Reports(TransportOnly, remote(client, c.request), c.result)
    {
      Perform(client, TransportOnly, Request(POST, "/sequences", [], sequence), remote)
    }

    /** `getSequence`: GET `/sequences/{id}`; a failure reports the transport message. */
    function GetSequence(sequenceId: string, remote: Remote): (c: Call)
      ensures c.request.verb == GET && c.request.query == [] && c.request.body == None
      ensures Segments(c.request.path) == ["sequences"] + Split(sequenceId, '/')
      ensures Reports(TransportOnly, remote(client, c.request), c.result)
    {
      UnderSegments("sequences", sequenceId);
      Perform(client, TransportOnly, Request(GET, Under("sequences", sequenceId), [], None), remote)
    }

    /** `listSequences`: GET `/sequences`; a failure reports the transport message. */
    function ListSequences(remote: Remote): (c: Call)
      ensures c.request.verb == GET && c.request.query == [] && c.request.body == None
      ensures c.request.path == "/sequences"
      ensures Reports(TransportOnly, remote(client, c.request), c.result)
    {
      Perform(client, TransportOnly, Request(GET, "/sequences", [], None), remote)
    }

    /** `createLead`: POST `/leads`; a failure reports the transport message. */
    function CreateLead(lead: Option<Json>, remote: Remote): (c: Call)
      ensures c.request.verb == POST && c.request.query == [] && c.request.body == lead
      ensures c.request.path == "/leads"
      ensures Reports(TransportOnly, remote(client, c.request), c.result)
    {
      Perform(client, TransportOnly, Request(POST, "/leads", [], lead), remote)
    }

    /** `getConversation`: GET `/conversations/{id}`; a failure reports the transport message. */
    function GetConversation(conversationId: string, remote: Remote): (c: Call)
      ensures c.request.verb == GET && c.request.query == [] && c.request.body == None
      ensures Segments(c.request.path) == ["conversations"] + Split(conversationId, '/')
      ensures Reports(TransportOnly, remote(client, c.request), c.result)
    {
      UnderSegments("conversations", conversationId);
      Perform(client, TransportOnly, Request(GET, Under("conversations", conversationId), [], None), remote)
    }

    /** `listConversations`: GET `/conversations`; a failure reports the transport message. */
    function ListConversations(offset: Option<Json>, limit: Option<Json>, remote: Remote): (c: Call)
      ensures c.request.verb == GET && c.request.body == None
      ensures c.request.path == "/conversations"
      ensures offset != Some(JNull) && limit != Some(JNull) ==>
        c.request.query == [("offset", offset.GetOr(JNum(0))), ("limit", limit.GetOr(JNum(50)))]
      ensures Reports(TransportOnly, remote(client, c.request), c.result)
    {
      QueryPair("offset", offset.GetOr(JNum(0)), "limit", limit.GetOr(JNum(50)));
      Perform(client, TransportOnly, Request(GET, "/conversations", Query([("offset", Some(offset.GetOr(JNum(0)))), ("limit", Some(limit.GetOr(JNum(50))))]), None), remote)
    }

    /** `getCampaignAnalytics`: GET `/campaigns/{id}/analytics`; a failure reports the transport message. */
    function GetCampaignAnalytics(campaignId: string, remote: Remote): (c: Call)
      ensures c.request.verb == GET && c.request.query == [] && c.request.body == None
      ensures Segments(c.request.path) == ["campaigns"] + Split(campaignId, '/') + ["analytics"]
      ensures Reports(TransportOnly, remote(client, c.request), c.result)
    {
      ActionSegments("campaigns", campaignId, "analytics");
      Perform(client, TransportOnly, Request(GET, Action("campaigns", campaignId, "analytics"), [], None), remote)
    }

    /** `listChannels`: GET `/channels`;
     * a failure reports the first envelope description, else the transport message. */
    function ListChannels(remote: Remote): (c: Call)
      ensures c.request.verb == GET && c.request.query == [] && c.request.body == None
      ensures c.request.path == "/channels"
      ensures Reports(EnvelopeFirst, remote(client, c.request), c.result)
    {
      Perform(client, EnvelopeFirst, Request(GET, "/channels", [], None), remote)
    }

    /** `getChannel`: GET `/channels/{id}`;
     * a failure reports the first envelope description, else the transport message. */
    function GetChannel(channelId: string, remote: Remote): (c: Call)
      ensures c.request.verb == GET && c.request.query == [] && c.request.body == None
      ensures Segments(c.request.path) == ["channels"] + Split(channelId, '/')
      ensures Reports(EnvelopeFirst, remote(client, c.request), c.result)
    {
      UnderSegments("channels", channelId);
      Perform(client, EnvelopeFirst, Request(GET, Under("channels", channelId), [], None), remote)
    }

    /** `createChannel`: POST `/channels`;
     * a failure reports the first envelope description, else the transport message. */
    function CreateChannel(channel: Option<Json>, remote: Remote): (c: Call)
      ensures c.request.verb == POST && c.request.query == [] && c.request.body == channel
      ensures c.request.path == "/channels"
      ensures Reports(EnvelopeFirst, remote(client, c.request), c.result)
    {
      Perform(client, EnvelopeFirst, Request(POST, "/channels", [], channel), remote)
    }

    /** `updateChannel`: PUT `/channels/{id}`;
     * a failure reports the first envelope description, else the transport message. */
    function UpdateChannel(channelId: string, channel: Option<Json>, remote: Remote): (c: Call)
      ensures c.request.verb == PUT && c.request.query == [] && c.request.body == channel
      ensures Segments(c.request.path) == ["channels"] + Split(channelId, '/')
      ensures Reports(EnvelopeFirst, remote(client, c.request), c.result)
    {
      UnderSegments("channels", channelId);
      Perform(client, EnvelopeFirst, Request(PUT, Under("channels", channelId), [], channel), remote)
    }

    /** `deleteChannel`: DELETE `/channels/{id}`; success answers 'Channel deleted successfully' and no data;
     * a failure reports the first envelope description, else the transport message. */
    function DeleteChannel(channelId: string, remote: Remote): (c: Call)
      ensures c.request.verb == DELETE && c.request.query == [] && c.request.body == None
      ensures Segments(c.request.path) == ["channels"] + Split(channelId, '/')
      ensures Confirms(EnvelopeFirst, remote(client, c.request), "Channel deleted successfully", c.result)
    {
      UnderSegments("channels", channelId);
      PerformConfirmed(client, EnvelopeFirst, Request(DELETE, Under("channels", channelId), [], None), "Channel deleted successfully", remote)
    }

    /** `listAgents`: GET `/agents` with `params || {}` as the query; a failure reports the first envelope description, else the transport message. */
    function ListAgents(params: Option<Json>, remote: Remote): (c: Call)
      ensures c.request.verb == GET && c.request.path == "/agents" && c.request.body == None
      ensures !Truthy(params) ==> c.request.query == []
      ensures params.Some? && params.value.JObj? ==> c.request.query == Query(Present(params.value.members))
      ensures Reports(EnvelopeFirst, remote(client, c.request), c.result)
    {
      var query := if Truthy(params) && params.value.JObj? then Query(Present(params.value.members)) else [];
      Perform(client, EnvelopeFirst, Request(GET, "/agents", query, None), remote)
    }

    /** `getAgent`: GET `/agents/{id}`;
     * a failure reports the first envelope description, else the transport message. */
    function GetAgent(agentId: string, remote: Remote): (c: Call)
      ensures c.request.verb == GET && c.request.query == [] && c.request.body == None
      ensures Segments(c.request.path) == ["agents"] + Split(agentId, '/')
      ensures Reports(EnvelopeFirst, remote(client, c.request), c.result)
    {
      UnderSegments("agents", agentId);
      Perform(client, EnvelopeFirst, Request(GET, Under("agents", agentId), [], None), remote)
    }

    /** `initiateAgentCall`: POST `/agents/{id}/call`;
     * a failure reports the first envelope description, else the transport message. */
    function InitiateAgentCall(agentId: string, params: Option<Json>, remote: Remote): (c: Call)
      ensures c.request.verb == POST && c.request.query == [] && c.request.body == params
      ensures Segments(c.request.path) == ["agents"] + Split(agentId, '/') + ["call"]
      ensures Reports(EnvelopeFirst, remote(client, c.request), c.result)
    {
      ActionSegments("agents", agentId, "call");
      Perform(client, EnvelopeFirst, Request(POST, Action("agents", agentId, "call"), [], params), remote)
    }
  }
}
