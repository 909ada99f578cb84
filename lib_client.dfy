/**
 * The earlier API client of the extension build: the same constructor, but
 * only contact creation and lookup read the error envelope, and campaigns
 * are created with a POST to `/campaigns`.
 */
module LibClient {
  import opened Base
  import opened Json
  import opened Api
  import opened Text

  /** `WhippyConfig` of the build: `{ api_key, base_url? }`. */
  datatype Config = Config(apiKey: string, baseUrl: Option<string>)

  /** The constructor: the key is kept, and the connection gets the base URL, the headers and the timeout. */
  function New(config: Config): (w: WhippyClient)
    ensures w.apiKey == config.apiKey
    ensures w.client.baseUrl == (if Filled(config.baseUrl) then config.baseUrl.value else DefaultBaseUrl)
    ensures Header(w.client.headers, "X-WHIPPY-KEY") == Some(config.apiKey)
    ensures Header(w.client.headers, "Content-Type") == Some("application/json")
    ensures Header(w.client.headers, "User-Agent") == Some(UserAgent)
    ensures w.client.timeoutMs == TimeoutMs
  {
    var headers := [("X-WHIPPY-KEY", config.apiKey), ("Content-Type", "application/json"), ("User-Agent", UserAgent)];
    HeaderAt(headers, 0);
    HeaderAt(headers, 1);
    HeaderAt(headers, 2);
    var baseUrl := Or(config.baseUrl, Some(DefaultBaseUrl)).value;
    WhippyClient(config.apiKey, Connection(baseUrl, headers, TimeoutMs))
  }

  /** The client: its key and the configured HTTP connection, both fixed by the constructor. */
  datatype WhippyClient = WhippyClient(apiKey: string, client: Connection) {

    /** `createContact`: POST `/contacts`;
     * a failure reports the first envelope description, else the transport message. */
    function CreateContact(contact: Option<Json>, remote: Remote): (c: Call)
      ensures c.request.verb == POST && c.request.query == [] && c.request.body == contact
      ensures c.request.path == "/contacts"
      ensures Reports(EnvelopeFirst, remote(client, c.request), c.result)
    {
      Perform(client, EnvelopeFirst, Request(POST, "/contacts", [], contact), remote)
    }

    /** `getContact`: GET `/contacts/{id}`;
     * a failure reports the first envelope description, else the transport message. */
    function GetContact(contactId: string, remote: Remote): (c: Call)
      ensures c.request.verb == GET && c.request.query == [] && c.request.body == None
      ensures Segments(c.request.path) == ["contacts"] + Split(contactId, '/')
      ensures Reports(EnvelopeFirst, remote(client, c.request), c.result)
    {
      UnderSegments("contacts", contactId);
      Perform(client, EnvelopeFirst, Request(GET, Under("contacts", contactId), [], None), remote)
    }

    /** `listContacts`: GET `/contacts`; a failure reports the transport message. */
    function ListContacts(offset: Option<Json>, limit: Option<Json>, remote: Remote): (c: Call)
      ensures c.request.verb == GET && c.request.body == None
      ensures c.request.path == "/contacts"
      ensures offset != Some(JNull) && limit != Some(JNull) ==>
        c.request.query == [("offset", offset.GetOr(JNum(0))), ("limit", limit.GetOr(JNum(50)))]
      ensures Reports(TransportOnly, remote(client, c.request), c.result)
    {
      QueryPair("offset", offset.GetOr(JNum(0)), "limit", limit.GetOr(JNum(50)));
      Perform(client, TransportOnly, Request(GET, "/contacts", Query([("offset", Some(offset.GetOr(JNum(0)))), ("limit", Some(limit.GetOr(JNum(50))))]), None), remote)
    }

    /** `updateContact`: PUT `/contacts/{id}`; a failure reports the transport message. */
    function UpdateContact(contactId: string, contact: Option<Json>, remote: Remote): (c: Call)
      ensures c.request.verb == PUT && c.request.query == [] && c.request.body == contact
      ensures Segments(c.request.path) == ["contacts"] + Split(contactId, '/')
      ensures Reports(TransportOnly, remote(client, c.request), c.result)
    {
      UnderSegments("contacts", contactId);
      Perform(client, TransportOnly, Request(PUT, Under("contacts", contactId), [], contact), remote)
    }

    /** `deleteContact`: DELETE `/contacts/{id}`; success answers 'Contact deleted successfully' and no data;
     * a failure reports the transport message. */
    function DeleteContact(contactId: string, remote: Remote): (c: Call)
      ensures c.request.verb == DELETE && c.request.query == [] && c.request.body == None
      ensures Segments(c.request.path) == ["contacts"] + Split(contactId, '/')
      ensures Confirms(TransportOnly, remote(client, c.request), "Contact deleted successfully", c.result)
    {
      UnderSegments("contacts", contactId);
      PerformConfirmed(client, TransportOnly, Request(DELETE, Under("contacts", contactId), [], None), "Contact deleted successfully", remote)
    }

    /** `createCampaign`: POST `/campaigns`; a failure reports the transport message. */
    function CreateCampaign(campaign: Option<Json>, remote: Remote): (c: Call)
      ensures c.request.verb == POST && c.request.query == [] && c.request.body == campaign
      ensures c.request.path == "/campaigns"
      ensures Reports(TransportOnly, remote(client, c.request), c.result)
    {
      Perform(client, TransportOnly, Request(POST, "/campaigns", [], campaign), remote)
    }

    /** `getCampaign`: GET `/campaigns/{id}`; a failure reports the transport message. */
    function GetCampaign(campaignId: string, remote: Remote): (c: Call)
      ensures c.request.verb == GET && c.request.query == [] && c.request.body == None
      ensures Segments(c.request.path) == ["campaigns"] + Split(campaignId, '/')
      ensures Reports(TransportOnly, remote(client, c.request), c.result)
    {
      UnderSegments("campaigns", campaignId);
      Perform(client, TransportOnly, Request(GET, Under("campaigns", campaignId), [], None), remote)
    }

    /** `listCampaigns`: GET `/campaigns`; a failure reports the transport message. */
    function ListCampaigns(remote: Remote): (c: Call)
      ensures c.request.verb == GET && c.request.query == [] && c.request.body == None
      ensures c.request.path == "/campaigns"
      ensures Reports(TransportOnly, remote(client, c.request), c.result)
    {
      Perform(client, TransportOnly, Request(GET, "/campaigns", [], None), remote)
    }

    /** `sendCampaign`: POST `/campaigns/{id}/send`; success answers 'Campaign sent successfully' and no data;
     * a failure reports the transport message. */
    function SendCampaign(campaignId: string, remote: Remote): (c: Call)
      ensures c.request.verb == POST && c.request.query == [] && c.request.body == None
      ensures Segments(c.request.path) == ["campaigns"] + Split(campaignId, '/') + ["send"]
      ensures Confirms(TransportOnly, remote(client, c.request), "Campaign sent successfully", c.result)
    {
      ActionSegments("campaigns", campaignId, "send");
      PerformConfirmed(client, TransportOnly, Request(POST, Action("campaigns", campaignId, "send"), [], None), "Campaign sent successfully", remote)
    }

    /** `sendSMS`: POST `/messages/sms`; a failure reports the transport message. */
    function SendSms(to: Option<Json>, message: Option<Json>, from: Option<Json>, remote: Remote): (c: Call)
      ensures c.request.verb == POST && c.request.query == []
      ensures c.request.path == "/messages/sms"
      ensures c.request.body.Some? && Get(c.request.body.value, "to") == to && Get(c.request.body.value, "message") == message && Get(c.request.body.value, "from") == from
      ensures Reports(TransportOnly, remote(client, c.request), c.result)
    {
      var payload := [("to", to), ("message", message), ("from", from)];
      ObjectField(payload, 0);
      ObjectField(payload, 1);
      ObjectField(payload, 2);
      Perform(client, TransportOnly, Request(POST, "/messages/sms", [], Some(Object(payload))), remote)
    }

    /** `sendEmail`: POST `/messages/email`; a failure reports the transport message. */
    function SendEmail(to: Option<Json>, subject: Option<Json>, message: Option<Json>, from: Option<Json>, remote: Remote): (c: Call)
      ensures c.request.verb == POST && c.request.query == []
      ensures c.request.path == "/messages/email"
      ensures c.request.body.Some? && Get(c.request.body.value, "to") == to && Get(c.request.body.value, "subject") == subject && Get(c.request.body.value, "message") == message && Get(c.request.body.value, "from") == from
      ensures Reports(TransportOnly, remote(client, c.request), c.result)
    {
      var payload := [("to", to), ("subject", subject), ("message", message), ("from", from)];
      ObjectField(payload, 0);
      ObjectField(payload, 1);
      ObjectField(payload, 2);
      ObjectField(payload, 3);
      Perform(client, TransportOnly, Request(POST, "/messages/email", [], Some(Object(payload))), remote)
    }

    /** `createSequence`: POST `/sequences`; a failure reports the transport message. */
    function CreateSequence(sequence: Option<Json>, remote: Remote): (c: Call)
      ensures c.request.verb == POST && c.request.query == [] && c.request.body == sequence
      ensures c.request.path == "/sequences"
      ensures Reports(TransportOnly, remote(client, c.request), c.result)
    {
      Perform(client, TransportOnly, Request(POST, "/sequences", [], sequence), remote)
    }

    /** `getSequence`: GET `/sequences/{id}`; a failure reports the transport message. */
    function GetSequence(sequenceId: string, remote: Remote): (c: Call)
      ensures c.request.verb == GET && c.request.query == [] && c.request.body == None
      ensures Segments(c.request.path) == ["sequences"] + Split(sequenceId, '/')
      ensures Reports(TransportOnly, remote(client, c.request), c.result)
    {
      UnderSegments("sequences", sequenceId);
      Perform(client, TransportOnly, Request(GET, Under("sequences", sequenceId), [], None), remote)
    }

    /** `listSequences`: GET `/sequences`; a failure reports the transport message. */
    function ListSequences(remote: Remote): (c: Call)
      ensures c.request.verb == GET && c.request.query == [] && c.request.body == None
      ensures c.request.path == "/sequences"
      ensures Reports(TransportOnly, remote(client, c.request), c.result)
    {
      Perform(client, TransportOnly, Request(GET, "/sequences", [], None), remote)
    }

    /** `createLead`: POST `/leads`; a failure reports the transport message. */
    function CreateLead(lead: Option<Json>, remote: Remote): (c: Call)
      ensures c.request.verb == POST && c.request.query == [] && c.request.body == lead
      ensures c.request.path == "/leads"
      ensures Reports(TransportOnly, remote(client, c.request), c.result)
    {
      Perform(client, TransportOnly, Request(POST, "/leads", [], lead), remote)
    }

    /** `getConversation`: GET `/conversations/{id}`; a failure reports the transport message. */
    function GetConversation(conversationId: string, remote: Remote): (c: Call)
      ensures c.request.verb == GET && c.request.query == [] && c.request.body == None
      ensures Segments(c.request.path) == ["conversations"] + Split(conversationId, '/')
      ensures Reports(TransportOnly, remote(client, c.request), c.result)
    {
      UnderSegments("conversations", conversationId);
      Perform(client, TransportOnly, Request(GET, Under("conversations", conversationId), [], None), remote)
    }

    /** `listConversations`: GET `/conversations`; a failure reports the transport message. */
    function ListConversations(offset: Option<Json>, limit: Option<Json>, remote: Remote): (c: Call)
      ensures c.request.verb == GET && c.request.body == None
      ensures c.request.path == "/conversations"
      ensures offset != Some(JNull) && limit != Some(JNull) ==>
        c.request.query == [("offset", offset.GetOr(JNum(0))), ("limit", limit.GetOr(JNum(50)))]
      ensures Reports(TransportOnly, remote(client, c.request), c.result)
    {
      QueryPair("offset", offset.GetOr(JNum(0)), "limit", limit.GetOr(JNum(50)));
      Perform(client, TransportOnly, Request(GET, "/conversations", Query([("offset", Some(offset.GetOr(JNum(0)))), ("limit", Some(limit.GetOr(JNum(50))))]), None), remote)
    }

    /** `getCampaignAnalytics`: GET `/campaigns/{id}/analytics`; a failure reports the transport message. */
    function GetCampaignAnalytics(campaignId: string, remote: Remote): (c: Call)
      ensures c.request.verb == GET && c.request.query == [] && c.request.body == None
      ensures Segments(c.request.path) == ["campaigns"] + Split(campaignId, '/') + ["analytics"]
      ensures Reports(TransportOnly, remote(client, c.request), c.result)
    {
      ActionSegments("campaigns", campaignId, "analytics");
      Perform(client, TransportOnly, Request(GET, Action("campaigns", campaignId, "analytics"), [], None), remote)
    }
  }
}
