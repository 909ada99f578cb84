# whippy-mcp, modelled in Dafny

whippy-mcp exposes the Whippy CRM API (contacts, messages, campaigns,
sequences, leads, conversations, channels, voice agents) as tools of the
Model Context Protocol (MCP). A tool is a name, a description, a declared
argument schema and a handler. Clients call the tools over JSON-RPC 2.0,
one request per line of standard input. This project models the core of
the repository and proves what it promises.

- **The API clients.** There are three `WhippyClient` classes:
  - `dxt-build/server/whippy-client.js` is modelled by `ServerClient`;
  - `dxt-build/lib/whippy-client.ts` by `LibClient`;
  - `src/lib/whippy-client.ts` by `SrcClient`.

  `Api` holds what they share: the request, the HTTP outcome, the
  `{ success, data, error, message }` record and the two ways a catch block
  words a failure. Each client method is a function of the configured
  connection and an HTTP client passed as a parameter (`Remote`). Its
  contract gives the exact verb, path segments, query and body it sends,
  and the record it returns for each outcome.
- **The tool tables.** `dxt-build/server/mcp-tools.js` is `ServerTools` and
  `src/lib/mcp-tools.ts` is `LibTools`. `Invoker` holds what both run:
  `getWhippyClient`, the credential chain, and `createToolHandler`, which
  turns every outcome into exactly one text block and tells rate limits
  from other errors. The tables are data: names, confirmation flags and
  schemas with their declared bounds and defaults.
- **The web server's tools.** `src/index.ts` is `SrcIndex`: ten tools
  registered with their own handlers, plus the development page that
  lists them.
- **The stdio servers.**
  - `Rpc` holds what the two extension servers share: `handleRequest` over
    a table of named entries, and the `data` loop over a chunk's lines.
  - `DxtServer` is the `Map`-based `SimpleMcpServer` of
    `dxt-build/dxt-index.js`, a class whose `tools` field its methods
    update.
  - `DxtServerArray` is the `find`-based server of
    `dxt-build/server/dxt-index.js`. `DxtServer.MatchesArrayServer` proves
    the two answer alike when no tool name is repeated.
  - `SrcStdio` is the stdio server of `src/dxt-index.ts`: a class holding
    the `initialized` flag. Its tool calls are answered once their promise
    settles (`pending`).

Things the world supplies are parameters of the model:
- `JSON.parse` is `parse`, and `JSON.stringify` is `render`;
- the HTTP transport is `remote`;
- the environment variables `WHIPPY_API_KEY` and `WHIPPY_BASE_URL` are
  `Env`.

Where the documentation and the code disagree, the model follows the code,
except for the two defects listed under "Findings". There the handlers use the
corrected definition, and the as-written behaviour is a separate member.
The differences it keeps:
- A line that fails to parse abandons the rest of its chunk
  (`dxt-build/dxt-index.js:103-126`). The extension servers then write one
  parse error; `src/dxt-index.ts` writes nothing.
- An unknown method is answered with -32603, not -32601, by the extension
  servers (`dxt-build/dxt-index.js:78-91`).
- `src/dxt-index.ts` answers an unknown tool with -32601 and stops handling
  the chunk (`src/dxt-index.ts:98`).
- The web server's `list_contacts` passes its `offset` to the client as
  `page` (`src/index.ts:121`, `src/lib/whippy-client.ts:61-70`).
- The clients catch every HTTP failure and return `{ success: false }`. An
  HTTP 429 therefore never reaches the rate-limit branch of
  `createToolHandler`. That branch is reached only by a thrown message
  containing `429` or `Rate Limit`.

## Model

| member | source | states |
|---|---|---|
| Api.HeaderAt | dxt-build/server/whippy-client.js:19-27 | a header that no earlier header shadows is the value the configured connection sends under that name |
| Api.Query | dxt-build/server/whippy-client.js:90-100 | query parameters as sent: a pair goes out exactly when the parameter is given with a value that is neither `null` nor `undefined`; nothing else is sent |
| Api.QueryAppend | dxt-build/server/whippy-client.js:90-100 | parameters are serialised one after another: the query of two runs of parameters is the first run's query followed by the second's |
| Api.QueryOne | dxt-build/server/whippy-client.js:90-100 | a single parameter is sent exactly when it is neither `null` nor `undefined` |
| Api.QueryPair | dxt-build/server/whippy-client.js:92-94 | with two defined, non-null values, `params: { a, b }` sends exactly those two pairs, in order |
| Api.EnvelopeError | dxt-build/server/whippy-client.js:51-54 | for an error envelope `{ errors: [{ description }], status }`, the envelope-first catch reports the first description when it is non-empty and the transport message otherwise; the transport-only catch always reports the transport message |
| Api.NoBodyPoliciesAgree | dxt-build/server/whippy-client.js:51-54 | without a response body both catch styles report `error.message` |
| Api.Perform | dxt-build/server/whippy-client.js:68-78 | the request is issued as given; success exactly when the HTTP call succeeds, with the body as `data`; a failure carries the policy's error text and no data; no failure escapes as a throw |
| Api.PerformConfirmed | dxt-build/server/whippy-client.js:110-118 | as `Perform`, except that success carries the fixed confirmation message and no data |
| Json.Lookup | src/dxt-index.ts:29 | a member is found exactly when some member has that key, and what is found is one of the members |
| Json.Or | dxt-build/server/mcp-tools.js:51 | `a \|\| b`: `a` when it is a non-empty string, `b` otherwise |
| Json.Show | dxt-build/server/mcp-tools.js:82 | `${s}` gives the string, or `undefined` when there is none |
| Json.Interpolate | dxt-build/dxt-index.js:79 | `${v}` gives `undefined` for an absent value and the string itself for a string |
| Json.Stringify | dxt-build/server/mcp-tools.js:74 | `JSON.stringify(v, null, 2)` is defined exactly when `v` is |
| Json.Kept | dxt-build/server/mcp-tools.js:190 | serialising an object literal keeps exactly its defined fields: every member is a field written with a defined value, every such field is kept, and there are never more members than fields |
| Json.GetObject | dxt-build/server/mcp-tools.js:282-287 | reading a key back from an object literal with distinct keys gives what was written for it, `undefined` when it was written undefined |
| Json.WrittenAbsent | dxt-build/server/mcp-tools.js:282-287 | a key the literal does not name is neither written nor kept |
| Json.ObjectField | dxt-build/server/mcp-tools.js:282-287 | each field of an object literal with distinct keys reads back as written |
| Json.WrittenAt | dxt-build/server/mcp-tools.js:282-287 | the value written for a field's key is that field's value, when no two keys repeat |
| Text.TrimStart | dxt-build/dxt-index.js:104 | `trimStart` drops a blank prefix and leaves a string that is empty or starts with a non-space |
| Text.TrimEnd | dxt-build/dxt-index.js:104 | `trimEnd` drops a blank suffix and leaves a string that is empty or ends with a non-space |
| Text.Trim | dxt-build/dxt-index.js:106 | `line.trim()` is empty exactly when the line is all white space, and otherwise starts and ends with a non-space |
| Text.Split | dxt-build/dxt-index.js:104 | `split('\n')` gives at least one part and no part holds the separator |
| Text.JoinSplit | dxt-build/dxt-index.js:104 | `s.split(sep).join(sep) == s` |
| Text.SplitNoSeparator | dxt-build/dxt-index.js:104 | a string without the separator splits into itself alone |
| Text.SplitAround | dxt-build/dxt-index.js:104 | splitting at a separator splits the two sides independently |
| Text.SplitConsAppend | dxt-build/dxt-index.js:104 | prepending the same character to two strings keeps a common tail of their splits |
| Text.SplitJoin | src/index.ts:507 | joining parts that hold no separator and splitting again gives the parts back |
| Text.UnderSegments | dxt-build/server/whippy-client.js:81 | the path `/collection/${id}` has the segments `collection` followed by the id split on `/` |
| Text.ActionSegments | dxt-build/server/whippy-client.js:160 | the path `/collection/${id}/action` has the segments `collection`, the id split on `/`, then `action` |
| Text.Contains | dxt-build/server/mcp-tools.js:91 | `includes` holds exactly when the substring occurs at some index |
| Text.Absent | dxt-build/server/mcp-tools.js:91 | a string in which a character never occurs contains no substring that starts with it |
| Text.NatToString | src/index.ts:128 | `String(n)` is a non-empty run of decimal digits |
| Mcp.TextReply | dxt-build/server/mcp-tools.js:65-74 | a tool reply holds exactly one text block, with the given text |
| Mcp.Names | dxt-build/server/dxt-index.js:49-53 | the names of a tool list, one per tool, in order |
| Mcp.Find | dxt-build/server/dxt-index.js:62 | `tools.find(t => t.name === name)`: a found index names the tool, no earlier tool has that name, and none is found only when no tool has it |
| Mcp.FieldAt | dxt-build/server/mcp-tools.js:146-158 | a schema field that no earlier field shadows is the one declared for its key |
| ServerClient.New | dxt-build/server/whippy-client.js:17-27 | the key is kept; the connection uses `base_url \|\| https://api.whippy.co/v1`, sends `X-WHIPPY-KEY` with the key, JSON content type and the user agent, and times out after 30000 ms |
| ServerClient.WhippyClient.GetOrganization | dxt-build/server/whippy-client.js:46-56 | GET /organization; success carries the body as data; failure reports the first envelope description, else the transport message |
| ServerClient.WhippyClient.CreateContact | dxt-build/server/whippy-client.js:68-78 | POST /contacts; body is `contact` unchanged; success carries the body as data; failure reports the first envelope description, else the transport message |
| ServerClient.WhippyClient.GetContact | dxt-build/server/whippy-client.js:79-89 | GET /contacts/<id> (segments: the id split on `/`); success carries the body as data; failure reports the first envelope description, else the transport message |
| ServerClient.WhippyClient.ListContacts | dxt-build/server/whippy-client.js:90-100 | GET /contacts; query `offset` (default 0) and `limit` (default 50); success carries the body as data; failure reports the transport message only |
| ServerClient.WhippyClient.UpdateContact | dxt-build/server/whippy-client.js:101-109 | PUT /contacts/<id> (segments: the id split on `/`); body is `contact` unchanged; success carries the body as data; failure reports the transport message only |
| ServerClient.WhippyClient.DeleteContact | dxt-build/server/whippy-client.js:110-118 | DELETE /contacts/<id> (segments: the id split on `/`); success carries 'Contact deleted successfully' and no data; failure reports the transport message only |
| ServerClient.WhippyClient.SearchContacts | dxt-build/server/whippy-client.js:119-129 | POST /contacts/search with the parameters as body; success exactly when the call answers a non-null body, with its `data` member; a `null` body fails with the `TypeError` message of reading `data` of null; a transport failure reports the first envelope description, else the transport message |
| ServerClient.WhippyClient.CreateCampaign | dxt-build/server/whippy-client.js:131-139 | POST /campaigns/sms; body is `campaign` unchanged; success carries the body as data; failure reports the transport message only |
| ServerClient.WhippyClient.GetCampaign | dxt-build/server/whippy-client.js:140-148 | GET /campaigns/<id> (segments: the id split on `/`); success carries the body as data; failure reports the transport message only |
| ServerClient.WhippyClient.ListCampaigns | dxt-build/server/whippy-client.js:149-157 | GET /campaigns; success carries the body as data; failure reports the transport message only |
| ServerClient.WhippyClient.SendCampaign | dxt-build/server/whippy-client.js:158-166 | POST /campaigns/<id>/send (segments: the id split on `/`); success carries 'Campaign sent successfully' and no data; failure reports the transport message only |
| ServerClient.WhippyClient.SendSms | dxt-build/server/whippy-client.js:168-177 | POST /messages/sms; payload carries `to`, `message`, `from`; success carries the body as data; failure reports the transport message only |
| ServerClient.WhippyClient.SendMessagingSms | dxt-build/server/whippy-client.js:178-188 | POST /messaging/sms; body is `params` unchanged; success carries the body as data; failure reports the first envelope description, else the transport message |
| ServerClient.WhippyClient.SendEmail | dxt-build/server/whippy-client.js:189-198 | POST /messages/email; payload carries `to`, `subject`, `message`, `from`; success carries the body as data; failure reports the transport message only |
| ServerClient.WhippyClient.SendMessagingEmail | dxt-build/server/whippy-client.js:199-209 | POST /messaging/email; body is `params` unchanged; success carries the body as data; failure reports the first envelope description, else the transport message |
| ServerClient.WhippyClient.CreateSequence | dxt-build/server/whippy-client.js:211-219 | POST /sequences; body is `sequence` unchanged; success carries the body as data; failure reports the transport message only |
| ServerClient.WhippyClient.GetSequence | dxt-build/server/whippy-client.js:220-228 | GET /sequences/<id> (segments: the id split on `/`); success carries the body as data; failure reports the transport message only |
| ServerClient.WhippyClient.ListSequences | dxt-build/server/whippy-client.js:229-237 | GET /sequences; success carries the body as data; failure reports the transport message only |
| ServerClient.WhippyClient.CreateLead | dxt-build/server/whippy-client.js:239-247 | POST /leads; body is `lead` unchanged; success carries the body as data; failure reports the transport message only |
| ServerClient.WhippyClient.GetConversation | dxt-build/server/whippy-client.js:249-257 | GET /conversations/<id> (segments: the id split on `/`); success carries the body as data; failure reports the transport message only |
| ServerClient.WhippyClient.ListConversations | dxt-build/server/whippy-client.js:258-268 | GET /conversations; query `offset` (default 0) and `limit` (default 50); success carries the body as data; failure reports the transport message only |
| ServerClient.WhippyClient.GetCampaignAnalytics | dxt-build/server/whippy-client.js:270-278 | GET /campaigns/<id>/analytics (segments: the id split on `/`); success carries the body as data; failure reports the transport message only |
| ServerClient.WhippyClient.ListChannels | dxt-build/server/whippy-client.js:280-290 | GET /channels; success carries the body as data; failure reports the first envelope description, else the transport message |
| ServerClient.WhippyClient.GetChannel | dxt-build/server/whippy-client.js:291-301 | GET /channels/<id> (segments: the id split on `/`); success carries the body as data; failure reports the first envelope description, else the transport message |
| ServerClient.WhippyClient.CreateChannel | dxt-build/server/whippy-client.js:302-312 | POST /channels; body is `channel` unchanged; success carries the body as data; failure reports the first envelope description, else the transport message |
| ServerClient.WhippyClient.UpdateChannel | dxt-build/server/whippy-client.js:313-323 | PUT /channels/<id> (segments: the id split on `/`); body is `channel` unchanged; success carries the body as data; failure reports the first envelope description, else the transport message |
| ServerClient.WhippyClient.DeleteChannel | dxt-build/server/whippy-client.js:324-334 | DELETE /channels/<id> (segments: the id split on `/`); success carries 'Channel deleted successfully' and no data; failure reports the first envelope description, else the transport message |
| ServerClient.WhippyClient.ListAgents | dxt-build/server/whippy-client.js:336-348 | GET /agents, no body; the query is empty when `params` is falsy and otherwise the object's defined members; failure reports the first envelope description, else the transport message |
| ServerClient.WhippyClient.GetAgent | dxt-build/server/whippy-client.js:349-359 | GET /agents/<id> (segments: the id split on `/`); success carries the body as data; failure reports the first envelope description, else the transport message |
| ServerClient.WhippyClient.InitiateAgentCall | dxt-build/server/whippy-client.js:360-370 | POST /agents/<id>/call (segments: the id split on `/`); body is `params` unchanged; success carries the body as data; failure reports the first envelope description, else the transport message |
| ServerClient.WhippyClient.ValidateAuth | dxt-build/server/whippy-client.js:58-66 | true exactly when GET /organization succeeds; nothing escapes as a throw |
| ServerClient.Present | dxt-build/server/whippy-client.js:336-348 | an object's members become the defined fields of the query literal, one per member, in order |
| ServerClient.ObjectQuery | dxt-build/server/whippy-client.js:336-340 | an object literal passed as `params` is sent as exactly its fields that are neither `undefined` nor `null`, in the order written |
| LibClient.New | dxt-build/lib/whippy-client.ts:20-39 | the key is kept; the connection uses `base_url \|\| https://api.whippy.co/v1`, sends `X-WHIPPY-KEY` with the key, JSON content type and the user agent, and times out after 30000 ms |
| LibClient.WhippyClient.CreateContact | dxt-build/lib/whippy-client.ts:54-63 | POST /contacts; body is `contact` unchanged; success carries the body as data; failure reports the first envelope description, else the transport message |
| LibClient.WhippyClient.GetContact | dxt-build/lib/whippy-client.ts:65-74 | GET /contacts/<id> (segments: the id split on `/`); success carries the body as data; failure reports the first envelope description, else the transport message |
| LibClient.WhippyClient.ListContacts | dxt-build/lib/whippy-client.ts:76-88 | GET /contacts; query `offset` (default 0) and `limit` (default 50); success carries the body as data; failure reports the transport message only |
| LibClient.WhippyClient.UpdateContact | dxt-build/lib/whippy-client.ts:90-100 | PUT /contacts/<id> (segments: the id split on `/`); body is `contact` unchanged; success carries the body as data; failure reports the transport message only |
| LibClient.WhippyClient.DeleteContact | dxt-build/lib/whippy-client.ts:102-109 | DELETE /contacts/<id> (segments: the id split on `/`); success carries 'Contact deleted successfully' and no data; failure reports the transport message only |
| LibClient.WhippyClient.CreateCampaign | dxt-build/lib/whippy-client.ts:112-119 | POST /campaigns; body is `campaign` unchanged; success carries the body as data; failure reports the transport message only |
| LibClient.WhippyClient.GetCampaign | dxt-build/lib/whippy-client.ts:121-128 | GET /campaigns/<id> (segments: the id split on `/`); success carries the body as data; failure reports the transport message only |
| LibClient.WhippyClient.ListCampaigns | dxt-build/lib/whippy-client.ts:130-137 | GET /campaigns; success carries the body as data; failure reports the transport message only |
| LibClient.WhippyClient.SendCampaign | dxt-build/lib/whippy-client.ts:139-146 | POST /campaigns/<id>/send (segments: the id split on `/`); success carries 'Campaign sent successfully' and no data; failure reports the transport message only |
| LibClient.WhippyClient.SendSms | dxt-build/lib/whippy-client.ts:149-157 | POST /messages/sms; payload carries `to`, `message`, `from`; success carries the body as data; failure reports the transport message only |
| LibClient.WhippyClient.SendEmail | dxt-build/lib/whippy-client.ts:159-172 | POST /messages/email; payload carries `to`, `subject`, `message`, `from`; success carries the body as data; failure reports the transport message only |
| LibClient.WhippyClient.CreateSequence | dxt-build/lib/whippy-client.ts:175-182 | POST /sequences; body is `sequence` unchanged; success carries the body as data; failure reports the transport message only |
| LibClient.WhippyClient.GetSequence | dxt-build/lib/whippy-client.ts:184-191 | GET /sequences/<id> (segments: the id split on `/`); success carries the body as data; failure reports the transport message only |
| LibClient.WhippyClient.ListSequences | dxt-build/lib/whippy-client.ts:193-200 | GET /sequences; success carries the body as data; failure reports the transport message only |
| LibClient.WhippyClient.CreateLead | dxt-build/lib/whippy-client.ts:203-210 | POST /leads; body is `lead` unchanged; success carries the body as data; failure reports the transport message only |
| LibClient.WhippyClient.GetConversation | dxt-build/lib/whippy-client.ts:213-220 | GET /conversations/<id> (segments: the id split on `/`); success carries the body as data; failure reports the transport message only |
| LibClient.WhippyClient.ListConversations | dxt-build/lib/whippy-client.ts:222-234 | GET /conversations; query `offset` (default 0) and `limit` (default 50); success carries the body as data; failure reports the transport message only |
| LibClient.WhippyClient.GetCampaignAnalytics | dxt-build/lib/whippy-client.ts:237-244 | GET /campaigns/<id>/analytics (segments: the id split on `/`); success carries the body as data; failure reports the transport message only |
| SrcClient.New | src/lib/whippy-client.ts:19-30 | the key is kept; the connection uses `baseUrl \|\| https://api.whippy.co/v1`, sends `Authorization: Bearer ${apiKey}` (with `undefined` written out for a missing key), JSON content type and the user agent, and times out after 30000 ms |
| SrcClient.WhippyClient.CreateContact | src/lib/whippy-client.ts:43-50 | POST /contacts; body is `contact` unchanged; success carries the body as data; failure reports the transport message only |
| SrcClient.WhippyClient.GetContact | src/lib/whippy-client.ts:52-59 | GET /contacts/<id> (segments: the id split on `/`); success carries the body as data; failure reports the transport message only |
| SrcClient.WhippyClient.ListContacts | src/lib/whippy-client.ts:61-70 | GET /contacts; query `page` (default 1) and `limit` (default 50); success carries the body as data; failure reports the transport message only |
| SrcClient.WhippyClient.UpdateContact | src/lib/whippy-client.ts:72-79 | PUT /contacts/<id> (segments: the id split on `/`); body is `contact` unchanged; success carries the body as data; failure reports the transport message only |
| SrcClient.WhippyClient.DeleteContact | src/lib/whippy-client.ts:81-88 | DELETE /contacts/<id> (segments: the id split on `/`); success carries 'Contact deleted successfully' and no data; failure reports the transport message only |
| SrcClient.WhippyClient.CreateCampaign | src/lib/whippy-client.ts:91-98 | POST /campaigns; body is `campaign` unchanged; success carries the body as data; failure reports the transport message only |
| SrcClient.WhippyClient.GetCampaign | src/lib/whippy-client.ts:100-107 | GET /campaigns/<id> (segments: the id split on `/`); success carries the body as data; failure reports the transport message only |
| SrcClient.WhippyClient.ListCampaigns | src/lib/whippy-client.ts:109-116 | GET /campaigns; success carries the body as data; failure reports the transport message only |
| SrcClient.WhippyClient.SendCampaign | src/lib/whippy-client.ts:118-125 | POST /campaigns/<id>/send (segments: the id split on `/`); success carries 'Campaign sent successfully' and no data; failure reports the transport message only |
| SrcClient.WhippyClient.SendSms | src/lib/whippy-client.ts:128-136 | POST /messages/sms; payload carries `to`, `message`, `from`; success carries the body as data; failure reports the transport message only |
| SrcClient.WhippyClient.SendEmail | src/lib/whippy-client.ts:138-146 | POST /messages/email; payload carries `to`, `subject`, `message`, `from`; success carries the body as data; failure reports the transport message only |
| SrcClient.WhippyClient.CreateSequence | src/lib/whippy-client.ts:149-156 | POST /sequences; body is `sequence` unchanged; success carries the body as data; failure reports the transport message only |
| SrcClient.WhippyClient.GetSequence | src/lib/whippy-client.ts:158-165 | GET /sequences/<id> (segments: the id split on `/`); success carries the body as data; failure reports the transport message only |
| SrcClient.WhippyClient.ListSequences | src/lib/whippy-client.ts:167-174 | GET /sequences; success carries the body as data; failure reports the transport message only |
| SrcClient.WhippyClient.CreateLead | src/lib/whippy-client.ts:177-184 | POST /leads; body is `lead` unchanged; success carries the body as data; failure reports the transport message only |
| SrcClient.WhippyClient.GetConversation | src/lib/whippy-client.ts:187-194 | GET /conversations/<id> (segments: the id split on `/`); success carries the body as data; failure reports the transport message only |
| SrcClient.WhippyClient.ListConversations | src/lib/whippy-client.ts:196-205 | GET /conversations; query `page` (default 1) and `limit` (default 50); success carries the body as data; failure reports the transport message only |
| SrcClient.WhippyClient.GetCampaignAnalytics | src/lib/whippy-client.ts:208-215 | GET /campaigns/<id>/analytics (segments: the id split on `/`); success carries the body as data; failure reports the transport message only |
| Invoker.GetWhippyClient | dxt-build/server/mcp-tools.js:50-59 | the missing-key error exactly when neither the call configuration nor the environment holds a non-empty key; otherwise the client gets the configuration's key first, then the environment's, and the base URL from the configuration, the environment or the default, in that order |
| Invoker.Invoke | dxt-build/server/mcp-tools.js:61-111 | every call resolves with exactly one text block; without a key that block is the error prefix followed by the missing-key message |
| Invoker.MissingKeyIsNoRateLimit | dxt-build/server/mcp-tools.js:91 | the missing-key message is never classified as a rate limit |
| Invoker.NoRateLimitWithout | dxt-build/server/mcp-tools.js:91 | a message with neither `4` nor `R` is never classified as a rate limit |
| Invoker.DestructureIsNoRateLimit | dxt-build/server/mcp-tools.js:88-110 | the `TypeError` of destructuring a nullish value is answered with the error text, not the rate-limit text, for property and subject names without `4` or `R` |
| Invoker.NoKeySkipsBusiness | dxt-build/server/mcp-tools.js:64-66 | without a key the business function is never consulted: any two give the same reply |
| Invoker.BusinessSeesClient | dxt-build/server/mcp-tools.js:64-66 | with a key, the business function receives the client built for that key and the call parameters unchanged, and its outcome alone decides the text |
| Invoker.SuccessText | dxt-build/server/mcp-tools.js:67-76 | a successful record answers its message when that is non-empty, otherwise the dump of its data, and no text when there is no data |
| Invoker.FailureIgnoresMessage | dxt-build/server/mcp-tools.js:78-86 | a failed record answers `❌ Failed: ${error}` whatever message and data it carries |
| Invoker.FaultClassified | dxt-build/server/mcp-tools.js:88-110 | a thrown fault answers the rate-limit text and advice exactly when its message contains `429` or `Rate Limit`, else the error text; a thrown non-`Error` answers `Unknown error occurred` |
| ServerTools.Issue | dxt-build/server/mcp-tools.js:113-473 | a business function issues no client call exactly when it destructures named parameters from nullish call parameters; otherwise it makes its tool's one client call |
| ServerTools.SuccessMessage | dxt-build/server/mcp-tools.js:113-473 | every tool's message starts with its own fixed banner |
| ServerTools.Run | dxt-build/server/mcp-tools.js:113-473 | the business function throws exactly when no client call is made, and then throws the destructuring `TypeError`; otherwise it returns the client's record with success, data and error unchanged and a non-empty message that starts with the tool's banner |
| ServerTools.ToolHandler | dxt-build/server/mcp-tools.js:61-111 | every handler built by `createToolHandler` resolves, with exactly one text block |
| ServerTools.Tools | dxt-build/server/mcp-tools.js:113-473 | the exported array holds the eighteen tools in their declared order |
| ServerTools.Catalogue | dxt-build/server/mcp-tools.js:113-473 | the eighteen tool names are exactly the published ones, in order, and no two are alike |
| ServerTools.HandlerText | dxt-build/server/mcp-tools.js:61-111 | with a key, a handler's text is what the shared invoker makes of this tool's business outcome for the client built from the key |
| ServerTools.ReplyText | dxt-build/server/mcp-tools.js:113-473 | a tool answers the missing-key error without a key; the destructuring error when called with nullish parameters; its own message when the client call succeeds; and `Failed:` with the client's error otherwise |
| ServerTools.SchemasWellFormed | dxt-build/server/mcp-tools.js:113-473 | every declared default meets its own bounds and no schema declares a key twice |
| ServerTools.PaginationDeclared | dxt-build/server/mcp-tools.js:145-195 | the paginated tools declare `offset` (at least 0, default 0) and `limit` (1 to 100, default 50), and those defaults meet those bounds |
| LibTools.Issue | src/lib/mcp-tools.ts:120-552 | a business function issues no client call exactly when it destructures named parameters from nullish call parameters; otherwise it makes its tool's one client call |
| LibTools.SuccessMessage | src/lib/mcp-tools.ts:120-552 | every tool's message starts with its own fixed banner |
| LibTools.Run | src/lib/mcp-tools.ts:120-552 | the business function throws exactly when no client call is made, and then throws the destructuring `TypeError`; otherwise it returns the client's record with success, data and error unchanged and a non-empty message that starts with the tool's banner |
| LibTools.ToolHandler | src/lib/mcp-tools.ts:66-117 | every handler built by `createToolHandler` resolves, with exactly one text block |
| LibTools.Tools | src/lib/mcp-tools.ts:120-552 | the exported array holds one tool per operation, in declared order, each with that operation's name and handler |
| LibTools.Catalogue | src/lib/mcp-tools.ts:120-552 | the seventeen tool names are exactly the published ones, in order, and no two are alike |
| LibTools.HandlerText | src/lib/mcp-tools.ts:66-117 | with a key, a handler's text is what the shared invoker makes of this tool's business outcome for the client built from the key |
| LibTools.ReplyText | src/lib/mcp-tools.ts:120-552 | a tool answers the missing-key error without a key; the destructuring error when called with nullish parameters; its own message when the client call succeeds; and `Failed:` with the client's error otherwise |
| LibTools.SchemasWellFormed | src/lib/mcp-tools.ts:120-552 | every declared default meets its own bounds and no schema declares a key twice |
| LibTools.PaginationDeclared | src/lib/mcp-tools.ts:177-231 | the paginated tools declare `offset` (at least 0, default 0) and `limit` (1 to 100, default 50), and those defaults meet those bounds |
| ServerTools.ConfirmationForWrites | dxt-build/server/mcp-tools.js:117 | a tool asks for user confirmation exactly when its client call is a POST, the contact search excepted |
| ServerTools.ListAgentsQuery | dxt-build/server/mcp-tools.js:404-431 | for any parameters that destructure, `list_agents` sends a GET to `/agents` whose query is `limit`, `offset`, then `name` only when it is truthy, each left out when `undefined` or `null` (so `{}` sends no query); with both paging values given it is exactly those pairs; nullish parameters throw before any request |
| ServerTools.CampaignPayloadFields | dxt-build/server/mcp-tools.js:274-291 | `create_campaign` posts `name`, `message`, `contact_ids` and `scheduled_at` as given and no other key |
| ServerTools.IdentifierPath | dxt-build/server/mcp-tools.js:131-144 | the identifier a tool reads becomes the path segments its request addresses, `undefined` included, for the seven tools that address one record |
| ServerTools.SendCampaignText | dxt-build/server/mcp-tools.js:318-332 | a `send_campaign` whose call succeeds answers its banner followed by `Campaign sent successfully` |
| LibTools.NestedWellFormed | src/lib/mcp-tools.ts:294-356 | the address, birth-date and recipient object schemas are well formed |
| LibTools.DeclaredBounds | src/lib/mcp-tools.ts:144-148 | a contact's birth day is declared 1 to 31 and its month 1 to 12, a campaign's `to` is a required list of recipients with the same birth date, and an SMS body is required, at most 1000 characters |
| LibTools.CampaignPayloadFields | src/lib/mcp-tools.ts:340-349 | `create_campaign` posts `campaign_name` as `title` and `body`, `from`, `to`, `attachments`, `schedule_at` unchanged, and no other key |
| LibTools.CampaignRequest | src/lib/mcp-tools.ts:294-356 | this table's `create_campaign` is a POST whose body is exactly that payload |
| LibTools.ListAgentsQuery | src/lib/mcp-tools.ts:477-505 | for every parameter value, `list_agents` issues the same call as the extension table: a GET to `/agents` whose query is `limit`, `offset`, then `name` only when it is truthy, each left out when `undefined` or `null`; nullish parameters throw before any request |
| LibTools.BearerUndefined | src/lib/mcp-tools.ts:60-63 | as written, the `{ api_key, base_url }` object leaves the imported client without a key or base URL, so it authenticates as `Bearer undefined` against the default URL |
| Rpc.InitializeResponse | dxt-build/dxt-index.js:27-44 | the `initialize` answer: protocol 2024-11-05, `tools.listChanged` true, server `whippy-ai-mcp-dxt` 1.0.0, carrying the request id |
| Rpc.Position | dxt-build/dxt-index.js:60 | the index of the first entry with the name, no earlier entry having it, or the table's length when none has it |
| Rpc.At | dxt-build/dxt-index.js:60 | `Map.get`: found exactly when some entry has the name, and what is found is that name's entry |
| Rpc.TableOf | dxt-build/server/dxt-index.js:49-53 | a tool list as named entries: same length, same order, each entry built from its tool |
| Rpc.Listing | dxt-build/dxt-index.js:50-54 | one `{ name, description, inputSchema }` per entry, in entry order, the schema as declared |
| Rpc.Dispatch | dxt-build/dxt-index.js:23-92 | `handleRequest`: no answer exactly for a `null` request; every answer is JSON-RPC 2.0 with the request id; `initialize` and `tools/list` are answered with their results; only `tools/call` yields content; every error is -32603 |
| Rpc.ChunkLines | dxt-build/dxt-index.js:104 | the chunk's lines after trimming: at least one, none holding a newline |
| Rpc.ProcessLines | dxt-build/dxt-index.js:102-127 | the `data` loop writes exactly what its step function yields for the chunk's non-blank lines, up to and including the line that stops |
| Rpc.DriveAt | dxt-build/dxt-index.js:105-113 | one turn of the loop: what the lines from `i` on write, in terms of line `i` and the rest |
| Rpc.NonBlank | dxt-build/dxt-index.js:106 | the lines acted on are exactly the non-blank ones, in order |
| Rpc.DriveSkipsBlank | dxt-build/dxt-index.js:106 | blank lines have no effect on what a chunk writes |
| Rpc.DriveInOrder | dxt-build/dxt-index.js:105-113 | a prefix that never stops writes first, then the rest writes |
| Rpc.DriveStopsAt | dxt-build/dxt-index.js:115-126 | whatever follows the line that stops writes nothing |
| Rpc.DriveOnePerLine | dxt-build/dxt-index.js:105-113 | when every acted-on line writes one response and none stops, the chunk writes one response per line, in order |
| Rpc.ExtensionParseError | dxt-build/dxt-index.js:115-126 | a line that does not parse, or holds `null`, ends the chunk: what came before is written, then one -32700 `Parse error` with a null id |
| Rpc.ExtensionOnePerRequest | dxt-build/dxt-index.js:105-113 | when every line holds a request, each non-blank line gets exactly one response, in order, carrying its id |
| Rpc.UnknownMethodIsInternal | dxt-build/dxt-index.js:78-79 | a method other than the three is answered with -32603 and `Unknown method: ${method}` |
| Rpc.ToolCallRuns | dxt-build/dxt-index.js:58-77 | a call by a name with an entry runs its handler with the call's arguments and no context: a resolved reply becomes its content, a rejection becomes -32603 with the fault's message |
| Rpc.ToolCallMissing | dxt-build/dxt-index.js:59-63 | a call whose name has no entry, or is not a string, is answered -32603 with `Tool ${name} not found` |
| DxtServer.PositionAgrees | dxt-build/dxt-index.js:20 | tables whose names agree locate a name alike |
| DxtServer.PutLaws | dxt-build/dxt-index.js:20 | `Map.set`: the name then maps to the new entry; other names are unchanged; the size grows by one exactly for a new name; existing entries keep their places; distinct names stay distinct |
| DxtServer.RegisterDistinct | dxt-build/dxt-index.js:96-98 | registering tools with distinct names gives exactly the list's entries, in order |
| DxtServer.LastRegistrationWins | dxt-build/dxt-index.js:96-98 | whatever the names, a name maps to the entry of its last registration |
| DxtServer.RegisterKeepsPlaces | dxt-build/dxt-index.js:96-98 | registration never moves or removes an entry already in the map |
| DxtServer.RegisterAllDistinct | dxt-build/dxt-index.js:96-98 | the map never holds a name twice |
| DxtServer.MatchesArrayServer | dxt-build/server/dxt-index.js:17-98 | for a tool list without repeated names, the `Map` server and the `find` server answer every request alike |
| DxtServer.ServerToolsListed | dxt-build/dxt-index.js:45-57 | with the extension tool table the listing names its eighteen tools in table order |
| DxtServer.ServerToolCallsResolve | dxt-build/dxt-index.js:58-77 | with that table, a call by any listed name is answered with content carrying the request id, never an error |
| DxtServer.SimpleMcpServer.constructor | dxt-build/dxt-index.js:14-18 | a new server holds an empty tool map |
| DxtServer.SimpleMcpServer.RegisterTool | dxt-build/dxt-index.js:19-22 | the map becomes `Put` of the old map; the name then maps to its entry and every other name keeps its entry; no name is held twice |
| DxtServer.SimpleMcpServer.Start | dxt-build/dxt-index.js:96-98 | the map becomes the old map with every tool registered in list order, still without repeated names |
| DxtServer.SimpleMcpServer.OnData | dxt-build/dxt-index.js:102-127 | a chunk writes what the shared loop writes over the current map |
| DxtServer.Serve | dxt-build/dxt-index.js:147-151 | a fresh server started with the list writes what the shared loop writes over the registered map, and, without repeated names, what the `find` server writes |
| DxtServerArray.FindAgrees | dxt-build/server/dxt-index.js:62 | looking a name up among the entries finds exactly the tool `tools.find` finds |
| DxtServerArray.ListsInOrder | dxt-build/server/dxt-index.js:43-58 | `tools/list` reports every tool of the list, in order, with its name, description and schema as declared |
| DxtServerArray.OnData | dxt-build/server/dxt-index.js:103-130 | a chunk writes what the shared loop writes over the tool list |
| SrcStdio.SchemaListing | src/dxt-index.ts:54-81 | one listed tool per tool, in order, each schema wrapped in an object schema |
| SrcStdio.React | src/dxt-index.ts:29-134 | for one line: an `initialize` request is answered at once and sets the flag; a stop never leaves a later answer; a line writes at most one response, now or later; a later answer carries the request's id |
| SrcStdio.StepsAgree | src/dxt-index.ts:25-136 | the immediate and the deferred view of a line agree on whether it ends the chunk |
| SrcStdio.StdioServer.constructor | src/dxt-index.ts:19 | the server starts uninitialized |
| SrcStdio.StdioServer.OnData | src/dxt-index.ts:21-140 | a chunk writes its immediate answers now and its tool-call answers later, as the loop over its lines yields them; the flag is set when it was set or a line reached initializes |
| SrcStdio.Consume | src/dxt-index.ts:25-136 | one pass over the lines computes both sides' outputs and whether a line initializes, stopping at the first line that stops |
| SrcStdio.NoInitializeNoFlag | src/dxt-index.ts:31-36 | a chunk in which no line asks for `initialize` leaves the flag as it was |
| SrcStdio.InitializeSetsFlag | src/dxt-index.ts:31-53 | an `initialize` request that is reached sets the flag and is answered at once with its id |
| SrcStdio.InitializesAfter | src/dxt-index.ts:25-53 | a prefix that never stops lets a later line's initialization through |
| SrcStdio.ListsWrapped | src/dxt-index.ts:54-81 | `tools/list` lists every tool in order with its schema wrapped in one object schema |
| SrcStdio.UnknownToolEndsChunk | src/dxt-index.ts:84-99 | a call of an unknown tool is answered -32601 `Tool ${name} not found` and the rest of the chunk is not handled; the extension server answers the same call -32603 and goes on |
| SrcStdio.BadLineEndsChunk | src/dxt-index.ts:137-139 | a line that does not parse, or holds `null`, is dropped silently with the rest of its chunk |
| SrcStdio.CallAnsweredLater | src/dxt-index.ts:101-131 | a call of a listed tool writes nothing at once and exactly one response when it settles, with the id: content when the handler resolves, -32603 when it rejects |
| SrcStdio.LibToolCallsResolve | src/dxt-index.ts:101-119 | with the tool table of src/lib/mcp-tools.ts a call by any listed name settles with content |
| SrcIndex.GetWhippyClient | src/index.ts:6-12 | the corrected definition of the Findings row (the key handed over as `apiKey`): the error `WHIPPY_API_KEY environment variable is required` exactly when the key is unset or empty; otherwise a client holding the key, sending `Bearer ` followed by it, with the default base URL |
| SrcIndex.BearerUndefined | src/index.ts:11 | as written, the client receives no `apiKey`, so it authenticates as `Bearer undefined` whatever key is set |
| SrcIndex.Issue | src/index.ts:16-472 | a handler issues no client call exactly when destructuring its parameters fails; otherwise it makes its tool's one client call |
| SrcIndex.SuccessText | src/index.ts:16-472 | every success text starts with the tool's banner; outside `list_contacts` it is the banner followed by the dump of the data |
| SrcIndex.ToolHandler | src/index.ts:16-472 | a handler rejects exactly when destructuring nullish parameters throws, outside its `try`; otherwise it resolves with one text block |
| SrcIndex.Registrations | src/index.ts:14-473 | the ten tools in registration order, each with its handler |
| SrcIndex.Catalogue | src/index.ts:14-473 | exactly ten tools, under the published names, no two alike |
| SrcIndex.ToolHandlerAsWritten | src/index.ts:16-472 | the handler as written, over the client `getWhippyClient` builds as written: it rejects exactly when destructuring nullish parameters throws; otherwise it resolves with one text block |
| SrcIndex.ReplyTextAsWritten | src/index.ts:16-472 | for parameters that destructure, the as-written handler answers `❌ Error ...:` with the missing-key message when the key is unset or empty; otherwise its request goes out over a connection sending `Bearer undefined`, and it answers with the success text over the data or `❌ Failed to ...:` with the client's error |
| SrcIndex.ReplyText | src/index.ts:16-472 | for parameters that destructure: `❌ Error ...:` with the missing-key message when the key is unset or empty; otherwise, for the client built from the key, its success text over the data when the call succeeds and `❌ Failed to ...:` with the client's error when it fails |
| SrcIndex.ListContactsPage | src/index.ts:106-154 | `list_contacts` asks the client for page `offset` with `limit`, and its success text names the offset and the limit it was given |
| SrcIndex.CampaignPayloadFields | src/index.ts:251-296 | `create_campaign` posts `name`, `message`, `contact_ids` and `scheduled_at` as given and no other key |
| SrcIndex.DevListingNamesTools | src/index.ts:505-510 | the development page splits back into three header lines followed by one `- name` line per registered tool, in registration order |

## Left out

- Schema validation: zod's checking and the JSON-Schema rendering of a schema are not modelled. The schemas are data with declared bounds and defaults, and handlers receive arguments as given.
- Transport: axios, the response interceptors' console logging and the 30-second timeout are left out. `remote` returns an outcome per configured connection and request, so a remote that changes between retries is not modelled.
- Numbers: JSON numbers are integers, and floating point is not modelled.
- Object keys: JavaScript object key order is literal order, and duplicate keys are not merged beyond `Lookup`'s last-wins rule.
- Process plumbing: `process.stdin` encoding, keep-alive intervals, signal handlers, `process.exit` and all `console.error` logging are left out. Writing to standard output is modelled as the list of `Response` values written; their serialisation is `render`'s business.
- Concurrency: in `src/dxt-index.ts`, `pending` lists tool-call answers in call order. The order in which settled promises interleave with later chunks is not modelled.
- Rpc.Dispatch: awaiting a handler is modelled as reading its settled outcome. The extension servers' interleaving of several chunks is not modelled.
- Mcp.DestructureFault: the `TypeError` text of destructuring a nullish value approximates V8's wording, `Cannot destructure property 'p' of 's' as it is undefined.`.
- `createMcpHandler` from `@vercel/mcp-adapter`, which `src/index.ts` registers its tools with, is not part of this model. The handlers and the order of registration are modelled; the adapter's transport is not.
- The development HTTP server of `src/index.ts` is not modelled, beyond the text of its page (`SrcIndex.DevListingNamesTools`). That includes its request-body accumulation and its `/mcp` forwarding.
- `dxt-index.ts` at the repository root, `dxt-build/index.js`, `api/[transport]/route.ts` and the type declaration files are not part of this model. They are entry points and types only.
- `src/lib/mcp-tools.ts` calls client methods that `src/lib/whippy-client.ts` lacks (`searchContacts`, `sendMessagingSMS`, `listAgents`, the channel and agent methods). It also passes a `{ api_key, base_url }` configuration, which that client does not read (second "Findings" row). It is modelled against the client it matches, `ServerClient`. Its handlers therefore run a client that holds the key, not the keyless client of `LibTools.BearerUndefined`.
- SrcIndex.ToolHandler: runs the corrected client of `SrcIndex.GetWhippyClient` (first "Findings" row), which sends `Bearer ` followed by the key. The handler as written, whose requests carry `Bearer undefined`, is `SrcIndex.ToolHandlerAsWritten`.
- SrcIndex.ReplyText: states the replies of the corrected handler. `SrcIndex.ReplyTextAsWritten` states those of the handler as written. `SrcIndex.Registrations` registers the corrected handlers.
- The dispatchers import a `mcp-tools` module whose built file is not among these sources. `Rpc`, `DxtServer` and `DxtServerArray` are therefore generic over any tool list, and their lemmas are also stated for `ServerTools.Tools`.
- `SimpleMcpServer.requestId` (`dxt-build/dxt-index.js:15`) is never read or written after its declaration, so it is not modelled.
- ServerTools.SuccessMessage: states that every message starts with the tool's banner. The full text after the banner is the function itself and is not restated; `ServerTools.SendCampaignText` states it for one tool.
- LibTools.SuccessMessage: states only that every message starts with the tool's banner, as for `ServerTools`.
- SrcIndex.SuccessText: for `list_contacts` the text after the banner is stated by `SrcIndex.ListContactsPage` for integer arguments only.
- Text.NatToString: states that the result is a non-empty run of decimal digits, not its numeric value.
- ServerClient.WhippyClient.ListContacts: the query is stated only when neither paging value is `null`. The `null` case follows `Api.Query`, which skips that parameter.
- ServerClient.WhippyClient.ListConversations: the query is stated only when neither paging value is `null`. The `null` case follows `Api.Query`, which skips that parameter.
- LibClient.WhippyClient.ListContacts: the query is stated only when neither paging value is `null`. The `null` case follows `Api.Query`, which skips that parameter.
- LibClient.WhippyClient.ListConversations: the query is stated only when neither paging value is `null`. The `null` case follows `Api.Query`, which skips that parameter.
- SrcClient.WhippyClient.ListContacts: the query is stated only when neither paging value is `null`. The `null` case follows `Api.Query`, which skips that parameter.
- SrcClient.WhippyClient.ListConversations: the query is stated only when neither paging value is `null`. The `null` case follows `Api.Query`, which skips that parameter.
- Api.Perform: the failure text assumes an error body of the declared `WhippyApiError` shape (dxt-build/types/whippy.d.ts:62-67). Other bodies differ from the source in two ways. First, when `errors` is non-empty but its first entry is `null` or missing (`{"errors":[null],"status":400}`), the response interceptors of the two extension clients (dxt-build/server/whippy-client.js:35-37, when the status is not 429, and dxt-build/lib/whippy-client.ts:38-41) throw a `TypeError` of their own while reading `description`. The method's `catch` then reports that error's message under either policy, but the model reports the transport message. Second, `errors?.[0]?.description || error.message` passes any truthy description (a number, `true`, an object) and also reads an array-like `errors` object. `Api.Description` counts only a non-empty string inside an array, and a result's `error` is a string. The src/lib/whippy-client.ts interceptor only logs, so neither difference applies to `SrcClient`.

## Findings

| source | as written | input that shows it | evidently intended | confidence | as-written member | corrected member |
|---|---|---|---|---|---|---|
| src/index.ts:11 | `new WhippyClient({ api_key })` passes the key under `api_key`, but the client reads `config.apiKey` (src/lib/whippy-client.ts:20-25), so every request carries `Authorization: Bearer undefined` | `WHIPPY_API_KEY=abc`: the header is `Bearer undefined`, not `Bearer abc` | pass `{ apiKey: api_key }`, so that the header is `Bearer ` followed by the key | not executed | SrcIndex.BearerUndefined | SrcIndex.GetWhippyClient |
| src/lib/mcp-tools.ts:60-63 | `new WhippyClient({ api_key, base_url })` hands the imported client of src/lib/whippy-client.ts an object it reads as `config.apiKey` and `config.baseUrl` (src/lib/whippy-client.ts:19-25), so both are lost | any key `abc` and base URL `u`: the header is `Bearer undefined` and the URL is the default | build the client that reads `api_key` and `base_url`, as the extension build does | not executed | LibTools.BearerUndefined | Invoker.GetWhippyClient |
