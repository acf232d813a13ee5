/**
 * The outbound email client of `src/email_client.rs`: the client configuration
 * captured by `EmailClient::new`, the request `EmailClient::send_email` builds for
 * the email provider (URL, `Authorization` header, `SendEmailRequest` body and the
 * JSON value serde derives from it), and how the call's outcome becomes its result.
 * The HTTP call itself is not modelled: its outcome is an input.
 */
module EmailClient {
  import opened Wrappers
  import opened Domain
  import opened Json

  const MailSendPath: string := "/mail/send"
  const BearerPrefix: string := "Bearer "
  const TextPlain: string := "text/plain"
  const TextHtml: string := "text/html"

  /** Every object key the serialised request body can contain. */
  const WireKeys: set<string> :=
    {"personalization", "to", "email", "from", "subject", "content", "type", "value"}

  // ---------------------------------------------------------------------------
  // The serialised structs and their derived `Serialize`

  datatype SendEmailKey = SendEmailKey(email: string)

  datatype SendEmailPersonalization = SendEmailPersonalization(to: seq<SendEmailKey>)

  /** `type_` is serialised under the key `"type"`. */
  datatype SendEmailContent = SendEmailContent(type_: string, value: string)

  datatype SendEmailRequest = SendEmailRequest(
    personalization: seq<SendEmailPersonalization>,
    from: SendEmailKey,
    subject: string,
    content: seq<SendEmailContent>)

  function KeyToJson(k: SendEmailKey): Json
  {
    JObject([("email", JString(k.email))])
  }

  function PersonalizationToJson(p: SendEmailPersonalization): Json
  {
    JObject([("to", JArray(MapSeq(p.to, KeyToJson)))])
  }

  function ContentToJson(c: SendEmailContent): Json
  {
    JObject([("type", JString(c.type_)), ("value", JString(c.value))])
  }

  function RequestToJson(r: SendEmailRequest): Json
  {
    JObject([
      ("personalization", JArray(MapSeq(r.personalization, PersonalizationToJson))),
      ("from", KeyToJson(r.from)),
      ("subject", JString(r.subject)),
      ("content", JArray(MapSeq(r.content, ContentToJson)))])
  }

  // Decoders: the inverse of the serialisation above, looking fields up by key.

  function KeyFromJson(j: Json): Option<SendEmailKey>
  {
    var email :- StringField(j, "email");
    Some(SendEmailKey(email))
  }

  function PersonalizationFromJson(j: Json): Option<SendEmailPersonalization>
  {
    var items :- ArrayField(j, "to");
    var to :- Traverse(items, KeyFromJson);
    Some(SendEmailPersonalization(to))
  }

  function ContentFromJson(j: Json): Option<SendEmailContent>
  {
    var t :- StringField(j, "type");
    var v :- StringField(j, "value");
    Some(SendEmailContent(t, v))
  }

  function RequestFromJson(j: Json): Option<SendEmailRequest>
  {
    var ps :- ArrayField(j, "personalization");
    var personalization :- Traverse(ps, PersonalizationFromJson);
    var f :- ObjectField(j, "from");
    var from :- KeyFromJson(f);
    var subject :- StringField(j, "subject");
    var cs :- ArrayField(j, "content");
    var content :- Traverse(cs, ContentFromJson);
    Some(SendEmailRequest(personalization, from, subject, content))
  }

  /** Looking up each field of a serialised body finds what the encoder stored under it. */
  lemma RequestFieldLookups(r: SendEmailRequest)
    ensures ArrayField(RequestToJson(r), "personalization") == Some(MapSeq(r.personalization, PersonalizationToJson))
    ensures ObjectField(RequestToJson(r), "from") == Some(KeyToJson(r.from))
    ensures StringField(RequestToJson(r), "subject") == Some(r.subject)
    ensures ArrayField(RequestToJson(r), "content") == Some(MapSeq(r.content, ContentToJson))
  {
    var fields := RequestToJson(r).fields;
    assert Field(fields, "from") == Field(fields[1..], "from") == Some(KeyToJson(r.from));
    assert Field(fields, "subject") == Field(fields[1..], "subject") == Field(fields[2..], "subject");
    assert Field(fields, "content") == Field(fields[1..], "content") == Field(fields[2..], "content")
        == Field(fields[3..], "content");
  }

  /** A serialised personalization decodes back to itself. */
  lemma PersonalizationRoundTrip(p: SendEmailPersonalization)
    ensures PersonalizationFromJson(PersonalizationToJson(p)) == Some(p)
  {
    TraverseInverts(p.to, KeyToJson, KeyFromJson);
  }

  /** A serialised list of personalizations decodes back to itself. */
  lemma PersonalizationsRoundTrip(ps: seq<SendEmailPersonalization>)
    ensures Traverse(MapSeq(ps, PersonalizationToJson), PersonalizationFromJson) == Some(ps)
  {
    forall i | 0 <= i < |ps|
      ensures PersonalizationFromJson(PersonalizationToJson(ps[i])) == Some(ps[i])
    {
      PersonalizationRoundTrip(ps[i]);
    }
    TraverseInverts(ps, PersonalizationToJson, PersonalizationFromJson);
  }

  /** A serialised content block decodes back to itself. */
  lemma ContentRoundTrip(c: SendEmailContent)
    ensures ContentFromJson(ContentToJson(c)) == Some(c)
  {
    var fields := ContentToJson(c).fields;
    assert Field(fields, "value") == Field(fields[1..], "value");
  }

  /** A serialised list of content blocks decodes back to itself. */
  lemma ContentsRoundTrip(cs: seq<SendEmailContent>)
    ensures Traverse(MapSeq(cs, ContentToJson), ContentFromJson) == Some(cs)
  {
    forall i | 0 <= i < |cs| ensures ContentFromJson(ContentToJson(cs[i])) == Some(cs[i]) {
      ContentRoundTrip(cs[i]);
    }
    TraverseInverts(cs, ContentToJson, ContentFromJson);
  }

  /** The decoder succeeds on any value whose four fields each decode. */
  lemma RequestFromFields(j: Json, r: SendEmailRequest, ps: seq<Json>, f: Json, cs: seq<Json>)
    requires ArrayField(j, "personalization") == Some(ps)
    requires Traverse(ps, PersonalizationFromJson) == Some(r.personalization)
    requires ObjectField(j, "from") == Some(f) && KeyFromJson(f) == Some(r.from)
    requires StringField(j, "subject") == Some(r.subject)
    requires ArrayField(j, "content") == Some(cs)
    requires Traverse(cs, ContentFromJson) == Some(r.content)
    ensures RequestFromJson(j) == Some(r)
  {
  }

  /** Decoding the serialised body gives the body back: the encoding loses nothing. */
  lemma RequestRoundTrip(r: SendEmailRequest)
    ensures RequestFromJson(RequestToJson(r)) == Some(r)
  {
    RequestFieldLookups(r);
    PersonalizationsRoundTrip(r.personalization);
    ContentsRoundTrip(r.content);
    RequestFromFields(RequestToJson(r), r, MapSeq(r.personalization, PersonalizationToJson),
                      KeyToJson(r.from), MapSeq(r.content, ContentToJson));
  }

  /** The serialised body uses only the listed key names; in particular `"type"`, never `"type_"`. */
  lemma RequestKeys(r: SendEmailRequest)
    ensures ObjectKeys(RequestToJson(r)) <= WireKeys
    ensures "type_" !in ObjectKeys(RequestToJson(r))
  {
    var ps := MapSeq(r.personalization, PersonalizationToJson);
    forall i | 0 <= i < |ps| ensures ObjectKeys(ps[i]) <= WireKeys {
      PersonalizationKeys(r.personalization[i]);
    }
    ArrayKeysWithin(ps, WireKeys);
    var cs := MapSeq(r.content, ContentToJson);
    forall i | 0 <= i < |cs| ensures ObjectKeys(cs[i]) <= WireKeys {
      ObjectKeysWithin(cs[i].fields, WireKeys);
    }
    ArrayKeysWithin(cs, WireKeys);
    KeyJsonKeys(r.from);
    ObjectKeysWithin(RequestToJson(r).fields, WireKeys);
    assert "type_"[4] == '_';
    assert forall k | k in WireKeys :: |k| != 5 || k[4] != '_';
  }

  lemma KeyJsonKeys(k: SendEmailKey)
    ensures ObjectKeys(KeyToJson(k)) <= WireKeys
  {
  }

  lemma PersonalizationKeys(p: SendEmailPersonalization)
    ensures ObjectKeys(PersonalizationToJson(p)) <= WireKeys
  {
    var to := MapSeq(p.to, KeyToJson);
    forall i | 0 <= i < |to| ensures ObjectKeys(to[i]) <= WireKeys {
      KeyJsonKeys(p.to[i]);
    }
    ArrayKeysWithin(to, WireKeys);
    ObjectKeysWithin(PersonalizationToJson(p).fields, WireKeys);
  }

  // ---------------------------------------------------------------------------
  // The client and the request it builds

  /** The HTTP connection pool (`http_client`) is not modelled. */
  datatype EmailClient = EmailClient(baseUrl: string, sender: SubscriberEmail, authorizationToken: string)
  {
    /** `EmailClient::new`: captures its three arguments unchanged. */
    static function New(baseUrl: string, sender: SubscriberEmail, authorizationToken: string): (c: EmailClient)
      ensures c.baseUrl == baseUrl
      ensures c.sender == sender
      ensures c.authorizationToken == authorizationToken
    {
      EmailClient(baseUrl, sender, authorizationToken)
    }

    /** A client is determined by the three values given to `new`: nothing else is configurable. */
    lemma NewCapturesEverything()
      ensures New(baseUrl, sender, authorizationToken) == this
    {
    }

    /** The request `send_email` hands to the HTTP client. `textContent` is accepted and dropped. */
    function BuildRequest(recipient: SubscriberEmail, subject: string, htmlContent: string, textContent: string): (r: OutboundRequest)
      ensures BaseUrlOf(r.url) == Some(baseUrl)
      ensures BearerToken(r.authorization) == Some(authorizationToken)
      ensures IsSendEmailBody(r.body, sender)
      ensures ArgumentsOf(r.body) == Some((recipient, subject, htmlContent))
      ensures r.payload == RequestToJson(r.body)
      ensures RequestFromJson(r.payload) == Some(r.body)
    {
      var body := RequestBody(recipient, sender, subject, htmlContent);
      RequestRoundTrip(body);
      OutboundRequest(MailSendUrl(baseUrl), BearerAuthorization(authorizationToken), body, RequestToJson(body))
    }

    /**
     * `send_email`: builds the request, makes one call, and returns `Ok(())` unless the
     * call itself failed. The response status is never looked at.
     */
    function SendEmail(recipient: SubscriberEmail, subject: string, htmlContent: string, textContent: string,
                       transport: TransportOutcome): (sent: Sent)
      ensures sent.request == BuildRequest(recipient, subject, htmlContent, textContent)
      ensures sent.result.Ok? <==> transport.Responded?
      ensures transport.Failed? ==> sent.result == Err(transport.error)
    {
      Sent(BuildRequest(recipient, subject, htmlContent, textContent), SendResult(transport))
    }
  }

  /** What `send_email` passes to `reqwest`: POST target, `Authorization` value, body and its JSON value. */
  datatype OutboundRequest = OutboundRequest(url: string, authorization: string, body: SendEmailRequest, payload: Json)

  /** The request made and the value `send_email` returns. */
  datatype Sent = Sent(request: OutboundRequest, result: Result<(), TransportError>)

  /**
   * A `reqwest::Error` from `send()`: a transport failure, or a URL or header value that
   * reqwest rejects while building the request. Its contents do not matter to the client.
   */
  datatype TransportError = TransportError(reason: string)

  /** How the awaited `send()` ended: a response with some status, or an error. */
  datatype TransportOutcome = Responded(status: nat) | Failed(error: TransportError)

  /** `format!("{}/mail/send", base_url)`. */
  function MailSendUrl(baseUrl: string): (url: string)
    ensures |url| == |baseUrl| + |MailSendPath|
    ensures url[..|baseUrl|] == baseUrl && url[|baseUrl|..] == MailSendPath
  {
    baseUrl + MailSendPath
  }

  /** The base URL a request URL was built from, if it ends with the send path. */
  function BaseUrlOf(url: string): Option<string>
  {
    if |url| >= |MailSendPath| && url[|url| - |MailSendPath|..] == MailSendPath
    then Some(url[..|url| - |MailSendPath|])
    else None
  }

  lemma MailSendUrlInverse(url: string, baseUrl: string)
    ensures BaseUrlOf(url) == Some(baseUrl) <==> url == MailSendUrl(baseUrl)
  {
  }

  /** The content type: plain text exactly when the HTML body is empty. */
  function TextType(htmlContent: string): (t: string)
    ensures t == TextPlain <==> htmlContent == ""
    ensures t == TextHtml <==> htmlContent != ""
  {
    if htmlContent == "" then TextPlain else TextHtml
  }

  /** `"Bearer ".to_owned() + token`. */
  function BearerAuthorization(token: string): (h: string)
    ensures |h| == |BearerPrefix| + |token|
    ensures h[..|BearerPrefix|] == BearerPrefix && h[|BearerPrefix|..] == token
  {
    BearerPrefix + token
  }

  /** The token carried by an `Authorization` value of the bearer scheme. */
  function BearerToken(h: string): Option<string>
  {
    if |h| >= |BearerPrefix| && h[..|BearerPrefix|] == BearerPrefix
    then Some(h[|BearerPrefix|..])
    else None
  }

  lemma BearerInverse(h: string, token: string)
    ensures BearerToken(h) == Some(token) <==> h == BearerAuthorization(token)
  {
  }

  /** The `SendEmailRequest` literal of `send_email`. */
  function RequestBody(recipient: SubscriberEmail, sender: SubscriberEmail, subject: string, htmlContent: string): (b: SendEmailRequest)
    ensures |b.personalization| == 1 && |b.personalization[0].to| == 1
    ensures b.personalization[0].to[0].email == recipient.AsRef()
    ensures b.from.email == sender.AsRef()
    ensures b.subject == subject
    ensures |b.content| == 1 && b.content[0].value == htmlContent
    ensures b.content[0].type_ == TextType(htmlContent)
  {
    SendEmailRequest(
      [SendEmailPersonalization([SendEmailKey(recipient.AsRef())])],
      SendEmailKey(sender.AsRef()),
      subject,
      [SendEmailContent(TextType(htmlContent), htmlContent)])
  }

  /** The shape of every body `send_email` sends for a given sender. */
  predicate IsSendEmailBody(b: SendEmailRequest, sender: SubscriberEmail)
  {
    && |b.personalization| == 1
    && |b.personalization[0].to| == 1
    && b.from == SendEmailKey(sender.AsRef())
    && |b.content| == 1
    && b.content[0].type_ == TextType(b.content[0].value)
  }

  /** Recipient, subject and HTML body of a body with one recipient and one content block. */
  function ArgumentsOf(b: SendEmailRequest): Option<(SubscriberEmail, string, string)>
  {
    if |b.personalization| == 1 && |b.personalization[0].to| == 1 && |b.content| == 1
    then Some((SubscriberEmail(b.personalization[0].to[0].email), b.subject, b.content[0].value))
    else None
  }

  /** A body has the shape of `send_email`'s bodies exactly when `send_email` builds it for some arguments. */
  lemma {:induction false} SendEmailBodies(b: SendEmailRequest, sender: SubscriberEmail)
    ensures IsSendEmailBody(b, sender) <==>
      exists recipient, subject, html :: b == RequestBody(recipient, sender, subject, html)
  {
    if IsSendEmailBody(b, sender) {
      var recipient := SubscriberEmail(b.personalization[0].to[0].email);
      var html := b.content[0].value;
      var built := RequestBody(recipient, sender, b.subject, html);
      assert b.personalization[0].to == [b.personalization[0].to[0]];
      assert b.personalization == [b.personalization[0]];
      assert b.content == [b.content[0]];
      assert built.personalization == b.personalization;
      assert built.content == b.content;
      assert b == built;
    }
  }

  /** The result of `send_email` given how its one HTTP call ended. */
  function SendResult(transport: TransportOutcome): (r: Result<(), TransportError>)
    ensures r.Ok? <==> transport.Responded?
    ensures transport.Failed? ==> r == Err(transport.error)
  {
    match transport
    case Responded(_) => Ok(())
    case Failed(e) => Err(e)
  }

  /** The response status never influences the result: even a 500 reply yields `Ok(())`. */
  lemma StatusNeverInspected(c: EmailClient, recipient: SubscriberEmail, subject: string, htmlContent: string,
                             textContent: string, s1: nat, s2: nat)
    ensures c.SendEmail(recipient, subject, htmlContent, textContent, Responded(s1))
         == c.SendEmail(recipient, subject, htmlContent, textContent, Responded(s2))
    ensures c.SendEmail(recipient, subject, htmlContent, textContent, Responded(500)).result == Ok(())
  {
  }

  /** A built request's payload uses every key name, so its key set is exactly `WireKeys`. */
  lemma BuiltPayloadKeys(c: EmailClient, recipient: SubscriberEmail, subject: string, htmlContent: string,
                         textContent: string)
    ensures ObjectKeys(c.BuildRequest(recipient, subject, htmlContent, textContent).payload) == WireKeys
  {
    var r := c.BuildRequest(recipient, subject, htmlContent, textContent);
    RequestKeys(r.body);
    var fields := r.payload.fields;
    var ps := fields[0].1.items;
    var to := ps[0].fields[0].1.items;
    var cs := fields[3].1.items;
    ObjectKeysInclude(to[0].fields, 0);
    ArrayKeysInclude(to, 0);
    ObjectKeysInclude(ps[0].fields, 0);
    ArrayKeysInclude(ps, 0);
    ObjectKeysInclude(cs[0].fields, 0);
    ObjectKeysInclude(cs[0].fields, 1);
    ArrayKeysInclude(cs, 0);
    ObjectKeysInclude(fields, 0);
    ObjectKeysInclude(fields, 1);
    ObjectKeysInclude(fields, 2);
    ObjectKeysInclude(fields, 3);
  }

  /** `text_content` never reaches the request. */
  lemma TextContentDropped(c: EmailClient, recipient: SubscriberEmail, subject: string, htmlContent: string,
                           t1: string, t2: string)
    ensures c.BuildRequest(recipient, subject, htmlContent, t1) == c.BuildRequest(recipient, subject, htmlContent, t2)
  {
  }
}
