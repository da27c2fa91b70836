/**
 * POST /email (routes/email.ts): the request body schema, the conversion of Postmark's
 * `Headers` list into the record the store keeps, the pass-through of every other field, and the
 * response projected from the stored email.
 *
 * The envelope fields and the header conversion are shared with the templated send
 * (routes/email/withTemplate.ts), whose body schema repeats them.
 */
module EmailRoute {
  import opened Common
  import opened Validation
  import opened Schema
  import opened Db

  // ------------------------------------------------------------------ headers

  /** One `{ Name, Value }` entry of Postmark's `Headers` list. */
  datatype Header = Header(Name: string, Value: string)

  /** `z.object({ Name: z.string(), Value: z.string() })` applied to one list element. */
  function ParseHeader(j: Json, path: seq<PathSegment>): (r: Result<Header>)
    ensures r.Ok? <==> j.Object? && StringAt(j.fields, "Name").Some? && StringAt(j.fields, "Value").Some?
    ensures r.Ok? ==> r.value == Header(StringAt(j.fields, "Name").value, StringAt(j.fields, "Value").value)
    ensures Reported(r)
  {
    if !j.Object? then Err({Issue(path, InvalidType("object", TypeName(j)), None)})
    else
      var name := StringField(j.fields, path, "Name", None);
      var value := StringField(j.fields, path, "Value", None);
      if name.Ok? && value.Ok? then Ok(Header(name.value, value.value))
      else Err(IssuesOf(name) + IssuesOf(value))
  }

  function HeaderNames(hs: seq<Header>): set<string> {
    set i | 0 <= i < |hs| :: hs[i].Name
  }

  /** Entry `i` is the last one in `hs` with its name. */
  predicate IsLastWithName(hs: seq<Header>, i: int) {
    0 <= i < |hs| && forall j | i < j < |hs| :: hs[j].Name != hs[i].Name
  }

  /** `Object.fromEntries(headers.map(h => [h.Name, h.Value]))`: entries are set in list order. */
  function HeadersToRecord(hs: seq<Header>): map<string, string>
    decreases |hs|
  {
    if hs == [] then map[]
    else HeadersToRecord(hs[..|hs| - 1])[hs[|hs| - 1].Name := hs[|hs| - 1].Value]
  }

  lemma HeaderNamesSnoc(front: seq<Header>, last: Header)
    ensures HeaderNames(front + [last]) == HeaderNames(front) + {last.Name}
  {
    var hs := front + [last];
    assert hs[|front|] == last;
    forall n | n in HeaderNames(hs) ensures n in HeaderNames(front) + {last.Name} {
      var i :| 0 <= i < |hs| && hs[i].Name == n;
      if i < |front| {
        assert hs[i] == front[i];
      }
    }
    forall n | n in HeaderNames(front) ensures n in HeaderNames(hs) {
      var i :| 0 <= i < |front| && front[i].Name == n;
      assert hs[i] == front[i];
    }
  }

  /**
   * The record's keys are exactly the names in the list, and each name maps to the value of the
   * last entry with that name.
   */
  lemma {:induction false} HeadersToRecordSpec(hs: seq<Header>)
    ensures HeadersToRecord(hs).Keys == HeaderNames(hs)
    ensures forall i | IsLastWithName(hs, i) :: HeadersToRecord(hs)[hs[i].Name] == hs[i].Value
    decreases |hs|
  {
    if hs != [] {
      var front := hs[..|hs| - 1];
      var last := hs[|hs| - 1];
      assert hs == front + [last];
      HeadersToRecordSpec(front);
      HeaderNamesSnoc(front, last);
      forall i | IsLastWithName(hs, i) ensures HeadersToRecord(hs)[hs[i].Name] == hs[i].Value {
        if i < |hs| - 1 {
          assert front[i] == hs[i];
          assert IsLastWithName(front, i);
        }
      }
    }
  }

  /** The route's `Headers ? Object.fromEntries(...) : undefined`; an empty list is kept as `{}`. */
  function ConvertHeaders(headers: Option<seq<Header>>): (r: Option<map<string, string>>)
    ensures r.Some? <==> headers.Some?
    ensures headers.Some? ==> r.value == HeadersToRecord(headers.value)
  {
    match headers
    case None => None
    case Some(hs) => Some(HeadersToRecord(hs))
  }

  /** A later header with the same name replaces an earlier one. */
  lemma LastDuplicateWins(hs: seq<Header>, name: string, first: string, second: string)
    ensures HeadersToRecord(hs + [Header(name, first), Header(name, second)])[name] == second
  {
    var all := hs + [Header(name, first), Header(name, second)];
    HeadersToRecordSpec(all);
    assert IsLastWithName(all, |all| - 1);
  }

  // ------------------------------------------------------------------ envelope

  /** The fields both send routes accept besides their content or template fields. */
  datatype Envelope = Envelope(
    From: string,
    To: string,
    Cc: Option<string>,
    Bcc: Option<string>,
    Tag: Option<string>,
    ReplyTo: Option<string>,
    Headers: Option<seq<Header>>,
    TrackOpens: Option<bool>,
    TrackLinks: Option<LinkTracking>,
    Metadata: Option<map<string, string>>,
    Attachments: Option<seq<Attachment>>,
    MessageStream: Option<string>)

  /** `TrackLinks: z.enum(["None", "HtmlAndText", "HtmlOnly", "TextOnly"]).optional()` */
  function OptionalTrackLinks(obj: JsonObject, path: seq<PathSegment>): (r: Result<Option<LinkTracking>>)
    ensures r.Ok? <==> "TrackLinks" !in obj || (obj["TrackLinks"].String? && obj["TrackLinks"].s in LINK_TRACKING_OPTIONS)
    ensures r.Ok? ==> (r.value.Some? <==> "TrackLinks" in obj)
    ensures r.Ok? && r.value.Some? ==> LinkTrackingName(r.value.value) == obj["TrackLinks"].s
    ensures Reported(r)
  {
    var e := OptionalEnum(obj, path, "TrackLinks", LINK_TRACKING_OPTIONS);
    if e.Err? then Err(e.issues)
    else if e.value.None? then Ok(None)
    else Ok(LinkTrackingOf(e.value.value))
  }

  /** The envelope part of a send body, with every field's issues collected. */
  function ParseEnvelope(obj: JsonObject, isEmail: string -> bool): (r: Result<Envelope>)
    ensures r.Ok? <==> && EmailField(obj, [], "From", isEmail).Ok? && EmailField(obj, [], "To", isEmail).Ok?
                       && OptionalEmail(obj, [], "Cc", isEmail).Ok? && OptionalEmail(obj, [], "Bcc", isEmail).Ok?
                       && OptionalString(obj, [], "Tag").Ok? && OptionalEmail(obj, [], "ReplyTo", isEmail).Ok?
                       && OptionalArray(obj, [], "Headers", ParseHeader).Ok? && OptionalBool(obj, [], "TrackOpens").Ok?
                       && OptionalTrackLinks(obj, []).Ok? && OptionalStringRecord(obj, [], "Metadata").Ok?
                       && OptionalAttachments(obj, [], "Attachments").Ok? && OptionalString(obj, [], "MessageStream").Ok?
    ensures "From" !in obj ==> r.Err? && MissingIssue([], "From", "string", None) in r.issues
    ensures "To" !in obj ==> r.Err? && MissingIssue([], "To", "string", None) in r.issues
    ensures r.Ok? ==> StringAt(obj, "From") == Some(r.value.From) && isEmail(r.value.From)
    ensures r.Ok? ==> StringAt(obj, "To") == Some(r.value.To) && isEmail(r.value.To)
    ensures r.Ok? ==> r.value.Cc == StringAt(obj, "Cc") && r.value.Bcc == StringAt(obj, "Bcc")
    ensures r.Ok? ==> r.value.Tag == StringAt(obj, "Tag") && r.value.ReplyTo == StringAt(obj, "ReplyTo")
    ensures r.Ok? ==> r.value.MessageStream == StringAt(obj, "MessageStream")
    ensures r.Ok? ==> (r.value.Cc.Some? ==> isEmail(r.value.Cc.value)) && (r.value.Bcc.Some? ==> isEmail(r.value.Bcc.value))
    ensures r.Ok? ==> r.value.ReplyTo.Some? ==> isEmail(r.value.ReplyTo.value)
    ensures r.Ok? ==> (r.value.Headers.Some? <==> "Headers" in obj)
    ensures r.Ok? ==> r.value.Headers == OptionalArray(obj, [], "Headers", ParseHeader).value
    ensures r.Ok? ==> r.value.TrackOpens == if "TrackOpens" in obj then Some(obj["TrackOpens"].b) else None
    ensures r.Ok? ==> TrackLinksText(r.value.TrackLinks) == StringAt(obj, "TrackLinks")
    ensures r.Ok? ==> r.value.Metadata == OptionalStringRecord(obj, [], "Metadata").value
    ensures r.Ok? ==> r.value.Attachments == OptionalAttachments(obj, [], "Attachments").value
    ensures Reported(r)
  {
    var from := EmailField(obj, [], "From", isEmail);
    var to := EmailField(obj, [], "To", isEmail);
    var cc := OptionalEmail(obj, [], "Cc", isEmail);
    var bcc := OptionalEmail(obj, [], "Bcc", isEmail);
    var tag := OptionalString(obj, [], "Tag");
    var replyTo := OptionalEmail(obj, [], "ReplyTo", isEmail);
    var headers := OptionalArray(obj, [], "Headers", ParseHeader);
    var trackOpens := OptionalBool(obj, [], "TrackOpens");
    var trackLinks := OptionalTrackLinks(obj, []);
    var metadata := OptionalStringRecord(obj, [], "Metadata");
    var attachments := OptionalAttachments(obj, [], "Attachments");
    var messageStream := OptionalString(obj, [], "MessageStream");
    if && from.Ok? && to.Ok? && cc.Ok? && bcc.Ok? && tag.Ok? && replyTo.Ok? && headers.Ok?
       && trackOpens.Ok? && trackLinks.Ok? && metadata.Ok? && attachments.Ok? && messageStream.Ok?
    then
      Ok(Envelope(from.value, to.value, cc.value, bcc.value, tag.value, replyTo.value,
        headers.value, trackOpens.value, trackLinks.value, metadata.value, attachments.value,
        messageStream.value))
    else
      Err(IssuesOf(from) + IssuesOf(to) + IssuesOf(cc) + IssuesOf(bcc) + IssuesOf(tag)
        + IssuesOf(replyTo) + IssuesOf(headers) + IssuesOf(trackOpens) + IssuesOf(trackLinks)
        + IssuesOf(metadata) + IssuesOf(attachments) + IssuesOf(messageStream))
  }

  // ------------------------------------------------------------------ POST /email

  /** `sendEmailRequestBodySchema`: the envelope plus literal Subject and bodies. */
  datatype SendEmailRequest = SendEmailRequest(
    envelope: Envelope,
    Subject: Option<string>,
    HtmlBody: Option<string>,
    TextBody: Option<string>)

  function ParseSendEmailRequest(body: JsonObject, isEmail: string -> bool): (r: Result<SendEmailRequest>)
    ensures r.Ok? <==> && ParseEnvelope(body, isEmail).Ok?
                       && ("Subject" !in body || body["Subject"].String?)
                       && ("HtmlBody" !in body || body["HtmlBody"].String?)
                       && ("TextBody" !in body || body["TextBody"].String?)
    ensures r.Ok? ==> r.value.envelope == ParseEnvelope(body, isEmail).value
    ensures r.Ok? ==> r.value.Subject == StringAt(body, "Subject")
    ensures r.Ok? ==> r.value.HtmlBody == StringAt(body, "HtmlBody") && r.value.TextBody == StringAt(body, "TextBody")
    ensures ParseEnvelope(body, isEmail).Err? ==> r.Err? && ParseEnvelope(body, isEmail).issues <= r.issues
    ensures Reported(r)
  {
    var envelope := ParseEnvelope(body, isEmail);
    var subject := OptionalString(body, [], "Subject");
    var htmlBody := OptionalString(body, [], "HtmlBody");
    var textBody := OptionalString(body, [], "TextBody");
    if envelope.Ok? && subject.Ok? && htmlBody.Ok? && textBody.Ok? then
      Ok(SendEmailRequest(envelope.value, subject.value, htmlBody.value, textBody.value))
    else
      Err(IssuesOf(envelope) + IssuesOf(subject) + IssuesOf(htmlBody) + IssuesOf(textBody))
  }

  /** `{ ...body, Headers: converted }`: what the route hands to `addPostmarkEmail`. */
  function ToStoreInput(req: SendEmailRequest): NewPostmarkEmail {
    var env := req.envelope;
    NewPostmarkEmail(
      From := env.From,
      To := env.To,
      Cc := env.Cc,
      Bcc := env.Bcc,
      Subject := req.Subject,
      Tag := env.Tag,
      HtmlBody := req.HtmlBody,
      TextBody := req.TextBody,
      ReplyTo := env.ReplyTo,
      Headers := ConvertHeaders(env.Headers),
      TrackOpens := env.TrackOpens,
      TrackLinks := TrackLinksText(env.TrackLinks),
      Metadata := env.Metadata,
      Attachments := env.Attachments,
      MessageStream := env.MessageStream,
      TemplateId := None,
      TemplateAlias := None,
      TemplateModel := None)
  }

  /**
   * Every field of an accepted body reaches the store as the body has it: the strings, TrackOpens,
   * Metadata and the attachments as parsed, TrackLinks as the option's own text, the parsed
   * Headers list as its record, and no template fields.
   */
  lemma AcceptedBodyReachesStore(body: JsonObject, isEmail: string -> bool)
    requires ParseSendEmailRequest(body, isEmail).Ok?
    ensures var e := ToStoreInput(ParseSendEmailRequest(body, isEmail).value);
      && StringAt(body, "From") == Some(e.From) && StringAt(body, "To") == Some(e.To)
      && e.Cc == StringAt(body, "Cc") && e.Bcc == StringAt(body, "Bcc")
      && e.Subject == StringAt(body, "Subject") && e.Tag == StringAt(body, "Tag")
      && e.HtmlBody == StringAt(body, "HtmlBody") && e.TextBody == StringAt(body, "TextBody")
      && e.ReplyTo == StringAt(body, "ReplyTo") && e.MessageStream == StringAt(body, "MessageStream")
      && (e.Headers.Some? <==> "Headers" in body)
      && e.TrackLinks == StringAt(body, "TrackLinks")
      && e.TemplateId.None? && e.TemplateAlias.None? && e.TemplateModel.None?
      && e.TrackOpens == (if "TrackOpens" in body then Some(body["TrackOpens"].b) else None)
      && e.Metadata == OptionalStringRecord(body, [], "Metadata").value
      && e.Attachments == OptionalAttachments(body, [], "Attachments").value
      && e.Headers == ConvertHeaders(OptionalArray(body, [], "Headers", ParseHeader).value)
  {
  }

  /** The response of both send routes (`sendEmailResponseSchema`). */
  datatype SendEmailResponse = SendEmailResponse(
    To: string,
    SubmittedAt: string,
    MessageID: string,
    ErrorCode: real,
    Message: string)

  /** The response copies To, SubmittedAt, MessageID and ErrorCode, and reports StatusMessage as Message. */
  function Respond(e: PostmarkEmail): (r: SendEmailResponse)
    ensures r.To == e.To && r.SubmittedAt == e.SubmittedAt && r.MessageID == e.MessageID
    ensures r.ErrorCode == e.ErrorCode && r.Message == e.StatusMessage
  {
    SendEmailResponse(e.To, e.SubmittedAt, e.MessageID, e.ErrorCode, e.StatusMessage)
  }

  /**
   * The route handler: a body the schema refuses leaves the store untouched and is answered
   * with its issues; an accepted body is stored once, stamped with the given id and time, and
   * answered with error code 0 and message "OK".
   */
  method SendEmail(db: Store, body: JsonObject, isEmail: string -> bool, messageId: string, submittedAt: string)
    returns (r: Result<SendEmailResponse>)
    requires db.Valid() && MessageIdUnused(db.postmarkEmails, messageId)
    modifies db
    ensures db.Valid()
    ensures r.Ok? <==> ParseSendEmailRequest(body, isEmail).Ok?
    ensures r.Err? ==> r.issues == ParseSendEmailRequest(body, isEmail).issues && db.postmarkEmails == old(db.postmarkEmails)
    ensures r.Ok? ==>
      var stored := Stamp(ToStoreInput(ParseSendEmailRequest(body, isEmail).value), messageId, submittedAt);
      && db.postmarkEmails == old(db.postmarkEmails) + [stored]
      && r.value == SendEmailResponse(stored.To, submittedAt, messageId, 0.0, "OK")
    ensures db.idCounter == old(db.idCounter) && db.templateIdCounter == old(db.templateIdCounter)
    ensures db.things == old(db.things) && db.emailTemplates == old(db.emailTemplates)
  {
    var parsed := ParseSendEmailRequest(body, isEmail);
    if parsed.Err? {
      return Err(parsed.issues);
    }
    var stored := db.AddPostmarkEmail(ToStoreInput(parsed.value), messageId, submittedAt);
    r := Ok(Respond(stored));
  }
}
