/**
 * The record shapes of the in-memory database (lib/db/schema.ts) and the zod schemas that
 * check them. A record type is a datatype whose required fields are plain values and whose
 * `.optional()` fields are `Option`s; `.nullable()` fields are `Nullable`s and so always
 * present. The schema parsers read a record back from a JSON object, applying the
 * `.default(...)` values, and each stored record shape reads back as itself.
 */
module Schema {
  import opened Common
  import opened Validation

  // ------------------------------------------------------------------ database defaults

  /** `idCounter: z.number().default(0)` */
  const INITIAL_ID_COUNTER: int := 0
  /** `templateIdCounter: z.number().default(1)`: template ids start from 1. */
  const INITIAL_TEMPLATE_ID_COUNTER: int := 1
  /** `ErrorCode: z.number().default(0)` */
  const DEFAULT_ERROR_CODE: real := 0.0
  /** `StatusMessage: z.string().default("OK")` */
  const DEFAULT_STATUS_MESSAGE: string := "OK"

  // ------------------------------------------------------------------ Thing

  datatype Thing = Thing(thing_id: string, name: string, description: string)

  /** `Omit<Thing, "thing_id">`: what a caller hands to `addThing`. */
  datatype NewThing = NewThing(name: string, description: string)

  // ------------------------------------------------------------------ email records

  datatype Attachment = Attachment(
    Name: string,
    Content: string,             // base64 text
    ContentType: string,
    ContentID: Option<Nullable<string>>)

  /** The `TrackLinks` options the send routes accept. */
  datatype LinkTracking = LinkNone | LinkHtmlAndText | LinkHtmlOnly | LinkTextOnly

  const LINK_TRACKING_OPTIONS: seq<string> := ["None", "HtmlAndText", "HtmlOnly", "TextOnly"]

  function LinkTrackingName(t: LinkTracking): (s: string)
    ensures s in LINK_TRACKING_OPTIONS
  {
    match t
    case LinkNone => "None"
    case LinkHtmlAndText => "HtmlAndText"
    case LinkHtmlOnly => "HtmlOnly"
    case LinkTextOnly => "TextOnly"
  }

  function LinkTrackingOf(s: string): (t: Option<LinkTracking>)
    ensures t.Some? <==> s in LINK_TRACKING_OPTIONS
    ensures t.Some? ==> LinkTrackingName(t.value) == s
  {
    if s == "None" then Some(LinkNone)
    else if s == "HtmlAndText" then Some(LinkHtmlAndText)
    else if s == "HtmlOnly" then Some(LinkHtmlOnly)
    else if s == "TextOnly" then Some(LinkTextOnly)
    else None
  }

  lemma LinkTrackingRoundTrip(t: LinkTracking)
    ensures LinkTrackingOf(LinkTrackingName(t)) == Some(t)
  {
  }

  /** One stored email (`postmarkEmailSchema`). */
  datatype PostmarkEmail = PostmarkEmail(
    MessageID: string,
    From: string,
    To: string,
    Cc: Option<string>,
    Bcc: Option<string>,
    Subject: Option<string>,
    Tag: Option<string>,
    HtmlBody: Option<string>,
    TextBody: Option<string>,
    ReplyTo: Option<string>,
    Headers: Option<map<string, string>>,
    TrackOpens: Option<bool>,
    TrackLinks: Option<string>,
    Metadata: Option<map<string, string>>,
    Attachments: Option<seq<Attachment>>,
    MessageStream: Option<string>,
    SubmittedAt: string,
    ErrorCode: real,
    StatusMessage: string,
    TemplateId: Option<int>,
    TemplateAlias: Option<string>,
    TemplateModel: Option<JsonObject>)

  /**
   * `NewPostmarkEmail`: a stored email without the four fields the store assigns
   * (`MessageID`, `SubmittedAt`, `ErrorCode`, `StatusMessage`).
   */
  datatype NewPostmarkEmail = NewPostmarkEmail(
    From: string,
    To: string,
    Cc: Option<string>,
    Bcc: Option<string>,
    Subject: Option<string>,
    Tag: Option<string>,
    HtmlBody: Option<string>,
    TextBody: Option<string>,
    ReplyTo: Option<string>,
    Headers: Option<map<string, string>>,
    TrackOpens: Option<bool>,
    TrackLinks: Option<string>,
    Metadata: Option<map<string, string>>,
    Attachments: Option<seq<Attachment>>,
    MessageStream: Option<string>,
    TemplateId: Option<int>,
    TemplateAlias: Option<string>,
    TemplateModel: Option<JsonObject>)

  /** The input part of a stored email: everything but the four store-assigned fields. */
  function Unstamp(e: PostmarkEmail): NewPostmarkEmail {
    NewPostmarkEmail(e.From, e.To, e.Cc, e.Bcc, e.Subject, e.Tag, e.HtmlBody, e.TextBody,
      e.ReplyTo, e.Headers, e.TrackOpens, e.TrackLinks, e.Metadata, e.Attachments,
      e.MessageStream, e.TemplateId, e.TemplateAlias, e.TemplateModel)
  }

  /**
   * `{ ...emailData, MessageID, SubmittedAt, ErrorCode: 0, StatusMessage: "OK" }`: the
   * record an accepted send stores. Every input field is kept and the store-assigned
   * fields are the given id and time, error code 0 and status "OK".
   */
  function Stamp(input: NewPostmarkEmail, messageId: string, submittedAt: string): (e: PostmarkEmail)
    ensures e.MessageID == messageId && e.SubmittedAt == submittedAt
    ensures e.ErrorCode == 0.0 && e.StatusMessage == "OK"
    ensures Unstamp(e) == input
  {
    PostmarkEmail(messageId, input.From, input.To, input.Cc, input.Bcc, input.Subject,
      input.Tag, input.HtmlBody, input.TextBody, input.ReplyTo, input.Headers,
      input.TrackOpens, input.TrackLinks, input.Metadata, input.Attachments,
      input.MessageStream, submittedAt, 0.0, "OK", input.TemplateId, input.TemplateAlias,
      input.TemplateModel)
  }

  /** A stored email of an accepted send is exactly its input part, stamped. */
  lemma StampUnstamp(e: PostmarkEmail)
    requires e.ErrorCode == 0.0 && e.StatusMessage == "OK"
    ensures Stamp(Unstamp(e), e.MessageID, e.SubmittedAt) == e
  {
  }

  // ------------------------------------------------------------------ email templates

  datatype TemplateType = Standard | Layout

  const TEMPLATE_TYPE_OPTIONS: seq<string> := ["Standard", "Layout"]

  function TemplateTypeName(t: TemplateType): (s: string)
    ensures s in TEMPLATE_TYPE_OPTIONS
  {
    match t
    case Standard => "Standard"
    case Layout => "Layout"
  }

  /** One stored template (`emailTemplateSchema`). */
  datatype EmailTemplate = EmailTemplate(
    TemplateId: int,
    Name: string,
    Alias: Nullable<string>,
    Subject: Option<string>,
    HtmlBody: Option<string>,
    TextBody: Option<string>,
    TemplateType: TemplateType,
    LayoutTemplate: Nullable<string>,
    Active: bool)

  // ------------------------------------------------------------------ schema parsers

  /** The attachment object schema, applied to one array element found at `path`. */
  function ParseAttachment(j: Json, path: seq<PathSegment>): (r: Result<Attachment>)
    ensures r.Ok? <==>
      && j.Object?
      && StringField(j.fields, path, "Name", None).Ok?
      && StringField(j.fields, path, "Content", None).Ok?
      && StringField(j.fields, path, "ContentType", None).Ok?
      && OptionalNullableString(j.fields, path, "ContentID").Ok?
    ensures r.Ok? ==> && StringAt(j.fields, "Name") == Some(r.value.Name)
                      && StringAt(j.fields, "Content") == Some(r.value.Content)
                      && StringAt(j.fields, "ContentType") == Some(r.value.ContentType)
                      && r.value.ContentID == OptionalNullableString(j.fields, path, "ContentID").value
    ensures Reported(r)
  {
    if !j.Object? then Err({Issue(path, InvalidType("object", TypeName(j)), None)})
    else
      var name := StringField(j.fields, path, "Name", None);
      var content := StringField(j.fields, path, "Content", None);
      var contentType := StringField(j.fields, path, "ContentType", None);
      var contentId := OptionalNullableString(j.fields, path, "ContentID");
      if name.Ok? && content.Ok? && contentType.Ok? && contentId.Ok? then
        Ok(Attachment(name.value, content.value, contentType.value, contentId.value))
      else
        Err(IssuesOf(name) + IssuesOf(content) + IssuesOf(contentType) + IssuesOf(contentId))
  }

  /** `key: z.array(attachmentSchema).optional()` */
  function OptionalAttachments(obj: JsonObject, path: seq<PathSegment>, key: string): (r: Result<Option<seq<Attachment>>>)
    ensures r.Ok? <==> key !in obj || (obj[key].Array? && forall i :: 0 <= i < |obj[key].items| ==>
                                         ParseAttachment(obj[key].items[i], path + [Key(key)] + [Index(i)]).Ok?)
    ensures r.Ok? ==> (r.value.Some? <==> key in obj)
    ensures r.Ok? && key in obj ==> |r.value.value| == |obj[key].items|
    ensures r.Ok? && key in obj ==> forall i :: 0 <= i < |obj[key].items| ==>
      r.value.value[i] == ParseAttachment(obj[key].items[i], path + [Key(key)] + [Index(i)]).value
    ensures Reported(r)
  {
    OptionalArray(obj, path, key, ParseAttachment)
  }

  /** `postmarkEmailSchema.parse`: reads a stored email, filling in the defaults. */
  function ParsePostmarkEmail(obj: JsonObject): (r: Result<PostmarkEmail>)
    ensures Reported(r)
  {
    var messageId := StringField(obj, [], "MessageID", None);
    var from := StringField(obj, [], "From", None);
    var to := StringField(obj, [], "To", None);
    var cc := OptionalString(obj, [], "Cc");
    var bcc := OptionalString(obj, [], "Bcc");
    var subject := OptionalString(obj, [], "Subject");
    var tag := OptionalString(obj, [], "Tag");
    var htmlBody := OptionalString(obj, [], "HtmlBody");
    var textBody := OptionalString(obj, [], "TextBody");
    var replyTo := OptionalString(obj, [], "ReplyTo");
    var headers := OptionalStringRecord(obj, [], "Headers");
    var trackOpens := OptionalBool(obj, [], "TrackOpens");
    var trackLinks := OptionalString(obj, [], "TrackLinks");
    var metadata := OptionalStringRecord(obj, [], "Metadata");
    var attachments := OptionalAttachments(obj, [], "Attachments");
    var messageStream := OptionalString(obj, [], "MessageStream");
    var submittedAt := StringField(obj, [], "SubmittedAt", None);
    var errorCode := NumberOrDefault(obj, [], "ErrorCode", DEFAULT_ERROR_CODE);
    var statusMessage := StringOrDefault(obj, [], "StatusMessage", DEFAULT_STATUS_MESSAGE);
    var templateId := OptionalInteger(obj, [], "TemplateId");
    var templateAlias := OptionalString(obj, [], "TemplateAlias");
    var templateModel := OptionalAnyRecord(obj, [], "TemplateModel");
    if && messageId.Ok? && from.Ok? && to.Ok? && cc.Ok? && bcc.Ok? && subject.Ok? && tag.Ok?
       && htmlBody.Ok? && textBody.Ok? && replyTo.Ok? && headers.Ok? && trackOpens.Ok?
       && trackLinks.Ok? && metadata.Ok? && attachments.Ok? && messageStream.Ok?
       && submittedAt.Ok? && errorCode.Ok? && statusMessage.Ok? && templateId.Ok?
       && templateAlias.Ok? && templateModel.Ok?
    then
      Ok(PostmarkEmail(messageId.value, from.value, to.value, cc.value, bcc.value,
        subject.value, tag.value, htmlBody.value, textBody.value, replyTo.value,
        headers.value, trackOpens.value, trackLinks.value, metadata.value, attachments.value,
        messageStream.value, submittedAt.value, errorCode.value, statusMessage.value,
        templateId.value, templateAlias.value, templateModel.value))
    else
      Err(IssuesOf(messageId) + IssuesOf(from) + IssuesOf(to) + IssuesOf(cc) + IssuesOf(bcc)
        + IssuesOf(subject) + IssuesOf(tag) + IssuesOf(htmlBody) + IssuesOf(textBody)
        + IssuesOf(replyTo) + IssuesOf(headers) + IssuesOf(trackOpens) + IssuesOf(trackLinks)
        + IssuesOf(metadata) + IssuesOf(attachments) + IssuesOf(messageStream)
        + IssuesOf(submittedAt) + IssuesOf(errorCode) + IssuesOf(statusMessage)
        + IssuesOf(templateId) + IssuesOf(templateAlias) + IssuesOf(templateModel))
  }

  /** `emailTemplateSchema.parse` */
  function ParseEmailTemplate(obj: JsonObject): (r: Result<EmailTemplate>)
    ensures Reported(r)
  {
    var templateId := IntegerField(obj, [], "TemplateId");
    var name := StringField(obj, [], "Name", None);
    var alias := NullableString(obj, [], "Alias");
    var subject := OptionalString(obj, [], "Subject");
    var htmlBody := OptionalString(obj, [], "HtmlBody");
    var textBody := OptionalString(obj, [], "TextBody");
    var templateType := EnumField(obj, [], "TemplateType", TEMPLATE_TYPE_OPTIONS);
    var layoutTemplate := NullableString(obj, [], "LayoutTemplate");
    var active := BoolField(obj, [], "Active");
    if && templateId.Ok? && name.Ok? && alias.Ok? && subject.Ok? && htmlBody.Ok?
       && textBody.Ok? && templateType.Ok? && layoutTemplate.Ok? && active.Ok?
    then
      Ok(EmailTemplate(templateId.value, name.value, alias.value, subject.value, htmlBody.value,
        textBody.value, if templateType.value == "Standard" then Standard else Layout,
        layoutTemplate.value, active.value))
    else
      Err(IssuesOf(templateId) + IssuesOf(name) + IssuesOf(alias) + IssuesOf(subject)
        + IssuesOf(htmlBody) + IssuesOf(textBody) + IssuesOf(templateType)
        + IssuesOf(layoutTemplate) + IssuesOf(active))
  }

  /**
   * An email record needs MessageID, From, To and SubmittedAt; ErrorCode and StatusMessage
   * default to 0 and "OK"; a TemplateId it carries is an integer.
   */
  lemma EmailRecordShape(obj: JsonObject)
    ensures (|| "MessageID" !in obj || "From" !in obj || "To" !in obj || "SubmittedAt" !in obj)
            ==> ParsePostmarkEmail(obj).Err?
    ensures ParsePostmarkEmail(obj).Ok? ==>
      var e := ParsePostmarkEmail(obj).value;
      && StringAt(obj, "MessageID") == Some(e.MessageID) && StringAt(obj, "From") == Some(e.From)
      && StringAt(obj, "To") == Some(e.To) && StringAt(obj, "SubmittedAt") == Some(e.SubmittedAt)
      && ("ErrorCode" !in obj ==> e.ErrorCode == DEFAULT_ERROR_CODE)
      && ("StatusMessage" !in obj ==> e.StatusMessage == DEFAULT_STATUS_MESSAGE)
      && e.TemplateId == IntegerAt(obj, "TemplateId")
    ensures "TemplateId" in obj && obj["TemplateId"].Number? && !IsInteger(obj["TemplateId"].n)
            ==> ParsePostmarkEmail(obj).Err?
  {
  }

  /**
   * ErrorCode and StatusMessage may be left out of any accepted record: the record without
   * them is accepted too, with the same fields and the two defaults.
   */
  lemma EmailDefaultsOptional(obj: JsonObject)
    requires ParsePostmarkEmail(obj).Ok?
    ensures ParsePostmarkEmail(obj - {"ErrorCode", "StatusMessage"})
         == Ok(ParsePostmarkEmail(obj).value.(ErrorCode := DEFAULT_ERROR_CODE, StatusMessage := DEFAULT_STATUS_MESSAGE))
  {
    var rest := obj - {"ErrorCode", "StatusMessage"};
    KeptStringFieldsParseAlike(obj);
    KeptOtherFieldsParseAlike(obj);
    assert NumberOrDefault(rest, [], "ErrorCode", DEFAULT_ERROR_CODE) == Ok(DEFAULT_ERROR_CODE);
    assert StringOrDefault(rest, [], "StatusMessage", DEFAULT_STATUS_MESSAGE) == Ok(DEFAULT_STATUS_MESSAGE);
  }

  /** Leaving out ErrorCode and StatusMessage changes how no string field of a record parses. */
  lemma KeptStringFieldsParseAlike(obj: JsonObject)
    ensures var rest := obj - {"ErrorCode", "StatusMessage"};
            && StringField(rest, [], "MessageID", None) == StringField(obj, [], "MessageID", None)
            && StringField(rest, [], "From", None) == StringField(obj, [], "From", None)
            && StringField(rest, [], "To", None) == StringField(obj, [], "To", None)
            && OptionalString(rest, [], "Cc") == OptionalString(obj, [], "Cc")
            && OptionalString(rest, [], "Bcc") == OptionalString(obj, [], "Bcc")
            && OptionalString(rest, [], "Subject") == OptionalString(obj, [], "Subject")
            && OptionalString(rest, [], "Tag") == OptionalString(obj, [], "Tag")
            && OptionalString(rest, [], "HtmlBody") == OptionalString(obj, [], "HtmlBody")
            && OptionalString(rest, [], "TextBody") == OptionalString(obj, [], "TextBody")
            && OptionalString(rest, [], "ReplyTo") == OptionalString(obj, [], "ReplyTo")
            && OptionalString(rest, [], "TrackLinks") == OptionalString(obj, [], "TrackLinks")
            && OptionalString(rest, [], "MessageStream") == OptionalString(obj, [], "MessageStream")
            && StringField(rest, [], "SubmittedAt", None) == StringField(obj, [], "SubmittedAt", None)
            && OptionalString(rest, [], "TemplateAlias") == OptionalString(obj, [], "TemplateAlias")
  {
    var rest := obj - {"ErrorCode", "StatusMessage"};
    StringParsersAlike(obj, rest, "MessageID");
    StringParsersAlike(obj, rest, "From");
    StringParsersAlike(obj, rest, "To");
    StringParsersAlike(obj, rest, "Cc");
    StringParsersAlike(obj, rest, "Bcc");
    StringParsersAlike(obj, rest, "Subject");
    StringParsersAlike(obj, rest, "Tag");
    StringParsersAlike(obj, rest, "HtmlBody");
    StringParsersAlike(obj, rest, "TextBody");
    StringParsersAlike(obj, rest, "ReplyTo");
    StringParsersAlike(obj, rest, "TrackLinks");
    StringParsersAlike(obj, rest, "MessageStream");
    StringParsersAlike(obj, rest, "SubmittedAt");
    StringParsersAlike(obj, rest, "TemplateAlias");
  }

  /** Leaving out ErrorCode and StatusMessage changes how no other optional field of a record parses. */
  lemma KeptOtherFieldsParseAlike(obj: JsonObject)
    ensures var rest := obj - {"ErrorCode", "StatusMessage"};
            && OptionalStringRecord(rest, [], "Headers") == OptionalStringRecord(obj, [], "Headers")
            && OptionalBool(rest, [], "TrackOpens") == OptionalBool(obj, [], "TrackOpens")
            && OptionalStringRecord(rest, [], "Metadata") == OptionalStringRecord(obj, [], "Metadata")
            && OptionalAttachments(rest, [], "Attachments") == OptionalAttachments(obj, [], "Attachments")
            && OptionalInteger(rest, [], "TemplateId") == OptionalInteger(obj, [], "TemplateId")
            && OptionalAnyRecord(rest, [], "TemplateModel") == OptionalAnyRecord(obj, [], "TemplateModel")
  {
    var rest := obj - {"ErrorCode", "StatusMessage"};
    OptionalStringRecordAlike(obj, rest, "Headers");
    OptionalBoolAlike(obj, rest, "TrackOpens");
    OptionalStringRecordAlike(obj, rest, "Metadata");
    OptionalAttachmentsAlike(obj, rest, "Attachments");
    OptionalIntegerAlike(obj, rest, "TemplateId");
    OptionalAnyRecordAlike(obj, rest, "TemplateModel");
  }

  // Each field parser reads only its own key, so two objects that agree there parse it alike.

  lemma StringParsersAlike(obj: JsonObject, other: JsonObject, key: string)
    requires (key in other <==> key in obj) && (key in other ==> other[key] == obj[key])
    ensures StringField(other, [], key, None) == StringField(obj, [], key, None)
    ensures OptionalString(other, [], key) == OptionalString(obj, [], key)
  {
  }

  lemma OptionalStringRecordAlike(obj: JsonObject, other: JsonObject, key: string)
    requires (key in other <==> key in obj) && (key in other ==> other[key] == obj[key])
    ensures OptionalStringRecord(other, [], key) == OptionalStringRecord(obj, [], key)
  {
  }

  lemma OptionalBoolAlike(obj: JsonObject, other: JsonObject, key: string)
    requires (key in other <==> key in obj) && (key in other ==> other[key] == obj[key])
    ensures OptionalBool(other, [], key) == OptionalBool(obj, [], key)
  {
  }

  lemma OptionalAttachmentsAlike(obj: JsonObject, other: JsonObject, key: string)
    requires (key in other <==> key in obj) && (key in other ==> other[key] == obj[key])
    ensures OptionalAttachments(other, [], key) == OptionalAttachments(obj, [], key)
  {
  }

  lemma OptionalIntegerAlike(obj: JsonObject, other: JsonObject, key: string)
    requires (key in other <==> key in obj) && (key in other ==> other[key] == obj[key])
    ensures OptionalInteger(other, [], key) == OptionalInteger(obj, [], key)
  {
  }

  lemma OptionalAnyRecordAlike(obj: JsonObject, other: JsonObject, key: string)
    requires (key in other <==> key in obj) && (key in other ==> other[key] == obj[key])
    ensures OptionalAnyRecord(other, [], key) == OptionalAnyRecord(obj, [], key)
  {
  }

  /** A record with only the four required strings. */
  function MinimalEmailJson(messageId: string, from: string, to: string, submittedAt: string): JsonObject {
    map["MessageID" := String(messageId), "From" := String(from), "To" := String(to),
        "SubmittedAt" := String(submittedAt)]
  }

  /** A record with only the four required strings is accepted, with every default. */
  lemma MinimalEmailAccepted(messageId: string, from: string, to: string, submittedAt: string)
    ensures ParsePostmarkEmail(MinimalEmailJson(messageId, from, to, submittedAt))
         == Ok(PostmarkEmail(messageId, from, to, None, None, None, None, None, None, None, None,
                None, None, None, None, None, submittedAt, DEFAULT_ERROR_CODE, DEFAULT_STATUS_MESSAGE,
                None, None, None))
  {
    MinimalRequiredFields(messageId, from, to, submittedAt);
    MinimalOptionalStrings(messageId, from, to, submittedAt);
    MinimalOtherFields(messageId, from, to, submittedAt);
  }

  lemma MinimalRequiredFields(messageId: string, from: string, to: string, submittedAt: string)
    ensures var obj := MinimalEmailJson(messageId, from, to, submittedAt);
            && StringField(obj, [], "MessageID", None) == Ok(messageId)
            && StringField(obj, [], "From", None) == Ok(from)
            && StringField(obj, [], "To", None) == Ok(to)
            && StringField(obj, [], "SubmittedAt", None) == Ok(submittedAt)
            && NumberOrDefault(obj, [], "ErrorCode", DEFAULT_ERROR_CODE) == Ok(DEFAULT_ERROR_CODE)
            && StringOrDefault(obj, [], "StatusMessage", DEFAULT_STATUS_MESSAGE) == Ok(DEFAULT_STATUS_MESSAGE)
  {
  }

  lemma MinimalOptionalStrings(messageId: string, from: string, to: string, submittedAt: string)
    ensures var obj := MinimalEmailJson(messageId, from, to, submittedAt);
            && OptionalString(obj, [], "Cc") == Ok(None)
            && OptionalString(obj, [], "Bcc") == Ok(None)
            && OptionalString(obj, [], "Subject") == Ok(None)
            && OptionalString(obj, [], "Tag") == Ok(None)
            && OptionalString(obj, [], "HtmlBody") == Ok(None)
            && OptionalString(obj, [], "TextBody") == Ok(None)
            && OptionalString(obj, [], "ReplyTo") == Ok(None)
            && OptionalString(obj, [], "TrackLinks") == Ok(None)
            && OptionalString(obj, [], "MessageStream") == Ok(None)
            && OptionalString(obj, [], "TemplateAlias") == Ok(None)
  {
  }

  lemma MinimalOtherFields(messageId: string, from: string, to: string, submittedAt: string)
    ensures var obj := MinimalEmailJson(messageId, from, to, submittedAt);
            && OptionalStringRecord(obj, [], "Headers") == Ok(None)
            && OptionalBool(obj, [], "TrackOpens") == Ok(None)
            && OptionalStringRecord(obj, [], "Metadata") == Ok(None)
            && OptionalAttachments(obj, [], "Attachments") == Ok(None)
            && OptionalInteger(obj, [], "TemplateId") == Ok(None)
            && OptionalAnyRecord(obj, [], "TemplateModel") == Ok(None)
  {
  }

  /**
   * A template record always has Alias and LayoutTemplate (a string or null), an integer
   * TemplateId and a TemplateType named by one of the two options.
   */
  lemma TemplateRecordShape(obj: JsonObject)
    ensures ParseEmailTemplate(obj).Ok? ==>
      var t := ParseEmailTemplate(obj).value;
      && "Alias" in obj && "LayoutTemplate" in obj
      && IntegerAt(obj, "TemplateId") == Some(t.TemplateId)
      && StringAt(obj, "TemplateType") == Some(TemplateTypeName(t.TemplateType))
      && (t.Alias.NonNull? <==> obj["Alias"].String?)
      && (t.LayoutTemplate.NonNull? <==> obj["LayoutTemplate"].String?)
      && (obj["Alias"].String? || obj["Alias"].Null?)
      && (obj["LayoutTemplate"].String? || obj["LayoutTemplate"].Null?)
    ensures StringAt(obj, "TemplateType").Some? && StringAt(obj, "TemplateType").value !in TEMPLATE_TYPE_OPTIONS
            ==> ParseEmailTemplate(obj).Err?
  {
  }

  // ------------------------------------------------------------------ records as JSON

  function NullableJson(n: Nullable<string>): Json {
    match n
    case Null => Json.Null
    case NonNull(s) => String(s)
  }

  function AttachmentJson(a: Attachment): Json {
    var required := map["Name" := String(a.Name), "Content" := String(a.Content),
                        "ContentType" := String(a.ContentType)];
    match a.ContentID
    case None => Object(required)
    case Some(id) => Object(required["ContentID" := NullableJson(id)])
  }

  function AttachmentsJson(attachments: seq<Attachment>): seq<Json> {
    seq(|attachments|, i requires 0 <= i < |attachments| => AttachmentJson(attachments[i]))
  }

  const EMAIL_KEYS: set<string> := {
    "MessageID", "From", "To", "Cc", "Bcc", "Subject", "Tag", "HtmlBody", "TextBody",
    "ReplyTo", "Headers", "TrackOpens", "TrackLinks", "Metadata", "Attachments",
    "MessageStream", "SubmittedAt", "ErrorCode", "StatusMessage", "TemplateId",
    "TemplateAlias", "TemplateModel"}

  /** The JSON value of field `key` of a stored email, `None` when the field is absent. */
  function EmailFieldJson(e: PostmarkEmail, key: string): Option<Json> {
    if key == "MessageID" then Some(String(e.MessageID))
    else if key == "From" then Some(String(e.From))
    else if key == "To" then Some(String(e.To))
    else if key == "Cc" then StringJson(e.Cc)
    else if key == "Bcc" then StringJson(e.Bcc)
    else if key == "Subject" then StringJson(e.Subject)
    else if key == "Tag" then StringJson(e.Tag)
    else if key == "HtmlBody" then StringJson(e.HtmlBody)
    else if key == "TextBody" then StringJson(e.TextBody)
    else if key == "ReplyTo" then StringJson(e.ReplyTo)
    else if key == "Headers" then
      (if e.Headers.Some? then Some(StringMapJson(e.Headers.value)) else None)
    else if key == "TrackOpens" then
      (if e.TrackOpens.Some? then Some(Bool(e.TrackOpens.value)) else None)
    else if key == "TrackLinks" then StringJson(e.TrackLinks)
    else if key == "Metadata" then
      (if e.Metadata.Some? then Some(StringMapJson(e.Metadata.value)) else None)
    else if key == "Attachments" then
      (if e.Attachments.Some? then Some(Array(AttachmentsJson(e.Attachments.value))) else None)
    else if key == "MessageStream" then StringJson(e.MessageStream)
    else if key == "SubmittedAt" then Some(String(e.SubmittedAt))
    else if key == "ErrorCode" then Some(Number(e.ErrorCode))
    else if key == "StatusMessage" then Some(String(e.StatusMessage))
    else if key == "TemplateId" then
      (if e.TemplateId.Some? then Some(Number(e.TemplateId.value as real)) else None)
    else if key == "TemplateAlias" then StringJson(e.TemplateAlias)
    else if key == "TemplateModel" then
      (if e.TemplateModel.Some? then Some(Object(e.TemplateModel.value)) else None)
    else None
  }

  /** The JSON object of a stored email; absent optional fields are left out. */
  function EmailToJson(e: PostmarkEmail): JsonObject {
    map key | key in EMAIL_KEYS && EmailFieldJson(e, key).Some? :: EmailFieldJson(e, key).value
  }

  const TEMPLATE_KEYS: set<string> := {
    "TemplateId", "Name", "Alias", "Subject", "HtmlBody", "TextBody", "TemplateType",
    "LayoutTemplate", "Active"}

  /** The JSON value of field `key` of a stored template, `None` when the field is absent. */
  function TemplateFieldJson(t: EmailTemplate, key: string): Option<Json> {
    if key == "TemplateId" then Some(Number(t.TemplateId as real))
    else if key == "Name" then Some(String(t.Name))
    else if key == "Alias" then Some(NullableJson(t.Alias))
    else if key == "Subject" then StringJson(t.Subject)
    else if key == "HtmlBody" then StringJson(t.HtmlBody)
    else if key == "TextBody" then StringJson(t.TextBody)
    else if key == "TemplateType" then Some(String(TemplateTypeName(t.TemplateType)))
    else if key == "LayoutTemplate" then Some(NullableJson(t.LayoutTemplate))
    else if key == "Active" then Some(Bool(t.Active))
    else None
  }

  /** The JSON object of a stored template. */
  function TemplateToJson(t: EmailTemplate): JsonObject {
    map key | key in TEMPLATE_KEYS && TemplateFieldJson(t, key).Some? :: TemplateFieldJson(t, key).value
  }

  // ------------------------------------------------------------------ schema lemmas

  lemma AttachmentRoundTrip(a: Attachment, path: seq<PathSegment>)
    ensures ParseAttachment(AttachmentJson(a), path) == Ok(a)
  {
  }

  lemma AttachmentsRoundTrip(attachments: seq<Attachment>, path: seq<PathSegment>)
    ensures ArrayOf(AttachmentsJson(attachments), path, 0, ParseAttachment) == Ok(attachments)
  {
    var items := AttachmentsJson(attachments);
    forall i | 0 <= i < |items|
      ensures ParseAttachment(items[i], path + [Index(0 + i)]) == Ok(attachments[i])
    {
      AttachmentRoundTrip(attachments[i], path + [Index(0 + i)]);
    }
    var r := ArrayOf(items, path, 0, ParseAttachment);
    assert r.Ok?;
    assert r.value == attachments;
  }

  // The email round trip is split by field groups so that each proof stays small.

  /** Field `key` of a stored email's JSON is present exactly when the email has it, with its value. */
  lemma EmailJsonAt(e: PostmarkEmail, key: string)
    requires key in EMAIL_KEYS
    ensures key in EmailToJson(e) <==> EmailFieldJson(e, key).Some?
    ensures key in EmailToJson(e) ==> EmailToJson(e)[key] == EmailFieldJson(e, key).value
  {
  }

  lemma EmailAddressFieldsRoundTrip(e: PostmarkEmail)
    ensures var obj := EmailToJson(e);
      && StringField(obj, [], "MessageID", None) == Ok(e.MessageID)
      && StringField(obj, [], "From", None) == Ok(e.From)
      && StringField(obj, [], "To", None) == Ok(e.To)
      && OptionalString(obj, [], "Cc") == Ok(e.Cc)
      && OptionalString(obj, [], "Bcc") == Ok(e.Bcc)
  {
    var obj := EmailToJson(e);
    assert StringField(obj, [], "MessageID", None) == Ok(e.MessageID);
    assert StringField(obj, [], "From", None) == Ok(e.From);
    assert StringField(obj, [], "To", None) == Ok(e.To);
    assert OptionalString(obj, [], "Cc") == Ok(e.Cc);
  }

  lemma EmailContentFieldsRoundTrip(e: PostmarkEmail)
    ensures var obj := EmailToJson(e);
      && OptionalString(obj, [], "Subject") == Ok(e.Subject)
      && OptionalString(obj, [], "Tag") == Ok(e.Tag)
      && OptionalString(obj, [], "HtmlBody") == Ok(e.HtmlBody)
      && OptionalString(obj, [], "TextBody") == Ok(e.TextBody)
      && OptionalString(obj, [], "ReplyTo") == Ok(e.ReplyTo)
  {
    EmailJsonAt(e, "Subject");
    EmailJsonAt(e, "Tag");
    EmailJsonAt(e, "HtmlBody");
    EmailJsonAt(e, "TextBody");
    EmailJsonAt(e, "ReplyTo");
    var obj := EmailToJson(e);
    assert EmailFieldJson(e, "Subject") == StringJson(e.Subject);
    assert EmailFieldJson(e, "Tag") == StringJson(e.Tag);
    assert EmailFieldJson(e, "HtmlBody") == StringJson(e.HtmlBody);
    assert EmailFieldJson(e, "TextBody") == StringJson(e.TextBody);
    assert EmailFieldJson(e, "ReplyTo") == StringJson(e.ReplyTo);
  }

  lemma EmailRecordFieldsRoundTrip(e: PostmarkEmail)
    ensures var obj := EmailToJson(e);
      && OptionalStringRecord(obj, [], "Headers") == Ok(e.Headers)
      && OptionalStringRecord(obj, [], "Metadata") == Ok(e.Metadata)
  {
    var obj := EmailToJson(e);
    if e.Headers.Some? {
      StringMapRoundTrip(e.Headers.value, [Key("Headers")]);
    }
    assert OptionalStringRecord(obj, [], "Headers") == Ok(e.Headers);
    if e.Metadata.Some? {
      StringMapRoundTrip(e.Metadata.value, [Key("Metadata")]);
    }
  }

  lemma EmailTrackingFieldsRoundTrip(e: PostmarkEmail)
    ensures var obj := EmailToJson(e);
      && OptionalBool(obj, [], "TrackOpens") == Ok(e.TrackOpens)
      && OptionalString(obj, [], "TrackLinks") == Ok(e.TrackLinks)
      && OptionalAttachments(obj, [], "Attachments") == Ok(e.Attachments)
      && OptionalString(obj, [], "MessageStream") == Ok(e.MessageStream)
  {
    EmailJsonAt(e, "TrackOpens");
    EmailJsonAt(e, "TrackLinks");
    EmailJsonAt(e, "Attachments");
    EmailJsonAt(e, "MessageStream");
    var obj := EmailToJson(e);
    assert EmailFieldJson(e, "TrackOpens") == if e.TrackOpens.Some? then Some(Bool(e.TrackOpens.value)) else None;
    assert EmailFieldJson(e, "TrackLinks") == StringJson(e.TrackLinks);
    assert EmailFieldJson(e, "Attachments") == if e.Attachments.Some? then Some(Array(AttachmentsJson(e.Attachments.value))) else None;
    assert EmailFieldJson(e, "MessageStream") == StringJson(e.MessageStream);
    if e.Attachments.Some? {
      AttachmentsRoundTrip(e.Attachments.value, [] + [Key("Attachments")]);
    }
    assert OptionalAttachments(obj, [], "Attachments") == Ok(e.Attachments);
  }

  lemma EmailStatusFieldsRoundTrip(e: PostmarkEmail)
    ensures var obj := EmailToJson(e);
      && StringField(obj, [], "SubmittedAt", None) == Ok(e.SubmittedAt)
      && NumberOrDefault(obj, [], "ErrorCode", DEFAULT_ERROR_CODE) == Ok(e.ErrorCode)
      && StringOrDefault(obj, [], "StatusMessage", DEFAULT_STATUS_MESSAGE) == Ok(e.StatusMessage)
  {
    var obj := EmailToJson(e);
    assert StringField(obj, [], "SubmittedAt", None) == Ok(e.SubmittedAt);
    assert NumberOrDefault(obj, [], "ErrorCode", DEFAULT_ERROR_CODE) == Ok(e.ErrorCode);
  }

  lemma EmailTemplateFieldsRoundTrip(e: PostmarkEmail)
    ensures var obj := EmailToJson(e);
      && OptionalInteger(obj, [], "TemplateId") == Ok(e.TemplateId)
      && OptionalString(obj, [], "TemplateAlias") == Ok(e.TemplateAlias)
      && OptionalAnyRecord(obj, [], "TemplateModel") == Ok(e.TemplateModel)
  {
    EmailJsonAt(e, "TemplateId");
    EmailJsonAt(e, "TemplateAlias");
    EmailJsonAt(e, "TemplateModel");
    var obj := EmailToJson(e);
    assert EmailFieldJson(e, "TemplateId") == if e.TemplateId.Some? then Some(Number(e.TemplateId.value as real)) else None;
    assert EmailFieldJson(e, "TemplateAlias") == StringJson(e.TemplateAlias);
    assert EmailFieldJson(e, "TemplateModel") == if e.TemplateModel.Some? then Some(Object(e.TemplateModel.value)) else None;
    assert OptionalInteger(obj, [], "TemplateId") == Ok(e.TemplateId);
  }

  /** Every stored email satisfies `postmarkEmailSchema` and reads back as itself. */
  lemma EmailSchemaRoundTrip(e: PostmarkEmail)
    ensures ParsePostmarkEmail(EmailToJson(e)) == Ok(e)
  {
    EmailAddressFieldsRoundTrip(e);
    EmailContentFieldsRoundTrip(e);
    EmailRecordFieldsRoundTrip(e);
    EmailTrackingFieldsRoundTrip(e);
    EmailStatusFieldsRoundTrip(e);
    EmailTemplateFieldsRoundTrip(e);
  }

  /** Every template record satisfies `emailTemplateSchema` and reads back as itself. */
  lemma TemplateSchemaRoundTrip(t: EmailTemplate)
    ensures ParseEmailTemplate(TemplateToJson(t)) == Ok(t)
  {
    var obj := TemplateToJson(t);
    assert IntegerField(obj, [], "TemplateId") == Ok(t.TemplateId);
    assert StringField(obj, [], "Name", None) == Ok(t.Name);
    assert NullableString(obj, [], "Alias") == Ok(t.Alias);
    assert OptionalString(obj, [], "Subject") == Ok(t.Subject);
    assert OptionalString(obj, [], "HtmlBody") == Ok(t.HtmlBody);
    assert OptionalString(obj, [], "TextBody") == Ok(t.TextBody);
    assert EnumField(obj, [], "TemplateType", TEMPLATE_TYPE_OPTIONS) == Ok(TemplateTypeName(t.TemplateType));
    assert NullableString(obj, [], "LayoutTemplate") == Ok(t.LayoutTemplate);
    assert BoolField(obj, [], "Active") == Ok(t.Active);
  }
}
