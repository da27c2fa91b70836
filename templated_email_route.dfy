/**
 * POST /email/withTemplate (routes/email/withTemplate.ts): the body is the send envelope, an
 * `InlineCss` flag, a template model, and a template reference given by an integer id, a string
 * alias, or both. The route converts the Headers list like POST /email, forwards the id and the
 * alias only when they are defined, drops `InlineCss`, and lets the store generate the content.
 */
module TemplatedEmailRoute {
  import opened Common
  import opened Validation
  import opened Schema
  import opened TemplateContent
  import opened Db
  import opened EmailRoute

  /** `InlineCss: z.boolean().optional().default(true)` */
  const DEFAULT_INLINE_CSS: bool := true

  datatype TemplateReference = TemplateReference(TemplateId: Option<int>, TemplateAlias: Option<string>)

  /**
   * The body's TemplateId is a number but not an integer, and TemplateAlias is absent or a
   * string: the first union branch then fails on `.int()` alone, a failure zod records as
   * "dirty" rather than fatal.
   */
  predicate FractionalIdOnly(body: JsonObject) {
    && "TemplateId" in body && body["TemplateId"].Number? && !IsInteger(body["TemplateId"].n)
    && ("TemplateAlias" !in body || body["TemplateAlias"].String?)
  }

  /** The issue `.int()` records for a fractional TemplateId. */
  function FractionalIdIssue(): Issue {
    Issue([Key("TemplateId")], InvalidType("integer", "float"), None)
  }

  /**
   * The union of `{ TemplateId: int, TemplateAlias?: string }` and
   * `{ TemplateId?: int, TemplateAlias: string }`. zod returns the first branch that fits; failing
   * that, the issues of the first branch that failed only on refinements; failing that, one
   * `invalid_union` issue.
   */
  function ParseTemplateReference(body: JsonObject): (r: Result<TemplateReference>)
    ensures r.Ok? <==>
      || (IntegerAt(body, "TemplateId").Some? && ("TemplateAlias" !in body || StringAt(body, "TemplateAlias").Some?))
      || (("TemplateId" !in body || IntegerAt(body, "TemplateId").Some?) && StringAt(body, "TemplateAlias").Some?)
    ensures r.Ok? ==> r.value == TemplateReference(IntegerAt(body, "TemplateId"), StringAt(body, "TemplateAlias"))
    ensures r.Err? && FractionalIdOnly(body) ==> r.issues == {FractionalIdIssue()}
    ensures r.Err? && !FractionalIdOnly(body) ==> r.issues == {Issue([], InvalidUnion, None)}
  {
    var id := IntegerField(body, [], "TemplateId");
    var optionalAlias := OptionalString(body, [], "TemplateAlias");
    var optionalId := OptionalInteger(body, [], "TemplateId");
    var alias := StringField(body, [], "TemplateAlias", None);
    if id.Ok? && optionalAlias.Ok? then Ok(TemplateReference(Some(id.value), optionalAlias.value))
    else if optionalId.Ok? && alias.Ok? then Ok(TemplateReference(optionalId.value, Some(alias.value)))
    // the first branch is dirty: only `.int()` failed (the second branch, when dirty, is so for
    // the same reason and comes later)
    else if "TemplateId" in body && body["TemplateId"].Number? && optionalAlias.Ok? then
      assert [] + [Key("TemplateId")] == [Key("TemplateId")];
      Err(id.issues)
    else Err({Issue([], InvalidUnion, None)})
  }

  /** A fractional TemplateId is refused with the `.int()` issue, not with `invalid_union`. */
  lemma FractionalIdReported(body: JsonObject)
    requires FractionalIdOnly(body)
    ensures ParseTemplateReference(body) == Err({FractionalIdIssue()})
  {
  }

  /**
   * The reference is accepted exactly when at least one of id and alias is given and each one
   * given has its type: an integer id, a string alias.
   */
  lemma ReferenceAcceptedIff(body: JsonObject)
    ensures ParseTemplateReference(body).Ok? <==>
      && ("TemplateId" in body || "TemplateAlias" in body)
      && ("TemplateId" !in body || IntegerAt(body, "TemplateId").Some?)
      && ("TemplateAlias" !in body || StringAt(body, "TemplateAlias").Some?)
  {
  }

  /** `sendEmailWithTemplateRequestBodySchema`, parsed. */
  datatype SendWithTemplateRequest = SendWithTemplateRequest(
    envelope: Envelope,
    InlineCss: bool,
    TemplateModel: JsonObject,
    reference: TemplateReference)

  /**
   * `emailBaseSchema.and(union)`: both sides are checked, and a refused body reports the issues
   * of both.
   */
  function ParseSendWithTemplate(body: JsonObject, isEmail: string -> bool): (r: Result<SendWithTemplateRequest>)
    ensures r.Ok? <==> && ParseEnvelope(body, isEmail).Ok?
                       && ("InlineCss" !in body || body["InlineCss"].Bool?)
                       && "TemplateModel" in body && body["TemplateModel"].Object?
                       && ParseTemplateReference(body).Ok?
    ensures r.Ok? ==> r.value.envelope == ParseEnvelope(body, isEmail).value
    ensures r.Ok? ==> r.value.InlineCss == if "InlineCss" in body then body["InlineCss"].b else DEFAULT_INLINE_CSS
    ensures r.Ok? ==> r.value.TemplateModel == body["TemplateModel"].fields
    ensures r.Ok? ==> r.value.reference == ParseTemplateReference(body).value
    ensures r.Err? ==> IssuesOf(ParseEnvelope(body, isEmail)) + IssuesOf(ParseTemplateReference(body)) <= r.issues
    ensures Reported(r)
  {
    var envelope := ParseEnvelope(body, isEmail);
    var inlineCss := OptionalBool(body, [], "InlineCss");
    var model := AnyRecord(body, [], "TemplateModel");
    var reference := ParseTemplateReference(body);
    if envelope.Ok? && inlineCss.Ok? && model.Ok? && reference.Ok? then
      Ok(SendWithTemplateRequest(envelope.value, inlineCss.value.GetOr(DEFAULT_INLINE_CSS), model.value, reference.value))
    else
      Err(IssuesOf(envelope) + IssuesOf(inlineCss) + IssuesOf(model) + IssuesOf(reference))
  }

  /** The `dbInput` the route builds: the envelope, the model, and the id and alias when defined. */
  function ToStoreInput(req: SendWithTemplateRequest): InputForTemplatedEmail {
    var env := req.envelope;
    InputForTemplatedEmail(
      From := env.From,
      To := env.To,
      Cc := env.Cc,
      Bcc := env.Bcc,
      Tag := env.Tag,
      ReplyTo := env.ReplyTo,
      Headers := ConvertHeaders(env.Headers),
      TrackOpens := env.TrackOpens,
      TrackLinks := env.TrackLinks,
      Metadata := env.Metadata,
      Attachments := env.Attachments,
      MessageStream := env.MessageStream,
      TemplateModel := req.TemplateModel,
      // the conditional spreads add each key only when its value is defined, as an Option does
      TemplateId := req.reference.TemplateId,
      TemplateAlias := req.reference.TemplateAlias)
  }

  /** `InlineCss` is parsed but never reaches the store. */
  lemma InlineCssNotForwarded(req: SendWithTemplateRequest, inlineCss: bool)
    ensures ToStoreInput(req.(InlineCss := inlineCss)) == ToStoreInput(req)
  {
  }

  /**
   * What an accepted body hands to the store: a template reference (so the store's input
   * contract holds), the id and the alias exactly as the body has them (both when both are
   * given), the model verbatim, the parsed Headers list as its record, and every other envelope
   * field as parsed.
   */
  lemma AcceptedBodyReachesStore(body: JsonObject, isEmail: string -> bool)
    requires ParseSendWithTemplate(body, isEmail).Ok?
    ensures var input := ToStoreInput(ParseSendWithTemplate(body, isEmail).value);
      && HasTemplateReference(input)
      && input.TemplateId == IntegerAt(body, "TemplateId")
      && input.TemplateAlias == StringAt(body, "TemplateAlias")
      && input.TemplateModel == body["TemplateModel"].fields
      && StringAt(body, "From") == Some(input.From) && StringAt(body, "To") == Some(input.To)
      && input.Cc == StringAt(body, "Cc") && input.Bcc == StringAt(body, "Bcc")
      && input.Tag == StringAt(body, "Tag") && input.ReplyTo == StringAt(body, "ReplyTo")
      && input.MessageStream == StringAt(body, "MessageStream")
      && TrackLinksText(input.TrackLinks) == StringAt(body, "TrackLinks")
      && (input.Headers.Some? <==> "Headers" in body)
      && input.Headers == ConvertHeaders(OptionalArray(body, [], "Headers", ParseHeader).value)
      && input.TrackOpens == (if "TrackOpens" in body then Some(body["TrackOpens"].b) else None)
      && input.Metadata == OptionalStringRecord(body, [], "Metadata").value
      && input.Attachments == OptionalAttachments(body, [], "Attachments").value
  {
  }

  /**
   * The route handler: a refused body leaves the store untouched and is answered with its
   * issues; an accepted one is stored once with generated content and answered with error
   * code 0 and message "OK".
   */
  method SendEmailWithTemplate(db: Store, body: JsonObject, isEmail: string -> bool, stringify: Json -> string,
                               messageId: string, submittedAt: string)
    returns (r: Result<SendEmailResponse>)
    requires db.Valid() && MessageIdUnused(db.postmarkEmails, messageId)
    modifies db
    ensures db.Valid()
    ensures r.Ok? <==> ParseSendWithTemplate(body, isEmail).Ok?
    ensures r.Err? ==> r.issues == ParseSendWithTemplate(body, isEmail).issues && db.postmarkEmails == old(db.postmarkEmails)
    ensures r.Ok? ==>
      var input := ToStoreInput(ParseSendWithTemplate(body, isEmail).value);
      var stored := Stamp(TemplatedEmail(input, stringify(Object(input.TemplateModel))), messageId, submittedAt);
      && db.postmarkEmails == old(db.postmarkEmails) + [stored]
      && r.value == SendEmailResponse(input.To, submittedAt, messageId, 0.0, "OK")
    ensures db.idCounter == old(db.idCounter) && db.templateIdCounter == old(db.templateIdCounter)
    ensures db.things == old(db.things) && db.emailTemplates == old(db.emailTemplates)
  {
    var parsed := ParseSendWithTemplate(body, isEmail);
    if parsed.Err? {
      return Err(parsed.issues);
    }
    var input := ToStoreInput(parsed.value);
    AcceptedBodyReachesStore(body, isEmail);
    var stored := db.AddTemplatedPostmarkEmail(input, stringify, messageId, submittedAt);
    r := Ok(Respond(stored));
  }

  /**
   * End to end: the Subject stored for an accepted body reads back as the body's template id and
   * alias ("N/A" for an absent alias), and the HTML body shows the serialised model.
   */
  lemma StoredSubjectNamesTemplate(body: JsonObject, isEmail: string -> bool, stringify: Json -> string,
                                   messageId: string, submittedAt: string)
    requires ParseSendWithTemplate(body, isEmail).Ok?
    ensures var input := ToStoreInput(ParseSendWithTemplate(body, isEmail).value);
      var modelText := stringify(Object(body["TemplateModel"].fields));
      var stored := Stamp(TemplatedEmail(input, modelText), messageId, submittedAt);
      && stored.Subject.Some?
      && DecodeSubject(stored.Subject.value) == Some((IntegerAt(body, "TemplateId"), AliasText(StringAt(body, "TemplateAlias"))))
      && stored.HtmlBody.Some? && Contains(stored.HtmlBody.value, modelText)
  {
    var input := ToStoreInput(ParseSendWithTemplate(body, isEmail).value);
    AcceptedBodyReachesStore(body, isEmail);
    TemplatedEmailContent(input, stringify(Object(body["TemplateModel"].fields)));
  }
}
