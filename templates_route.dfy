/**
 * POST /templates (routes/templates.ts): template creation. The body schema is a union
 * discriminated by `TemplateType`: a Standard template must carry a string Subject and a Layout
 * template must not carry one. Only a body that passes the union is then refined: HtmlBody or
 * TextBody must be a non-empty string. The route hands the store the Subject of a Standard
 * template only, and answers with the stored template, showing its Subject only when non-empty.
 */
module TemplatesRoute {
  import opened Common
  import opened Validation
  import opened Schema
  import opened Db

  const NAME_REQUIRED: string := "Name is required."
  const SUBJECT_REQUIRED: string := "Subject is required for Standard templates."
  const SUBJECT_NOT_ALLOWED: string := "Subject is not allowed for Layout templates."
  const BODY_REQUIRED: string := "Either HtmlBody or TextBody must be provided."

  /** The parsed body: the base fields, the template type and, for Standard, the Subject. */
  datatype CreateTemplateRequest = CreateTemplateRequest(
    Name: string,
    Alias: Option<string>,
    HtmlBody: Option<string>,
    TextBody: Option<string>,
    LayoutTemplate: Option<string>,
    TemplateType: TemplateType,
    Subject: Option<string>)

  /** JavaScript truthiness of an optional string: present and not empty. */
  predicate Truthy(s: Option<string>) {
    s.Some? && s.value != ""
  }

  /** The union branch the raw `TemplateType` value selects, if any. */
  function Discriminator(body: JsonObject): (t: Option<TemplateType>)
    ensures t.Some? <==> StringAt(body, "TemplateType").Some? && StringAt(body, "TemplateType").value in TEMPLATE_TYPE_OPTIONS
    ensures t.Some? ==> StringAt(body, "TemplateType") == Some(TemplateTypeName(t.value))
  {
    match StringAt(body, "TemplateType")
    case Some("Standard") => Some(Standard)
    case Some("Layout") => Some(Layout)
    case _ => None
  }

  function DiscriminatorIssue(): Issue {
    Issue([Key("TemplateType")], InvalidUnionDiscriminator(TEMPLATE_TYPE_OPTIONS), None)
  }

  /** The issue a Layout body with a Subject gets: Subject must be undefined. */
  function SubjectNotAllowedIssue(subject: Json): Issue {
    Issue([Key("Subject")], InvalidType("undefined", TypeName(subject)), Some(SUBJECT_NOT_ALLOWED))
  }

  function BodyIssue(): Issue {
    Issue([Key("HtmlBody")], Custom, Some(BODY_REQUIRED))
  }

  /** The Subject field of the selected branch. */
  function ParseSubject(body: JsonObject, t: TemplateType): (r: Result<Option<string>>)
    ensures t == Standard ==> (r.Ok? <==> StringAt(body, "Subject").Some?)
    ensures t == Layout ==> (r.Ok? <==> "Subject" !in body)
    ensures r.Ok? ==> r.value == StringAt(body, "Subject")
    ensures t == Standard && "Subject" !in body ==> r == Err({MissingIssue([], "Subject", "string", Some(SUBJECT_REQUIRED))})
    ensures t == Layout && "Subject" in body ==> r == Err({SubjectNotAllowedIssue(body["Subject"])})
    ensures Reported(r)
  {
    match t
    case Standard =>
      var subject := StringField(body, [], "Subject", Some(SUBJECT_REQUIRED));
      if subject.Ok? then Ok(Some(subject.value)) else Err(subject.issues)
    case Layout =>
      if "Subject" in body then Err({SubjectNotAllowedIssue(body["Subject"])}) else Ok(None)
  }

  /** The object schema of the selected branch, with every field's issues collected. */
  function ParseBranch(body: JsonObject, t: TemplateType): (r: Result<CreateTemplateRequest>)
    ensures r.Ok? <==> && StringAt(body, "Name").Some?
                       && ("Alias" !in body || body["Alias"].String?)
                       && ("HtmlBody" !in body || body["HtmlBody"].String?)
                       && ("TextBody" !in body || body["TextBody"].String?)
                       && ("LayoutTemplate" !in body || body["LayoutTemplate"].String?)
                       && ParseSubject(body, t).Ok?
    ensures r.Ok? ==> r.value == CreateTemplateRequest(StringAt(body, "Name").value, StringAt(body, "Alias"),
      StringAt(body, "HtmlBody"), StringAt(body, "TextBody"), StringAt(body, "LayoutTemplate"), t,
      StringAt(body, "Subject"))
    ensures "Name" !in body ==> r.Err? && MissingIssue([], "Name", "string", Some(NAME_REQUIRED)) in r.issues
    ensures ParseSubject(body, t).Err? ==> r.Err? && ParseSubject(body, t).issues <= r.issues
    ensures Reported(r)
  {
    var name := StringField(body, [], "Name", Some(NAME_REQUIRED));
    var alias := OptionalString(body, [], "Alias");
    var htmlBody := OptionalString(body, [], "HtmlBody");
    var textBody := OptionalString(body, [], "TextBody");
    var layout := OptionalString(body, [], "LayoutTemplate");
    var subject := ParseSubject(body, t);
    if name.Ok? && alias.Ok? && htmlBody.Ok? && textBody.Ok? && layout.Ok? && subject.Ok? then
      Ok(CreateTemplateRequest(name.value, alias.value, htmlBody.value, textBody.value, layout.value, t, subject.value))
    else
      Err(IssuesOf(name) + IssuesOf(alias) + IssuesOf(htmlBody) + IssuesOf(textBody) + IssuesOf(layout)
        + IssuesOf(subject))
  }

  /**
   * `createTemplateBodySchema`: the discriminator picks a branch, the branch's object schema is
   * applied, and only a body that passes it is refined by the body rule.
   */
  function ParseCreateTemplate(body: JsonObject): (r: Result<CreateTemplateRequest>)
    ensures r.Ok? ==> Discriminator(body) == Some(r.value.TemplateType)
    ensures r.Ok? ==> r == ParseBranch(body, r.value.TemplateType)
    ensures Discriminator(body).Some? && ParseBranch(body, Discriminator(body).value).Err? ==>
      r == ParseBranch(body, Discriminator(body).value)
    ensures r.Ok? ==> (r.value.Subject.Some? <==> r.value.TemplateType == Standard)
    ensures r.Ok? ==> Truthy(r.value.HtmlBody) || Truthy(r.value.TextBody)
    ensures Discriminator(body).None? ==> r == Err({DiscriminatorIssue()})
    ensures Reported(r)
  {
    match Discriminator(body)
    case None => Err({DiscriminatorIssue()})
    case Some(t) =>
      var branch := ParseBranch(body, t);
      if branch.Err? then branch
      else if Truthy(branch.value.HtmlBody) || Truthy(branch.value.TextBody) then branch
      else Err({BodyIssue()})
  }

  // ------------------------------------------------------------------ the rules

  /** A Standard body without a Subject is refused with "Subject is required for Standard templates.". */
  lemma StandardNeedsSubject(body: JsonObject)
    requires Discriminator(body) == Some(Standard) && "Subject" !in body
    ensures ParseCreateTemplate(body).Err?
    ensures MissingIssue([], "Subject", "string", Some(SUBJECT_REQUIRED)) in ParseCreateTemplate(body).issues
  {
  }

  /** A Layout body with any Subject, even null or "", is refused with "Subject is not allowed for Layout templates.". */
  lemma LayoutForbidsSubject(body: JsonObject)
    requires Discriminator(body) == Some(Layout) && "Subject" in body
    ensures ParseCreateTemplate(body).Err?
    ensures SubjectNotAllowedIssue(body["Subject"]) in ParseCreateTemplate(body).issues
  {
  }

  /** With a valid discriminator, a body without a Name is refused with "Name is required.". */
  lemma NameRequired(body: JsonObject)
    requires Discriminator(body).Some? && "Name" !in body
    ensures ParseCreateTemplate(body).Err?
    ensures MissingIssue([], "Name", "string", Some(NAME_REQUIRED)) in ParseCreateTemplate(body).issues
  {
  }

  /**
   * Once the union passes, the body is accepted exactly when HtmlBody or TextBody is a non-empty
   * string; empty strings count as missing, and the refusal carries only the body issue.
   */
  lemma BodyRule(body: JsonObject)
    requires Discriminator(body).Some? && ParseBranch(body, Discriminator(body).value).Ok?
    ensures ParseCreateTemplate(body).Ok? <==> Truthy(StringAt(body, "HtmlBody")) || Truthy(StringAt(body, "TextBody"))
    ensures ParseCreateTemplate(body).Err? ==> ParseCreateTemplate(body).issues == {BodyIssue()}
  {
  }

  /** The body rule is not checked when the union fails: its issue never joins the union's issues. */
  lemma BodyRuleOnlyAfterUnion(body: JsonObject)
    requires Discriminator(body).None? || ParseBranch(body, Discriminator(body).value).Err?
    ensures ParseCreateTemplate(body).Err?
    ensures BodyIssue() !in ParseCreateTemplate(body).issues
  {
    if Discriminator(body).Some? {
      var t := Discriminator(body).value;
      var name := StringField(body, [], "Name", Some(NAME_REQUIRED));
      var alias := OptionalString(body, [], "Alias");
      var htmlBody := OptionalString(body, [], "HtmlBody");
      var textBody := OptionalString(body, [], "TextBody");
      var layout := OptionalString(body, [], "LayoutTemplate");
      var subject := ParseSubject(body, t);
      assert BodyIssue() !in IssuesOf(name) + IssuesOf(alias) + IssuesOf(htmlBody) + IssuesOf(textBody)
        + IssuesOf(layout) + IssuesOf(subject);
    }
  }

  // ------------------------------------------------------------------ store input and response

  /** The route's `dbInput`: Subject only for a Standard template. */
  function ToStoreInput(req: CreateTemplateRequest): (input: NewEmailTemplate)
    ensures input.Subject.Some? ==> input.TemplateType == Standard
    ensures input.TemplateType == Standard ==> input.Subject == req.Subject
  {
    NewEmailTemplate(
      Name := req.Name,
      Alias := req.Alias,
      Subject := if req.TemplateType == Standard then req.Subject else None,
      HtmlBody := req.HtmlBody,
      TextBody := req.TextBody,
      TemplateType := req.TemplateType,
      LayoutTemplate := req.LayoutTemplate)
  }

  /**
   * An accepted body gives the store a template that keeps the Standard/Layout rule (a Subject
   * exactly for Standard) and has a non-empty body, with every field as the body has it.
   */
  lemma AcceptedTemplateKeepsRules(body: JsonObject)
    requires ParseCreateTemplate(body).Ok?
    ensures var input := ToStoreInput(ParseCreateTemplate(body).value);
      && (input.Subject.Some? <==> input.TemplateType == Standard)
      && (Truthy(input.HtmlBody) || Truthy(input.TextBody))
      && Some(input.TemplateType) == Discriminator(body)
      && Some(input.Name) == StringAt(body, "Name")
      && input.Alias == StringAt(body, "Alias") && input.LayoutTemplate == StringAt(body, "LayoutTemplate")
      && input.HtmlBody == StringAt(body, "HtmlBody") && input.TextBody == StringAt(body, "TextBody")
      && input.Subject == StringAt(body, "Subject")
  {
  }

  /** `createTemplateResponseSchema`, as the route fills it in. */
  datatype TemplateResponse = TemplateResponse(
    TemplateId: int,
    Name: string,
    Active: bool,
    Alias: Nullable<string>,
    TemplateType: TemplateType,
    LayoutTemplate: Nullable<string>,
    Subject: Option<string>)

  /** The response copies the stored template and shows its Subject only when it is non-empty. */
  function Respond(t: EmailTemplate): (r: TemplateResponse)
    ensures r.Subject.Some? <==> Truthy(t.Subject)
    ensures r.Subject.Some? ==> r.Subject == t.Subject
    ensures r.TemplateId == t.TemplateId && r.Name == t.Name && r.Active == t.Active
    ensures r.Alias == t.Alias && r.TemplateType == t.TemplateType && r.LayoutTemplate == t.LayoutTemplate
  {
    TemplateResponse(t.TemplateId, t.Name, t.Active, t.Alias, t.TemplateType, t.LayoutTemplate,
      if Truthy(t.Subject) then t.Subject else None)
  }

  /**
   * The route handler: a refused body leaves the store untouched and is answered with its
   * issues; an accepted one is stored once as an active template under the next template id,
   * and the answer reports it.
   */
  method CreateTemplate(db: Store, body: JsonObject) returns (r: Result<TemplateResponse>)
    requires db.Valid()
    modifies db
    ensures db.Valid()
    ensures r.Ok? <==> ParseCreateTemplate(body).Ok?
    ensures r.Err? ==> r.issues == ParseCreateTemplate(body).issues
    ensures r.Err? ==> db.emailTemplates == old(db.emailTemplates) && db.templateIdCounter == old(db.templateIdCounter)
    ensures r.Ok? ==>
      var stored := StoredTemplate(old(db.templateIdCounter), ToStoreInput(ParseCreateTemplate(body).value));
      && db.emailTemplates == old(db.emailTemplates) + [stored]
      && db.templateIdCounter == old(db.templateIdCounter) + 1
      && r.value == Respond(stored)
    ensures r.Ok? ==> r.value.Active && r.value.TemplateId == old(db.templateIdCounter) >= INITIAL_TEMPLATE_ID_COUNTER
    ensures r.Ok? ==> (r.value.Subject.Some? ==> r.value.TemplateType == Standard)
    ensures db.idCounter == old(db.idCounter) && db.things == old(db.things) && db.postmarkEmails == old(db.postmarkEmails)
  {
    var parsed := ParseCreateTemplate(body);
    if parsed.Err? {
      return Err(parsed.issues);
    }
    var stored := db.AddEmailTemplate(ToStoreInput(parsed.value));
    r := Ok(Respond(stored));
  }
}
