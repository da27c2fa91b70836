/**
 * The in-memory database of lib/db/db-client.ts: two counters and three append-only lists,
 * updated in place by the store's methods. The random message id and the clock reading of an
 * email are handed in by the caller, and so is the JSON serialiser of a template model.
 *
 * `Store.Valid` is the invariant every method keeps: Thing ids are the decimal texts of
 * 0, 1, 2, ... in order, template ids are 1, 2, 3, ... in order, every stored email carries
 * error code 0 and status "OK", and no two stored emails share a message id.
 */
module Db {
  import opened Common
  import opened Decimal
  import opened Validation
  import opened Schema
  import opened TemplateContent

  /**
   * `InputForTemplatedEmail`: the envelope of a templated send, its model, and a template id,
   * a template alias, or both.
   */
  datatype InputForTemplatedEmail = InputForTemplatedEmail(
    From: string,
    To: string,
    Cc: Option<string>,
    Bcc: Option<string>,
    Tag: Option<string>,
    ReplyTo: Option<string>,
    Headers: Option<map<string, string>>,
    TrackOpens: Option<bool>,
    TrackLinks: Option<LinkTracking>,
    Metadata: Option<map<string, string>>,
    Attachments: Option<seq<Attachment>>,
    MessageStream: Option<string>,
    TemplateModel: JsonObject,
    TemplateId: Option<int>,
    TemplateAlias: Option<string>)

  /** The input type's union: a template id or a template alias is present. */
  predicate HasTemplateReference(input: InputForTemplatedEmail) {
    input.TemplateId.Some? || input.TemplateAlias.Some?
  }

  function TrackLinksText(t: Option<LinkTracking>): (s: Option<string>)
    ensures s.Some? <==> t.Some?
    ensures s.Some? ==> LinkTrackingOf(s.value) == t
  {
    match t
    case None => None
    case Some(v) =>
      LinkTrackingRoundTrip(v);
      Some(LinkTrackingName(v))
  }

  /**
   * The email of a templated send before the store stamps it: the envelope and the template
   * reference and model as given, with the fake Subject, HtmlBody and TextBody generated from
   * them. `modelText` is the JSON text of the model.
   */
  function TemplatedEmail(input: InputForTemplatedEmail, modelText: string): NewPostmarkEmail {
    NewPostmarkEmail(
      From := input.From,
      To := input.To,
      Cc := input.Cc,
      Bcc := input.Bcc,
      Subject := Some(TemplatedSubject(input.TemplateId, input.TemplateAlias)),
      Tag := input.Tag,
      HtmlBody := Some(TemplatedHtmlBody(input.TemplateId, input.TemplateAlias, modelText)),
      TextBody := Some(TemplatedTextBody(input.TemplateId, input.TemplateAlias, modelText)),
      ReplyTo := input.ReplyTo,
      Headers := input.Headers,
      TrackOpens := input.TrackOpens,
      TrackLinks := TrackLinksText(input.TrackLinks),
      Metadata := input.Metadata,
      Attachments := input.Attachments,
      MessageStream := input.MessageStream,
      TemplateId := input.TemplateId,
      TemplateAlias := input.TemplateAlias,
      TemplateModel := Some(input.TemplateModel))
  }

  /**
   * What the templated email says: the template id, alias and model are kept verbatim (both id
   * and alias when both are given), the Subject reads back as the id and the alias text, and
   * both bodies show the id, the alias and the model text.
   */
  lemma TemplatedEmailContent(input: InputForTemplatedEmail, modelText: string)
    ensures var e := TemplatedEmail(input, modelText);
      && e.TemplateId == input.TemplateId
      && e.TemplateAlias == input.TemplateAlias
      && e.TemplateModel == Some(input.TemplateModel)
      && e.Subject.Some? && DecodeSubject(e.Subject.value) == Some((input.TemplateId, AliasText(input.TemplateAlias)))
      && e.HtmlBody.Some? && Contains(e.HtmlBody.value, "Template ID: " + IdText(input.TemplateId))
      && Contains(e.HtmlBody.value, "Template Alias: " + AliasText(input.TemplateAlias))
      && Contains(e.HtmlBody.value, modelText)
      && e.TextBody.Some? && Contains(e.TextBody.value, "Template ID: " + IdText(input.TemplateId))
      && Contains(e.TextBody.value, "Template Alias: " + AliasText(input.TemplateAlias))
      && Contains(e.TextBody.value, modelText)
  {
    SubjectRoundTrip(input.TemplateId, input.TemplateAlias);
    HtmlBodyMentions(input.TemplateId, input.TemplateAlias, modelText);
    TextBodyMentions(input.TemplateId, input.TemplateAlias, modelText);
  }

  /** The envelope fields of a templated send reach the stored email unchanged. */
  lemma TemplatedEmailEnvelope(input: InputForTemplatedEmail, modelText: string)
    ensures var e := TemplatedEmail(input, modelText);
      && e.From == input.From && e.To == input.To && e.Cc == input.Cc && e.Bcc == input.Bcc
      && e.Tag == input.Tag && e.ReplyTo == input.ReplyTo && e.Headers == input.Headers
      && e.TrackOpens == input.TrackOpens && e.Metadata == input.Metadata
      && e.Attachments == input.Attachments && e.MessageStream == input.MessageStream
      && (e.TrackLinks.Some? <==> input.TrackLinks.Some?)
      && (e.TrackLinks.Some? ==> LinkTrackingOf(e.TrackLinks.value) == input.TrackLinks)
  {
  }

  /** `NewEmailTemplate`: what the template route hands to the store. */
  datatype NewEmailTemplate = NewEmailTemplate(
    Name: string,
    Alias: Option<string>,
    Subject: Option<string>,
    HtmlBody: Option<string>,
    TextBody: Option<string>,
    TemplateType: TemplateType,
    LayoutTemplate: Option<string>)

  /**
   * The record `addEmailTemplate` stores for `input` under template id `id`: active, with an
   * absent alias or layout turned into null.
   */
  function StoredTemplate(id: int, input: NewEmailTemplate): (t: EmailTemplate)
    ensures t.TemplateId == id && t.Active
    ensures t.Alias == OrNull(input.Alias) && t.LayoutTemplate == OrNull(input.LayoutTemplate)
    ensures t.Name == input.Name && t.TemplateType == input.TemplateType && t.Subject == input.Subject
    ensures t.HtmlBody == input.HtmlBody && t.TextBody == input.TextBody
  {
    EmailTemplate(id, input.Name, OrNull(input.Alias), input.Subject, input.HtmlBody,
      input.TextBody, input.TemplateType, OrNull(input.LayoutTemplate), true)
  }

  /** Thing number `i` has the decimal text of `i` as its id. */
  predicate ThingsNumbered(things: seq<Thing>) {
    forall i | 0 <= i < |things| :: things[i].thing_id == DecimalString(i)
  }

  /** Template number `i` has id `i + 1` and is active. */
  predicate TemplatesNumbered(templates: seq<EmailTemplate>) {
    forall i | 0 <= i < |templates| ::
      templates[i].TemplateId == INITIAL_TEMPLATE_ID_COUNTER + i && templates[i].Active
  }

  predicate MessageIdUnused(emails: seq<PostmarkEmail>, messageId: string) {
    forall i | 0 <= i < |emails| :: emails[i].MessageID != messageId
  }

  predicate MessageIdsDistinct(emails: seq<PostmarkEmail>) {
    forall i, j | 0 <= i < j < |emails| :: emails[i].MessageID != emails[j].MessageID
  }

  predicate AllAccepted(emails: seq<PostmarkEmail>) {
    forall i | 0 <= i < |emails| ::
      emails[i].ErrorCode == DEFAULT_ERROR_CODE && emails[i].StatusMessage == DEFAULT_STATUS_MESSAGE
  }

  /** Numbered Things have pairwise distinct ids. */
  lemma ThingIdsDistinct(things: seq<Thing>, i: int, j: int)
    requires ThingsNumbered(things)
    requires 0 <= i < |things| && 0 <= j < |things| && i != j
    ensures things[i].thing_id != things[j].thing_id
  {
    if things[i].thing_id == things[j].thing_id {
      DecimalStringInjective(i, j);
    }
  }

  /** Appending an email with an unused message id keeps the message ids distinct. */
  lemma {:induction false} AppendKeepsMessageIdsDistinct(emails: seq<PostmarkEmail>, e: PostmarkEmail)
    requires MessageIdsDistinct(emails) && MessageIdUnused(emails, e.MessageID)
    ensures MessageIdsDistinct(emails + [e])
  {
    var all := emails + [e];
    forall i, j | 0 <= i < j < |all|
      ensures all[i].MessageID != all[j].MessageID
    {
      if j == |emails| {
        assert all[i] == emails[i];
      } else {
        assert all[i] == emails[i] && all[j] == emails[j];
      }
    }
  }

  class Store {
    var idCounter: int
    var templateIdCounter: int
    var things: seq<Thing>
    var postmarkEmails: seq<PostmarkEmail>
    var emailTemplates: seq<EmailTemplate>

    ghost predicate Valid()
      reads this
    {
      && idCounter == INITIAL_ID_COUNTER + |things|
      && ThingsNumbered(things)
      && templateIdCounter == INITIAL_TEMPLATE_ID_COUNTER + |emailTemplates|
      && TemplatesNumbered(emailTemplates)
      && AllAccepted(postmarkEmails)
      && MessageIdsDistinct(postmarkEmails)
    }

    /** `databaseSchema.parse({})`: both counters at their defaults and every list empty. */
    constructor()
      ensures Valid()
      ensures idCounter == INITIAL_ID_COUNTER && templateIdCounter == INITIAL_TEMPLATE_ID_COUNTER
      ensures things == [] && postmarkEmails == [] && emailTemplates == []
    {
      idCounter := INITIAL_ID_COUNTER;
      templateIdCounter := INITIAL_TEMPLATE_ID_COUNTER;
      things := [];
      postmarkEmails := [];
      emailTemplates := [];
    }

    /** Appends the Thing tagged with the current counter's text, then bumps the counter. */
    method AddThing(thing: NewThing)
      requires Valid()
      modifies this
      ensures Valid()
      ensures things == old(things) + [Thing(DecimalString(old(idCounter)), thing.name, thing.description)]
      ensures idCounter == old(idCounter) + 1
      ensures templateIdCounter == old(templateIdCounter)
      ensures postmarkEmails == old(postmarkEmails) && emailTemplates == old(emailTemplates)
    {
      things := things + [Thing(DecimalString(idCounter), thing.name, thing.description)];
      idCounter := idCounter + 1;
    }

    /** Stamps the email with the given id and time, error code 0 and status "OK", and appends it. */
    method AddPostmarkEmail(emailData: NewPostmarkEmail, messageId: string, submittedAt: string)
      returns (e: PostmarkEmail)
      requires Valid() && MessageIdUnused(postmarkEmails, messageId)
      modifies this
      ensures Valid()
      ensures e == Stamp(emailData, messageId, submittedAt)
      ensures postmarkEmails == old(postmarkEmails) + [e]
      ensures idCounter == old(idCounter) && templateIdCounter == old(templateIdCounter)
      ensures things == old(things) && emailTemplates == old(emailTemplates)
    {
      e := Stamp(emailData, messageId, submittedAt);
      AppendKeepsMessageIdsDistinct(postmarkEmails, e);
      postmarkEmails := postmarkEmails + [e];
    }

    /** The stored emails, oldest first. */
    method GetPostmarkEmails() returns (emails: seq<PostmarkEmail>)
      requires Valid()
      ensures emails == postmarkEmails
      ensures AllAccepted(emails) && MessageIdsDistinct(emails)
    {
      emails := postmarkEmails;
    }

    /**
     * Generates the fake Subject, HtmlBody and TextBody from the template reference and the
     * serialised model, stamps the email like `AddPostmarkEmail` and appends it.
     */
    method AddTemplatedPostmarkEmail(emailData: InputForTemplatedEmail, stringify: Json -> string,
                                     messageId: string, submittedAt: string)
      returns (e: PostmarkEmail)
      requires Valid() && MessageIdUnused(postmarkEmails, messageId)
      requires HasTemplateReference(emailData)
      modifies this
      ensures Valid()
      ensures e == Stamp(TemplatedEmail(emailData, stringify(Object(emailData.TemplateModel))), messageId, submittedAt)
      ensures postmarkEmails == old(postmarkEmails) + [e]
      ensures idCounter == old(idCounter) && templateIdCounter == old(templateIdCounter)
      ensures things == old(things) && emailTemplates == old(emailTemplates)
    {
      var modelText := stringify(Object(emailData.TemplateModel));
      e := Stamp(TemplatedEmail(emailData, modelText), messageId, submittedAt);
      AppendKeepsMessageIdsDistinct(postmarkEmails, e);
      postmarkEmails := postmarkEmails + [e];
    }

    /**
     * Stores a new template under the current template counter, active, with an absent alias
     * or layout turned into null, and bumps the counter.
     */
    method AddEmailTemplate(input: NewEmailTemplate) returns (t: EmailTemplate)
      requires Valid()
      modifies this
      ensures Valid()
      ensures t == StoredTemplate(old(templateIdCounter), input)
      ensures emailTemplates == old(emailTemplates) + [t]
      ensures templateIdCounter == old(templateIdCounter) + 1
      ensures idCounter == old(idCounter) && things == old(things) && postmarkEmails == old(postmarkEmails)
    {
      t := StoredTemplate(templateIdCounter, input);
      emailTemplates := emailTemplates + [t];
      templateIdCounter := templateIdCounter + 1;
    }
  }

  /** A template the store hands out has a positive id and is active. */
  lemma StoredTemplateIdPositive(templates: seq<EmailTemplate>, i: int)
    requires TemplatesNumbered(templates) && 0 <= i < |templates|
    ensures templates[i].TemplateId >= 1 && templates[i].Active
  {
  }
}
