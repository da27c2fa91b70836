# fake-postmark: the record store and the routes that feed it

This project models the core of `fake-postmark`, a fake Postmark email-delivery server. The
core is an in-memory database with two counters (`idCounter`, `templateIdCounter`) and three
append-only lists (`things`, `postmarkEmails`, `emailTemplates`). Three HTTP routes decide what
reaches it:

- `POST /email` stores an email as sent.
- `POST /email/withTemplate` stores an email whose Subject and bodies are generated from a
  template id or alias and a template model.
- `POST /templates` stores a Standard or Layout template.

## Modules

- **Common** holds `Option` and `Nullable`. A zod `.optional()` field is an `Option`; a
  `.nullable()` field is always present, as a value or `null`.
- **Decimal** holds JavaScript's rendering of an integer as decimal text. It backs
  `idCounter.toString()` and the `${TemplateId}` of the generated Subject. Its partner is a
  decimal parser, and the two form a proved round trip.
- **Validation** holds JSON values, zod issues and the zod field parsers the schemas use.
  - A request body is a JSON object: a map in which an absent key means `undefined`.
  - A failed parse reports the set of all issues found.
  - An issue records its path, its zod code, and the message the schema supplies, if any.
- **Schema** holds the record shapes of `lib/db/schema.ts` and the parsers that read them.
  - `Stamp` adds the four store-assigned fields to an email.
  - Every email record and every template record reads back through its schema as itself.
- **TemplateContent** renders the fake Subject, HTML body and text body of a templated send.
  `DecodeSubject` reads the id and the alias back out of a rendered Subject.
- **Db** holds the store, a `class Store` whose methods update its fields in place.
  - `Store.Valid` is the invariant every method keeps:
    - Thing ids are "0", "1", "2", … in order, and `idCounter` counts the Things.
    - Template ids are 1, 2, 3, … in order, every template is active, and `templateIdCounter`
      is the next id.
    - Every stored email has error code 0 and status "OK".
    - No two stored emails share a message id.
- **EmailRoute**, **TemplatedEmailRoute** and **TemplatesRoute** each hold a route's body
  schema, its mapping to the store input, its response, and its handler as a method on the
  store.

### Parameters and inference

The random `MessageID`, the clock reading `SubmittedAt`, zod's `.email()` check and
`JSON.stringify` are parameters. The store requires that a message id it is handed is not
already in use.

`addEmailTemplate` is called by `routes/templates.ts:75` but is not part of the store source
modelled here. `Store.AddEmailTemplate` is inferred from four things:

- the template counter default (`lib/db/schema.ts:61`);
- the template record shape (`lib/db/schema.ts:45-56`);
- what the template tests expect: an id above 0, `Active` true, and a null LayoutTemplate
  when none is given;
- the nullable Alias of the record (`lib/db/schema.ts:48`) and of the route's response
  (`routes/templates.ts:43`), which an absent Alias can only fill with null.

It stores the template under the current counter, active, with `?? null` for Alias and
LayoutTemplate, and bumps the counter.

### How template validation reports issues

Template creation validates with zod, so a refused body is not reported by its first broken
rule alone:

- Within the selected branch of the discriminated union, every field issue is reported together.
  A Standard body missing both Name and Subject gets both issues.
- The body refinement ("Either HtmlBody or TextBody must be provided.") runs only on a body that
  passed the union.

`ParseBranch` collects issues, and `BodyRule` and
`BodyRuleOnlyAfterUnion` state the order.

### Behaviour of the source worth knowing

- `TemplateId ?? "N/A"` renders the id 0 as "0" (`ZeroIdIsRendered`).
- An alias spelled "N/A" renders exactly like an absent alias (`AliasNotApplicableCollision`).
  So a Subject identifies the template id exactly, and the alias only up to that collision
  (`SubjectDeterminesReference`).

## Model

| member | source | states |
|---|---|---|
| Common.OrNull | lib/db/schema.ts:48 | an absent optional value becomes null, a present one is kept |
| Decimal.NatDigits | lib/db/db-client.ts:48 | the text of a natural number is a non-empty run of digits, starting with '0' only for 0 |
| Decimal.DecimalString | lib/db/db-client.ts:48 | the text of an integer starts with '-' exactly when it is negative, followed by digits only |
| Decimal.NatDigitsValue | lib/db/db-client.ts:48 | reading the digit text of a natural number gives the number back |
| Decimal.DecimalRoundTrip | lib/db/db-client.ts:48 | parsing the decimal text of any integer gives the integer back |
| Decimal.DecimalStringInjective | lib/db/db-client.ts:48 | different integers have different decimal texts |
| Validation.StringField | routes/templates.ts:7 | a required string accepts exactly a present string; an absent key is reported with the schema's required message |
| Validation.OptionalString | routes/email.ts:12-15 | an optional string accepts an absent key or a string, and the result is present exactly when the key is |
| Validation.EmailField | routes/email.ts:8-9 | a required email accepts exactly a present string that passes the address check |
| Validation.OptionalEmail | routes/email.ts:10-11 | an optional email accepts an absent key or a string that passes the address check |
| Validation.OptionalBool | routes/email.ts:20 | an optional boolean accepts an absent key or a boolean and keeps its value |
| Validation.IntegerField | routes/email/withTemplate.ts:41 | a required integer accepts exactly a present integral number and keeps its value; a fractional number gets the integer/float issue |
| Validation.OptionalInteger | lib/db/schema.ts:38 | an optional integer accepts an absent key or an integral number |
| Validation.NumberOrDefault | lib/db/schema.ts:35 | an absent number takes the default, a present one must be a number and is kept |
| Validation.StringOrDefault | lib/db/schema.ts:36 | an absent string takes the default, a present one must be a string and is kept |
| Validation.NullableString | lib/db/schema.ts:48 | a nullable string must be present, as a string or null, and is non-null exactly for a string |
| Validation.OptionalNullableString | lib/db/schema.ts:31 | an attachment ContentID may be absent, null or a string |
| Validation.BoolField | lib/db/schema.ts:54 | a required boolean accepts exactly a present boolean |
| Validation.EnumField | lib/db/schema.ts:52 | an enum accepts exactly a present string among the options |
| Validation.OptionalEnum | routes/email.ts:21-23 | an optional enum accepts an absent key or a string among the options |
| Validation.StringRecord | lib/db/schema.ts:26 | a string record accepts exactly an object of strings and keeps its keys and values |
| Validation.OptionalStringRecord | routes/email.ts:24 | an optional string record is present exactly when the key is, with the record's entries |
| Validation.AnyRecord | routes/email/withTemplate.ts:34 | the template model is accepted exactly when it is an object, and kept verbatim |
| Validation.OptionalAnyRecord | lib/db/schema.ts:40 | an optional model is absent or an object kept verbatim |
| Validation.ArrayOf | routes/email.ts:25-34 | an array is accepted exactly when every element is, and the result has each element's value at the same position |
| Validation.OptionalArray | routes/email.ts:17-19 | an optional array is present exactly when the key is, with the elements parsed in order |
| Validation.StringMapRoundTrip | lib/db/schema.ts:23 | every string record written as JSON reads back as itself |
| Schema.LinkTrackingName | routes/email.ts:21-23 | every TrackLinks option is named by one of the four accepted strings |
| Schema.LinkTrackingOf | routes/email.ts:21-23 | a string is a TrackLinks option exactly when it is one of the four, and names that option |
| Schema.LinkTrackingRoundTrip | routes/email.ts:21-23 | naming a TrackLinks option and reading the name back gives the option |
| Schema.Stamp | lib/db/db-client.ts:54-60 | the stored email keeps every input field and carries the given id and time, error code 0 and status "OK" |
| Schema.Unstamp | lib/db/db-client.ts:16 | the input part of a stored email; `StampUnstamp` and `Stamp`'s contract state that it undoes `Stamp` |
| Schema.StampUnstamp | lib/db/db-client.ts:54-60 | an email with error code 0 and status "OK" is exactly the stamp of its own input part |
| Schema.TemplateTypeName | lib/db/schema.ts:52 | a template type is named by "Standard" or "Layout" |
| Schema.ParseAttachment | lib/db/schema.ts:27-32 | an attachment is accepted exactly when Name, Content and ContentType are strings and ContentID is absent, null or a string, and keeps those values |
| Schema.OptionalAttachments | lib/db/schema.ts:27-32 | the list is accepted when absent or when every element is an attachment; it is present exactly when the key is, with each element's attachment at the same position |
| Schema.ParsePostmarkEmail | lib/db/schema.ts:12-41 | a refused email record reports at least one issue |
| Schema.ParseEmailTemplate | lib/db/schema.ts:45-56 | a refused template record reports at least one issue |
| Schema.EmailRecordShape | lib/db/schema.ts:12-41 | an email record without MessageID, From, To or SubmittedAt is refused; an accepted one keeps those four, takes 0 and "OK" for an absent ErrorCode and StatusMessage, and has the TemplateId given as an integer; a fractional TemplateId is refused |
| Schema.EmailDefaultsOptional | lib/db/schema.ts:35-36 | leaving ErrorCode and StatusMessage out of an accepted record keeps it accepted, with the same fields and the defaults 0 and "OK" |
| Schema.MinimalEmailAccepted | lib/db/schema.ts:12-41 | a record with only MessageID, From, To and SubmittedAt is accepted, every optional field absent, ErrorCode 0 and StatusMessage "OK" |
| Schema.TemplateRecordShape | lib/db/schema.ts:45-56 | an accepted template record has Alias and LayoutTemplate, each a string or null (non-null exactly for a string), an integer TemplateId and a TemplateType among the two options; any other TemplateType is refused |
| Schema.AttachmentRoundTrip | lib/db/schema.ts:27-32 | every attachment written as JSON reads back as itself |
| Schema.AttachmentsRoundTrip | lib/db/schema.ts:27-32 | every attachment list written as JSON reads back as itself |
| Schema.EmailAddressFieldsRoundTrip | lib/db/schema.ts:13-17 | MessageID, From, To, Cc and Bcc of a written email read back unchanged |
| Schema.EmailContentFieldsRoundTrip | lib/db/schema.ts:18-22 | Subject, Tag, HtmlBody, TextBody and ReplyTo of a written email read back unchanged |
| Schema.EmailRecordFieldsRoundTrip | lib/db/schema.ts:23-26 | Headers and Metadata of a written email read back unchanged |
| Schema.EmailTrackingFieldsRoundTrip | lib/db/schema.ts:24-33 | TrackOpens, TrackLinks, Attachments and MessageStream of a written email read back unchanged |
| Schema.EmailStatusFieldsRoundTrip | lib/db/schema.ts:34-36 | SubmittedAt, ErrorCode and StatusMessage of a written email read back unchanged |
| Schema.EmailTemplateFieldsRoundTrip | lib/db/schema.ts:38-40 | TemplateId, TemplateAlias and TemplateModel of a written email read back unchanged |
| Schema.EmailSchemaRoundTrip | lib/db/schema.ts:12-41 | every email record satisfies the email schema and reads back as itself |
| Schema.TemplateSchemaRoundTrip | lib/db/schema.ts:45-56 | every template record satisfies the template schema and reads back as itself |
| TemplateContent.IdText | lib/db/db-client.ts:72 | an absent id renders as "N/A", a present one as decimal text that parses back to it, with no comma |
| TemplateContent.AliasText | lib/db/db-client.ts:72 | an absent alias renders as "N/A", a present one verbatim |
| TemplateContent.DecodeIdText | lib/db/db-client.ts:72 | the id text "N/A", and only it, reads back as an absent id |
| TemplateContent.DecodeSubject | lib/db/db-client.ts:72 | only text of the Subject's shape, starting "Templated Subject (ID: " and ending ")", is decoded |
| TemplateContent.DecodeIdTextRoundTrip | lib/db/db-client.ts:72 | every rendered id reads back as itself |
| TemplateContent.SubjectRoundTrip | lib/db/db-client.ts:72 | every generated Subject reads back as its template id and its alias text |
| TemplateContent.SubjectDeterminesReference | lib/db/db-client.ts:72 | equal Subjects come from equal template ids and equal alias texts |
| TemplateContent.ZeroIdIsRendered | lib/db/db-client.ts:72 | id 0 renders as "0", and its Subject differs from the Subject without an id |
| TemplateContent.AliasNotApplicableCollision | lib/db/db-client.ts:72 | the alias "N/A" and an absent alias give the same Subject |
| TemplateContent.SubjectMentions | lib/db/db-client.ts:72 | the Subject contains "ID: " with the id text and "Alias: " with the alias text |
| TemplateContent.HtmlBodyMentions | lib/db/db-client.ts:73 | the HTML body contains "Template ID: " with the id text, "Template Alias: " with the alias text, and the serialised model |
| TemplateContent.TextBodyMentions | lib/db/db-client.ts:74 | the text body contains "Template ID: " with the id text, "Template Alias: " with the alias text, and the serialised model |
| TemplateContent.TemplatedSubject | lib/db/db-client.ts:72 | the generated Subject; `SubjectRoundTrip` and `SubjectMentions` state that it reads back as the id and alias text |
| TemplateContent.TemplatedHtmlBody | lib/db/db-client.ts:73 | the generated HTML body; `HtmlBodyMentions` states that it shows the id, the alias and the model |
| TemplateContent.TemplatedTextBody | lib/db/db-client.ts:74 | the generated text body; `TextBodyMentions` states that it shows the id, the alias and the model |
| Db.TrackLinksText | lib/db/db-client.ts:30 | a TrackLinks option is stored as text exactly when given, and the text names that option |
| Db.TemplatedEmailContent | lib/db/db-client.ts:69-91 | a templated email keeps the id, alias and model verbatim; its Subject decodes to the id and alias text; both bodies show the id, the alias and the model |
| Db.TemplatedEmailEnvelope | lib/db/db-client.ts:76-77 | every envelope field of a templated send reaches the email unchanged |
| Db.TemplatedEmail | lib/db/db-client.ts:76-91 | the email built from a templated send; `TemplatedEmailContent` and `TemplatedEmailEnvelope` state what it keeps and what it generates |
| Db.StoredTemplate | routes/templates.ts:75 | a stored template has the given id, is active, turns an absent Alias or LayoutTemplate into null, and keeps every other field |
| Db.ThingIdsDistinct | lib/db/db-client.ts:48 | numbered Things have pairwise different ids |
| Db.AppendKeepsMessageIdsDistinct | lib/db/db-client.ts:61-63 | appending an email with an unused message id keeps message ids distinct |
| Db.Store.constructor | lib/db/schema.ts:59-65 | the initial store has idCounter 0, templateIdCounter 1 and every list empty |
| Db.Store.Valid | lib/db/schema.ts:59-65 | the store invariant: each counter is its default plus the number of records it has numbered, records numbered in order, every email carries error code 0 and status "OK", every template is active, message ids distinct; every Store method keeps it |
| Db.Store.AddThing | lib/db/db-client.ts:44-52 | appends one Thing whose id is the decimal text of the old idCounter, bumps idCounter, and changes nothing else |
| Db.Store.AddPostmarkEmail | lib/db/db-client.ts:53-65 | returns and appends the stamped email and changes nothing else |
| Db.Store.GetPostmarkEmails | lib/db/db-client.ts:66-68 | returns the stored emails in insertion order, without changing the store; all carry error code 0 and status "OK" and distinct ids |
| Db.Store.AddTemplatedPostmarkEmail | lib/db/db-client.ts:69-96 | returns and appends the stamped templated email built from the input and its serialised model, and changes nothing else |
| Db.Store.AddEmailTemplate | routes/templates.ts:75 | appends the template stored under the old templateIdCounter, bumps that counter, and changes nothing else |
| Db.StoredTemplateIdPositive | lib/db/schema.ts:61 | every template the store holds has an id of at least 1 and is active |
| EmailRoute.ParseHeader | routes/email.ts:18 | a header entry is accepted exactly when it is an object with string Name and Value |
| EmailRoute.HeaderNamesSnoc | routes/email.ts:69-73 | the names of a list with one more entry are the old names plus that entry's name |
| EmailRoute.HeadersToRecordSpec | routes/email.ts:69-73 | the record's keys are exactly the names in the list, and each maps to the value of the last entry with that name |
| EmailRoute.HeadersToRecord | routes/email.ts:70-72 | the Headers record; `HeadersToRecordSpec` and `LastDuplicateWins` state its keys and values |
| EmailRoute.ConvertHeaders | routes/email.ts:69-73 | a Headers list becomes its record, and an absent list stays absent |
| EmailRoute.LastDuplicateWins | routes/email/withTemplate.ts:69-73 | of two entries with the same name, the later one's value is kept |
| EmailRoute.OptionalTrackLinks | routes/email.ts:21-23 | TrackLinks is accepted when absent or one of the four options, and the parsed option has that name |
| EmailRoute.ParseEnvelope | routes/email.ts:7-36 | accepted exactly when every field's schema accepts; a missing From or To is reported; From, To, Cc, Bcc and ReplyTo pass the address check; the strings and TrackOpens are kept as given, and Headers, Metadata and Attachments are their fields' parses |
| EmailRoute.ParseSendEmailRequest | routes/email.ts:7-36 | a send body is accepted exactly when its envelope and its optional Subject, HtmlBody and TextBody are; an envelope's issues are reported |
| EmailRoute.AcceptedBodyReachesStore | routes/email.ts:64-74 | every field of an accepted body reaches the store as parsed: the strings, TrackOpens, Metadata and Attachments unchanged, the Headers list as its record, and no template fields |
| EmailRoute.ToStoreInput | routes/email.ts:64-74 | what the route hands to the store; `AcceptedBodyReachesStore` states its fields for an accepted body |
| EmailRoute.Respond | routes/email.ts:78-84 | the response copies To, SubmittedAt, MessageID and ErrorCode, and reports StatusMessage as Message |
| EmailRoute.SendEmail | routes/email.ts:57-85 | a refused body leaves the store unchanged and returns its issues; an accepted one is stored once, stamped, and answered with error code 0 and "OK" |
| TemplatedEmailRoute.ParseTemplateReference | routes/email/withTemplate.ts:38-49 | the reference is accepted exactly when one union branch fits, and keeps the id and the alias as given; a fractional id with an absent or string alias gets the `.int()` issue, any other refusal one `invalid_union` issue |
| TemplatedEmailRoute.FractionalIdReported | routes/email/withTemplate.ts:41 | a fractional TemplateId is refused with the integer issue at TemplateId, not with `invalid_union` |
| TemplatedEmailRoute.ReferenceAcceptedIff | routes/email/withTemplate.ts:38-49 | accepted exactly when an id or an alias is present and each present one has its type |
| TemplatedEmailRoute.ParseSendWithTemplate | routes/email/withTemplate.ts:7-49 | accepted exactly when the envelope, InlineCss, the model and the reference are; InlineCss defaults to true; the issues of both sides are reported |
| TemplatedEmailRoute.InlineCssNotForwarded | routes/email/withTemplate.ts:77-100 | InlineCss has no effect on the store input |
| TemplatedEmailRoute.AcceptedBodyReachesStore | routes/email/withTemplate.ts:77-100 | an accepted body gives the store a template reference, the id and alias exactly when given, the model verbatim, the Headers list as its record, and TrackOpens, Metadata, Attachments and the strings as parsed |
| TemplatedEmailRoute.ToStoreInput | routes/email/withTemplate.ts:77-100 | what the route hands to the store; `AcceptedBodyReachesStore` and `InlineCssNotForwarded` state its fields |
| TemplatedEmailRoute.SendEmailWithTemplate | routes/email/withTemplate.ts:65-111 | a refused body leaves the store unchanged; an accepted one is stored once with generated content and answered with error code 0 and "OK" |
| TemplatedEmailRoute.StoredSubjectNamesTemplate | routes/email/withTemplate.ts:94-102 | the stored Subject decodes to the body's template id and alias text, and the HTML body shows the serialised model |
| TemplatesRoute.Discriminator | routes/templates.ts:15-33 | a branch is selected exactly when TemplateType is the string "Standard" or "Layout" |
| TemplatesRoute.ParseSubject | routes/templates.ts:17-32 | Standard needs a string Subject and reports its required message; Layout refuses any Subject with its not-allowed message |
| TemplatesRoute.ParseBranch | routes/templates.ts:6-32 | a branch accepts exactly a string Name, optional string fields and its Subject rule, reporting a missing Name with "Name is required." |
| TemplatesRoute.ParseCreateTemplate | routes/templates.ts:15-37 | an accepted template is the value of the branch TemplateType selects, with a Subject exactly when Standard and a non-empty body; a failing branch's issues come back unchanged; a bad TemplateType gets the discriminator issue |
| TemplatesRoute.StandardNeedsSubject | routes/templates.ts:17-22 | a Standard body without a Subject is refused with the Subject-required issue |
| TemplatesRoute.LayoutForbidsSubject | routes/templates.ts:23-32 | a Layout body with any Subject is refused with the not-allowed issue |
| TemplatesRoute.NameRequired | routes/templates.ts:7 | a body without a Name is refused with "Name is required." |
| TemplatesRoute.BodyRule | routes/templates.ts:34-37 | past the union, a body is accepted exactly when HtmlBody or TextBody is a non-empty string, else refused with only the body issue |
| TemplatesRoute.Truthy | routes/templates.ts:34 | JavaScript truthiness of an optional string: present and non-empty; `BodyRule` states the body rule through it |
| TemplatesRoute.BodyRuleOnlyAfterUnion | routes/templates.ts:15-37 | a body that fails the union is refused without the body issue |
| TemplatesRoute.ToStoreInput | routes/templates.ts:62-73 | the store input carries a Subject only for Standard, and then the request's |
| TemplatesRoute.AcceptedTemplateKeepsRules | routes/templates.ts:62-73 | an accepted body gives the store a Subject exactly for Standard, a non-empty body, and the body's Name, type, Alias, LayoutTemplate, HtmlBody, TextBody and Subject |
| TemplatesRoute.Respond | routes/templates.ts:77-85 | the response shows Subject exactly when the stored one is non-empty, and copies the other fields |
| TemplatesRoute.CreateTemplate | routes/templates.ts:56-86 | a refused body leaves the store unchanged; an accepted one is stored once, active, under the next template id, and answered from the stored template |

## Left out

- zustand's `createStore`, `combine` and `hoist` are library plumbing: the state is the fields
  of `Store` and each `set(...)` is an assignment.
- `uuidv4()` and `new Date().toISOString()` are parameters. Unused message ids are a
  precondition, not a proof of UUID uniqueness, and the time format is not modelled.
- `JSON.stringify` of a template model is a parameter. The model itself is kept as a JSON
  object.
- The key order of a template model and of the objects nested in it is not modelled. A JSON
  object is a map, so the serialiser parameter renders two models with the same entries
  identically, while `JSON.stringify` writes keys in insertion order.
- zod's `.email()` check is a parameter. The `.uuid()` check on the response's MessageID and the
  response schemas' own validation are not modelled; the responses are built as the handlers
  build them.
- zod's default message texts and the order of its issue list are not modelled. Issues are a
  set, and only the messages the schemas spell out are kept.
- Db.Store.GetPostmarkEmails: returns the stored list as a value, so aliasing between the
  returned array and the store's live state is not modelled; no caller mutates it.
- JSON numbers are exact reals. Precision beyond 2^53 and the exponent form JavaScript uses
  for integers of 1e21 or more are not modelled in `Decimal.DecimalString`.
- The `.default("Standard")` on TemplateType inside the discriminated union is not modelled,
  because zod selects the branch from the raw TemplateType. A missing TemplateType gets the
  discriminator issue.
- Db.Store.AddEmailTemplate: inferred, as described above, because its code is not part of this
  model.
- Schema.ParsePostmarkEmail: its own contract only says that a refusal is reported. What it
  refuses and what it keeps is stated by `Schema.EmailRecordShape`; that every record written
  from an email value is accepted, with or without ErrorCode and StatusMessage, by
  `Schema.EmailSchemaRoundTrip`, `Schema.EmailDefaultsOptional` and `Schema.MinimalEmailAccepted`.
  No single lemma states its acceptance as an if-and-only-if.
- Schema.ParseEmailTemplate: its own contract only says that a refusal is reported; what it
  accepts is stated by `Schema.TemplateRecordShape` and `Schema.TemplateSchemaRoundTrip`.
- The HTTP layer, the middleware, the list-emails route (a wrapper around
  `getPostmarkEmails`) and the test server are not part of this model.
- A stored email's `TrackLinks` is free text in the record schema. The routes only ever store
  one of the four option names, as `Db.TrackLinksText` states.
