/**
 * The fake template rendering of `addTemplatedPostmarkEmail` (lib/db/db-client.ts): the
 * Subject, HtmlBody and TextBody of a templated send are built from the template id (or
 * "N/A"), the template alias (or "N/A") and the serialised template model. No stored template
 * is consulted and no variable is substituted.
 *
 * The partner of the Subject renderer is `DecodeSubject`, which reads the id and the alias text
 * back out of a rendered Subject; the round trip shows that the Subject tells every template id
 * apart, including id 0, which `??` renders as "0" and not as "N/A".
 */
module TemplateContent {
  import opened Common
  import opened Decimal

  /** The text `${TemplateId ?? "N/A"}`. */
  function IdText(id: Option<int>): (s: string)
    ensures id.None? ==> s == "N/A"
    ensures id.Some? ==> ParseDecimal(s) == Some(id.value)
    ensures ',' !in s
  {
    match id
    case None => "N/A"
    case Some(n) =>
      DecimalRoundTrip(n);
      var s := DecimalString(n);
      assert forall i | 0 <= i < |s| :: s[i] == '-' || IsDigit(s[i]) by {
        forall i | 0 <= i < |s| ensures s[i] == '-' || IsDigit(s[i]) {
          if i > 0 {
            assert s[i] == s[1..][i - 1];
          }
        }
      }
      s
  }

  /** The text `${TemplateAlias ?? "N/A"}`. */
  function AliasText(alias: Option<string>): (s: string)
    ensures alias.Some? ==> s == alias.value
    ensures alias.None? ==> s == "N/A"
  {
    alias.GetOr("N/A")
  }

  // The fixed text is written in pieces so that the labels "ID: ", "Alias: ", "Template ID: " and
  // "Template Alias: " stand next to the values they introduce.

  const SUBJECT_PREFIX: string := "Templated Subject (" + "ID: "
  const SUBJECT_SEPARATOR: string := ", " + "Alias: "

  /** `Templated Subject (ID: <id or N/A>, Alias: <alias or N/A>)` */
  function TemplatedSubject(id: Option<int>, alias: Option<string>): string {
    "Templated Subject (" + "ID: " + IdText(id) + ", " + "Alias: " + AliasText(alias) + ")"
  }

  /** The HTML body: a heading, the id and alias, then the serialised model. */
  function TemplatedHtmlBody(id: Option<int>, alias: Option<string>, model: string): string {
    "<h1>Templated Email</h1><p>" + "Template ID: " + IdText(id) + ", " + "Template Alias: " + AliasText(alias)
      + "</p><p>Model: " + model + "</p>"
  }

  /** The text body: the id and alias, then the serialised model. */
  function TemplatedTextBody(id: Option<int>, alias: Option<string>, model: string): string {
    "Templated Email. " + "Template ID: " + IdText(id) + ", " + "Template Alias: " + AliasText(alias)
      + ". Model: " + model
  }

  // ------------------------------------------------------------------ reading a Subject back

  /** `t` occurs in `s` starting at position `i`. */
  predicate OccursAt(s: string, t: string, i: int) {
    0 <= i <= |s| - |t| && s[i..i + |t|] == t
  }

  /** `t` occurs in `s` at some position. */
  predicate Contains(s: string, t: string) {
    exists i | 0 <= i <= |s| :: OccursAt(s, t, i)
  }

  /** The position of the first `c` in `s`, if any. */
  function FirstIndexOf(s: string, c: char): (r: Option<nat>)
    ensures r.None? <==> c !in s
    ensures r.Some? ==> r.value < |s| && s[r.value] == c && c !in s[..r.value]
  {
    if |s| == 0 then None
    else if s[0] == c then Some(0)
    else
      var rest := FirstIndexOf(s[1..], c);
      assert s == [s[0]] + s[1..];
      match rest
      case None => None
      case Some(i) =>
        assert s[..i + 1] == [s[0]] + s[1..][..i];
        Some(i + 1)
  }

  /** Reads the id text written by `IdText`: "N/A" or a decimal integer. */
  function DecodeIdText(s: string): (r: Option<Option<int>>)
    ensures r == Some(None) <==> s == "N/A"
  {
    if s == "N/A" then Some(None)
    else match ParseDecimal(s)
      case Some(n) => Some(Some(n))
      case None => None
  }

  /**
   * Reads a rendered Subject back into its template id and its alias text. The id ends at the
   * first comma, since neither "N/A" nor a decimal contains one; the alias is everything
   * between the separator and the closing parenthesis, commas included.
   */
  function DecodeSubject(s: string): (r: Option<(Option<int>, string)>)
    ensures r.Some? ==> |s| > |SUBJECT_PREFIX| && s[..|SUBJECT_PREFIX|] == SUBJECT_PREFIX && s[|s| - 1] == ')'
  {
    if |s| <= |SUBJECT_PREFIX| || s[..|SUBJECT_PREFIX|] != SUBJECT_PREFIX || s[|s| - 1] != ')' then None
    else
      var inner := s[|SUBJECT_PREFIX|..|s| - 1];
      match FirstIndexOf(inner, ',')
      case None => None
      case Some(k) =>
        var rest := inner[k..];
        if |rest| < |SUBJECT_SEPARATOR| || rest[..|SUBJECT_SEPARATOR|] != SUBJECT_SEPARATOR then None
        else
          match DecodeIdText(inner[..k])
          case None => None
          case Some(id) => Some((id, rest[|SUBJECT_SEPARATOR|..]))
  }

  // ------------------------------------------------------------------ properties

  lemma DecodeIdTextRoundTrip(id: Option<int>)
    ensures DecodeIdText(IdText(id)) == Some(id)
  {
  }

  /** The first comma of `a + b` is the first of `b` when `a` has none. */
  lemma FirstIndexOfAfter(a: string, b: string, c: char)
    requires c !in a && |b| > 0 && b[0] == c
    ensures FirstIndexOf(a + b, c) == Some(|a|)
  {
    var s := a + b;
    assert s[|a|] == c;
    assert c in s;
    var i := FirstIndexOf(s, c).value;
    assert forall j | 0 <= j < |a| :: s[j] == a[j];
  }

  /** Decoding a Subject assembled from an id text without a comma and any alias text. */
  lemma DecodeAssembled(idText: string, aliasText: string)
    requires ',' !in idText && DecodeIdText(idText).Some?
    ensures DecodeSubject(SUBJECT_PREFIX + (idText + SUBJECT_SEPARATOR + aliasText + ")"))
         == Some((DecodeIdText(idText).value, aliasText))
  {
    var s := SUBJECT_PREFIX + (idText + SUBJECT_SEPARATOR + aliasText + ")");
    assert s[..|SUBJECT_PREFIX|] == SUBJECT_PREFIX;
    var inner := s[|SUBJECT_PREFIX|..|s| - 1];
    assert inner == idText + (SUBJECT_SEPARATOR + aliasText);
    FirstIndexOfAfter(idText, SUBJECT_SEPARATOR + aliasText, ',');
    assert inner[..|idText|] == idText;
    var rest := inner[|idText|..];
    assert rest == SUBJECT_SEPARATOR + aliasText;
    assert rest[..|SUBJECT_SEPARATOR|] == SUBJECT_SEPARATOR;
    assert rest[|SUBJECT_SEPARATOR|..] == aliasText;
  }

  /** A rendered Subject reads back as the id it was rendered from and the alias text. */
  lemma {:induction false} SubjectRoundTrip(id: Option<int>, alias: Option<string>)
    ensures DecodeSubject(TemplatedSubject(id, alias)) == Some((id, AliasText(alias)))
  {
    var idText := IdText(id);
    var aliasText := AliasText(alias);
    assert TemplatedSubject(id, alias) == SUBJECT_PREFIX + (idText + SUBJECT_SEPARATOR + aliasText + ")");
    DecodeIdTextRoundTrip(id);
    DecodeAssembled(idText, aliasText);
  }

  /** Two Subjects are equal only when the template ids and the alias texts are. */
  lemma SubjectDeterminesReference(id1: Option<int>, alias1: Option<string>, id2: Option<int>, alias2: Option<string>)
    requires TemplatedSubject(id1, alias1) == TemplatedSubject(id2, alias2)
    ensures id1 == id2 && AliasText(alias1) == AliasText(alias2)
  {
    SubjectRoundTrip(id1, alias1);
    SubjectRoundTrip(id2, alias2);
  }

  /** Template id 0 is rendered as "0": `??` only replaces an absent id. */
  lemma ZeroIdIsRendered(alias: Option<string>)
    ensures IdText(Some(0)) == "0"
    ensures TemplatedSubject(Some(0), alias) != TemplatedSubject(None, alias)
  {
    DecodeIdTextRoundTrip(Some(0));
    SubjectRoundTrip(Some(0), alias);
    SubjectRoundTrip(None, alias);
  }

  /** An alias spelled "N/A" renders like an absent alias: the Subject cannot tell them apart. */
  lemma AliasNotApplicableCollision(id: Option<int>)
    ensures TemplatedSubject(id, Some("N/A")) == TemplatedSubject(id, None)
  {
  }

  lemma ContainsEnd(a: string, t: string)
    ensures Contains(a + t, t)
  {
    assert (a + t)[|a|..|a| + |t|] == t;
    assert OccursAt(a + t, t, |a|);
  }

  lemma ContainsLabelled(a: string, name: string, value: string)
    ensures Contains(a + name + value, name + value)
  {
    assert a + name + value == a + (name + value);
    ContainsEnd(a, name + value);
  }

  lemma ContainsExtend(a: string, b: string, t: string)
    requires Contains(a, t)
    ensures Contains(a + b, t)
  {
    var i :| 0 <= i <= |a| && OccursAt(a, t, i);
    assert (a + b)[i..i + |t|] == a[i..i + |t|];
    assert OccursAt(a + b, t, i);
  }

  /** The Subject shows "ID: <id or N/A>" and "Alias: <alias or N/A>". */
  lemma SubjectMentions(id: Option<int>, alias: Option<string>)
    ensures Contains(TemplatedSubject(id, alias), "ID: " + IdText(id))
    ensures Contains(TemplatedSubject(id, alias), "Alias: " + AliasText(alias))
  {
    var withId := "Templated Subject (" + "ID: " + IdText(id);
    ContainsLabelled("Templated Subject (", "ID: ", IdText(id));
    ContainsExtend(withId, ", ", "ID: " + IdText(id));
    ContainsExtend(withId + ", ", "Alias: ", "ID: " + IdText(id));
    ContainsExtend(withId + ", " + "Alias: ", AliasText(alias), "ID: " + IdText(id));
    ContainsExtend(withId + ", " + "Alias: " + AliasText(alias), ")", "ID: " + IdText(id));
    ContainsLabelled(withId + ", ", "Alias: ", AliasText(alias));
    ContainsExtend(withId + ", " + "Alias: " + AliasText(alias), ")", "Alias: " + AliasText(alias));
  }

  /** The HTML body shows the id, the alias and the serialised model. */
  lemma HtmlBodyMentions(id: Option<int>, alias: Option<string>, model: string)
    ensures Contains(TemplatedHtmlBody(id, alias, model), "Template ID: " + IdText(id))
    ensures Contains(TemplatedHtmlBody(id, alias, model), "Template Alias: " + AliasText(alias))
    ensures Contains(TemplatedHtmlBody(id, alias, model), model)
  {
    var idPart := "Template ID: " + IdText(id);
    var aliasPart := "Template Alias: " + AliasText(alias);
    var withId := "<h1>Templated Email</h1><p>" + "Template ID: " + IdText(id);
    var withAlias := withId + ", " + "Template Alias: " + AliasText(alias);
    var withModel := withAlias + "</p><p>Model: " + model;
    ContainsLabelled("<h1>Templated Email</h1><p>", "Template ID: ", IdText(id));
    ContainsExtend(withId, ", ", idPart);
    ContainsExtend(withId + ", ", "Template Alias: ", idPart);
    ContainsExtend(withId + ", " + "Template Alias: ", AliasText(alias), idPart);
    ContainsExtend(withAlias, "</p><p>Model: ", idPart);
    ContainsExtend(withAlias + "</p><p>Model: ", model, idPart);
    ContainsExtend(withModel, "</p>", idPart);
    ContainsLabelled(withId + ", ", "Template Alias: ", AliasText(alias));
    ContainsExtend(withAlias, "</p><p>Model: ", aliasPart);
    ContainsExtend(withAlias + "</p><p>Model: ", model, aliasPart);
    ContainsExtend(withModel, "</p>", aliasPart);
    ContainsEnd(withAlias + "</p><p>Model: ", model);
    ContainsExtend(withModel, "</p>", model);
  }

  /** The text body shows the id, the alias and the serialised model. */
  lemma TextBodyMentions(id: Option<int>, alias: Option<string>, model: string)
    ensures Contains(TemplatedTextBody(id, alias, model), "Template ID: " + IdText(id))
    ensures Contains(TemplatedTextBody(id, alias, model), "Template Alias: " + AliasText(alias))
    ensures Contains(TemplatedTextBody(id, alias, model), model)
  {
    var idPart := "Template ID: " + IdText(id);
    var aliasPart := "Template Alias: " + AliasText(alias);
    var withId := "Templated Email. " + "Template ID: " + IdText(id);
    var withAlias := withId + ", " + "Template Alias: " + AliasText(alias);
    ContainsLabelled("Templated Email. ", "Template ID: ", IdText(id));
    ContainsExtend(withId, ", ", idPart);
    ContainsExtend(withId + ", ", "Template Alias: ", idPart);
    ContainsExtend(withId + ", " + "Template Alias: ", AliasText(alias), idPart);
    ContainsExtend(withAlias, ". Model: ", idPart);
    ContainsExtend(withAlias + ". Model: ", model, idPart);
    ContainsLabelled(withId + ", ", "Template Alias: ", AliasText(alias));
    ContainsExtend(withAlias, ". Model: ", aliasPart);
    ContainsExtend(withAlias + ". Model: ", model, aliasPart);
    ContainsEnd(withAlias + ". Model: ", model);
  }
}
