/**
 * E-mail notifications on new places and comments: which templates apply to
 * a request, who receives the message, when a template is skipped, and that
 * at most one message goes out per call; plus the template lookup of the
 * e-mail template detail view. Origin matching, template rendering and the
 * JSON codec are parameters; the message that would be sent is the result.
 */
module EmailTemplates {
  import opened JsonValues

  /** A place e-mail template. */
  datatype EmailTemplate = EmailTemplate(
    submissionSet: string, event: string, fromEmail: string,
    bccSources: seq<string>,          // bcc_email_1 .. bcc_email_5 ("" when unset)
    recipientEmailField: string, defaultRecipientEmail: string,
    subject: string, bodyText: string, bodyHtml: string)

  /** An origin of the dataset, with its template if it has one. */
  datatype Origin = Origin(pattern: string, template: Option<EmailTemplate>)

  /** The new place or comment: its id, its data blob and its make_jwt() value when it has one. */
  datatype Submitted = Submitted(id: int, data: string, jwt: Option<string>)

  /** The template context. */
  datatype EmailContext = EmailContext(
    place: Option<int>, comment: Option<int>, data: Json, email: Json,
    jwtPublic: string, requestOrigin: string)

  /** The message handed to the mail backend. */
  datatype Email = Email(
    subject: string, body: string, fromEmail: string, to: seq<Json>, bcc: seq<string>,
    html: Option<string>)

  /** The submission sets whose additions can send an e-mail. */
  const NotifyingSets: set<string> := {"comments", "places"}

  /** The template one origin contributes: its own, when it matches and has one. */
  function Picked(o: Origin, requestOrigin: string, originMatch: (string, string) -> bool): seq<EmailTemplate>
  {
    if originMatch(o.pattern, requestOrigin) && o.template.Some? then [o.template.value] else []
  }

  /** The templates of the origins that match the request origin, in origin order. */
  function Candidates(origins: seq<Origin>, requestOrigin: string, originMatch: (string, string) -> bool)
    : (r: seq<EmailTemplate>)
    ensures |r| <= |origins|
  {
    if origins == [] then []
    else Picked(origins[0], requestOrigin, originMatch) + Candidates(origins[1..], requestOrigin, originMatch)
  }

  /** A candidate is the template of a matching origin, and every such template is a candidate. */
  lemma {:induction false} CandidatesMembers(origins: seq<Origin>, requestOrigin: string,
                                             originMatch: (string, string) -> bool)
    ensures forall t :: t in Candidates(origins, requestOrigin, originMatch) <==>
      exists o :: o in origins && originMatch(o.pattern, requestOrigin) && o.template == Some(t)
  {
    if origins != [] {
      CandidatesMembers(origins[1..], requestOrigin, originMatch);
      assert forall o :: o in origins[1..] ==> o in origins;
      assert forall o :: o in origins && o != origins[0] ==> o in origins[1..];
    }
  }

  /**
   * Candidates keeps the origins' order: the templates of a concatenation
   * are those of its parts, one after the other, and one origin yields its
   * own template exactly when it matches and has one.
   */
  lemma {:induction false} CandidatesInOrder(a: seq<Origin>, b: seq<Origin>, requestOrigin: string,
                                             originMatch: (string, string) -> bool)
    ensures Candidates(a + b, requestOrigin, originMatch) ==
      Candidates(a, requestOrigin, originMatch) + Candidates(b, requestOrigin, originMatch)
    ensures |a| == 1 ==> Candidates(a, requestOrigin, originMatch) ==
                         if originMatch(a[0].pattern, requestOrigin) && a[0].template.Some? then [a[0].template.value] else []
  {
    if a == [] {
      assert a + b == b;
    } else {
      var o := a[0];
      assert (a + b)[0] == o;
      assert (a + b)[1..] == a[1..] + b;
      CandidatesInOrder(a[1..], b, requestOrigin, originMatch);
      if |a| == 1 {
        assert a[1..] == [];
      }
    }
  }

  /** The template belongs to additions to `setName` (or to any set). */
  predicate ForThisEvent(t: EmailTemplate, setName: string)
  {
    (t.submissionSet == setName || t.submissionSet == "") && t.event == "add"
  }

  /** The templates for additions to `setName` (or to any set), in order. */
  function ForEvent(templates: seq<EmailTemplate>, setName: string): (r: seq<EmailTemplate>)
    ensures |r| <= |templates|
  {
    if templates == [] then []
    else
      var rest := ForEvent(templates[1..], setName);
      var t := templates[0];
      if ForThisEvent(t, setName) then [t] + rest else rest
  }

  /** ForEvent keeps exactly the templates for this event. */
  lemma {:induction false} ForEventMembers(templates: seq<EmailTemplate>, setName: string)
    ensures forall t :: t in ForEvent(templates, setName) <==> t in templates && ForThisEvent(t, setName)
  {
    if templates != [] {
      ForEventMembers(templates[1..], setName);
      assert forall t :: t in templates[1..] ==> t in templates;
      assert forall t :: t in templates && t != templates[0] ==> t in templates[1..];
    }
  }

  /** ForEvent keeps the templates' order, as a filter does. */
  lemma {:induction false} ForEventInOrder(a: seq<EmailTemplate>, b: seq<EmailTemplate>, setName: string)
    ensures ForEvent(a + b, setName) == ForEvent(a, setName) + ForEvent(b, setName)
    ensures |a| == 1 ==> ForEvent(a, setName) == if ForThisEvent(a[0], setName) then a else []
  {
    if a == [] {
      assert a + b == b;
    } else {
      var t := a[0];
      assert (a + b)[0] == t;
      assert (a + b)[1..] == a[1..] + b;
      ForEventInOrder(a[1..], b, setName);
      if |a| == 1 {
        assert a[1..] == [];
        assert [t] == a;
      }
    }
  }

  /** The non-empty BCC entries, in order. */
  function NonEmpty(sources: seq<string>): (r: seq<string>)
    ensures |r| <= |sources|
  {
    if sources == [] then []
    else
      var rest := NonEmpty(sources[1..]);
      if sources[0] != "" then [sources[0]] + rest else rest
  }

  /** NonEmpty keeps exactly the non-empty entries. */
  lemma {:induction false} NonEmptyMembers(sources: seq<string>)
    ensures forall s :: s in NonEmpty(sources) <==> s in sources && s != ""
  {
    if sources != [] {
      NonEmptyMembers(sources[1..]);
      assert forall s :: s in sources[1..] ==> s in sources;
      assert forall s :: s in sources && s != sources[0] ==> s in sources[1..];
    }
  }

  /** NonEmpty keeps the entries' order, as a filter does. */
  lemma {:induction false} NonEmptyInOrder(a: seq<string>, b: seq<string>)
    ensures NonEmpty(a + b) == NonEmpty(a) + NonEmpty(b)
    ensures |a| == 1 ==> NonEmpty(a) == (if a[0] != "" then a else [])
  {
    if a == [] {
      assert a + b == b;
    } else {
      var x := a[0];
      assert (a + b)[0] == x;
      assert (a + b)[1..] == a[1..] + b;
      NonEmptyInOrder(a[1..], b);
      if |a| == 1 {
        assert a[1..] == [];
        assert [x] == a;
      }
    }
  }

  /** Whether the recipient is read from the request data. */
  predicate RecipientFromData(t: EmailTemplate, data: Dict)
  {
    t.recipientEmailField != "" && t.recipientEmailField in data
  }

  /** The primary recipient: the request's value of the named field, else the default. */
  function Recipient(t: EmailTemplate, data: Dict): (r: Json)
    ensures RecipientFromData(t, data) ==> r == data[t.recipientEmailField]
    ensures !RecipientFromData(t, data) ==> r == JStr(t.defaultRecipientEmail)
  {
    if t.recipientEmailField != "" && t.recipientEmailField in data then data[t.recipientEmailField]
    else JStr(t.defaultRecipientEmail)
  }

  /** A template is skipped when it has neither a recipient nor a BCC entry. */
  predicate Skipped(t: EmailTemplate, data: Dict)
  {
    !Truthy(Recipient(t, data)) && NonEmpty(t.bccSources) == []
  }

  /**
   * The template is passed over without an error: it has no recipient and
   * no BCC entry, and a recipient read from the request is text (the log
   * line concatenates it).
   */
  predicate SilentlySkipped(t: EmailTemplate, data: Dict)
  {
    Skipped(t, data) && (RecipientFromData(t, data) ==> Recipient(t, data).JStr?)
  }

  /** The context the templates are rendered in. */
  function ContextFor(obj: Submitted, setName: string, blob: Json, recipient: Json, requestOrigin: string)
    : (c: EmailContext)
    ensures c.place.Some? <==> setName == "places"
    ensures c.comment.Some? <==> setName == "comments"
    ensures c.place.Some? ==> c.place.value == obj.id
    ensures c.comment.Some? ==> c.comment.value == obj.id
  {
    EmailContext(
      if setName == "places" then Some(obj.id) else None,
      if setName == "comments" then Some(obj.id) else None,
      blob, recipient, if obj.jwt.Some? then obj.jwt.value else "", requestOrigin)
  }

  /**
   * What one template does: None when it is skipped, the message when it is
   * sent; a non-text recipient from the request breaks the log line and an
   * undecodable data blob breaks json.loads. The HTML part is attached only
   * when the template has an HTML body and it renders to something.
   */
  function TemplateOutcome(t: EmailTemplate, obj: Submitted, setName: string, data: Dict,
                           requestOrigin: string, codec: Codec,
                           render: (string, EmailContext) -> string): (r: Result<Option<Email>>)
    ensures RecipientFromData(t, data) && !Recipient(t, data).JStr? ==> r.Failure?
    ensures r.Success? && r.value.None? <==> SilentlySkipped(t, data)
    ensures !SilentlySkipped(t, data) && !(RecipientFromData(t, data) && !Recipient(t, data).JStr?) ==>
      (r.Success? <==> codec.loads(obj.data).Some?)
    ensures r.Success? && r.value.Some? ==>
      var m := r.value.value;
      var ctx := ContextFor(obj, setName, codec.loads(obj.data).value, Recipient(t, data), requestOrigin);
      codec.loads(obj.data).Some? &&
      m.to == [Recipient(t, data)] && m.bcc == NonEmpty(t.bccSources) && m.fromEmail == t.fromEmail &&
      m.subject == render(t.subject, ctx) && m.body == render(t.bodyText, ctx) &&
      (m.html.Some? <==> t.bodyHtml != "" && render(t.bodyHtml, ctx) != "") &&
      (m.html.Some? ==> m.html.value == render(t.bodyHtml, ctx))
  {
    var bcc := NonEmpty(t.bccSources);
    var recipient := Recipient(t, data);
    if RecipientFromData(t, data) && !recipient.JStr? then Failure(TypeError("cannot concatenate"))
    else if !Truthy(recipient) && bcc == [] then Success(None)
    else
      match codec.loads(obj.data)
      case None => Failure(ValueError("No JSON object could be decoded"))
      case Some(blob) =>
        var context := ContextFor(obj, setName, blob, recipient, requestOrigin);
        var htmlBody := if t.bodyHtml != "" then render(t.bodyHtml, context) else "";
        var html := if htmlBody != "" then Some(htmlBody) else None;
        Success(Some(Email(render(t.subject, context), render(t.bodyText, context), t.fromEmail,
                           [recipient], bcc, html)))
  }

  /** The loop over the templates: skipped ones continue, the first send or error ends it. */
  function SendFirst(ts: seq<EmailTemplate>, obj: Submitted, setName: string, data: Dict,
                     requestOrigin: string, codec: Codec,
                     render: (string, EmailContext) -> string): (r: Result<Option<Email>>)
    ensures r == Success(None) <==> forall j :: 0 <= j < |ts| ==> SilentlySkipped(ts[j], data)
  {
    if ts == [] then Success(None)
    else
      var r := TemplateOutcome(ts[0], obj, setName, data, requestOrigin, codec, render);
      if r.Success? && r.value.None? then
        var rest := SendFirst(ts[1..], obj, setName, data, requestOrigin, codec, render);
        assert forall j :: 1 <= j < |ts| ==> ts[j] == ts[1..][j - 1];
        rest
      else r
  }

  /** EmailTemplateMixin.send_email_notification; `originMatch` is Origin.match. */
  method SendEmailNotification(obj: Submitted, setName: string, origins: seq<Origin>,
                               requestOrigin: string, data: Dict, codec: Codec,
                               render: (string, EmailContext) -> string,
                               originMatch: (string, string) -> bool)
    returns (r: Result<Option<Email>>)
    ensures setName !in NotifyingSets ==> r == Success(None)
    ensures setName in NotifyingSets ==>
      r == SendFirst(ForEvent(Candidates(origins, requestOrigin, originMatch), setName),
                     obj, setName, data, requestOrigin, codec, render)
  {
    if setName !in NotifyingSets {
      return Success(None);
    }
    var templates := ForEvent(Candidates(origins, requestOrigin, originMatch), setName);
    var i := 0;
    while i < |templates|
      invariant 0 <= i <= |templates|
      invariant SendFirst(templates, obj, setName, data, requestOrigin, codec, render) ==
                SendFirst(templates[i..], obj, setName, data, requestOrigin, codec, render)
    {
      var t := templates[i];
      SendFirstStep(templates, i, obj, setName, data, requestOrigin, codec, render);
      ghost var outcome := TemplateOutcome(t, obj, setName, data, requestOrigin, codec, render);
      var bcc := NonEmpty(t.bccSources);
      var recipient;
      if t.recipientEmailField != "" && t.recipientEmailField in data {
        recipient := data[t.recipientEmailField];
        if !recipient.JStr? {
          assert outcome == Failure(TypeError("cannot concatenate"));
          return Failure(TypeError("cannot concatenate"));
        }
      } else {
        recipient := JStr(t.defaultRecipientEmail);
      }
      assert recipient == Recipient(t, data);
      if !Truthy(recipient) && bcc == [] {
        assert outcome == Success(None);
        i := i + 1;
        continue;
      }
      var blob := codec.loads(obj.data);
      if blob.None? {
        assert outcome == Failure(ValueError("No JSON object could be decoded"));
        return Failure(ValueError("No JSON object could be decoded"));
      }
      var context := ContextFor(obj, setName, blob.value, recipient, requestOrigin);
      var subject := render(t.subject, context);
      var body := render(t.bodyText, context);
      var htmlBody := "";
      if t.bodyHtml != "" {
        htmlBody := render(t.bodyHtml, context);
      }
      var html := None;
      if htmlBody != "" {
        html := Some(htmlBody);
      }
      assert outcome == Success(Some(Email(subject, body, t.fromEmail, [recipient], bcc, html)));
      return Success(Some(Email(subject, body, t.fromEmail, [recipient], bcc, html)));
    }
    return Success(None);
  }

  /** One iteration of the loop over the templates. */
  lemma SendFirstStep(ts: seq<EmailTemplate>, i: int, obj: Submitted, setName: string, data: Dict,
                      requestOrigin: string, codec: Codec, render: (string, EmailContext) -> string)
    requires 0 <= i < |ts|
    ensures var r := TemplateOutcome(ts[i], obj, setName, data, requestOrigin, codec, render);
      SendFirst(ts[i..], obj, setName, data, requestOrigin, codec, render) ==
        if r.Success? && r.value.None? then SendFirst(ts[i + 1..], obj, setName, data, requestOrigin, codec, render)
        else r
  {
    assert ts[i..][0] == ts[i] && ts[i..][1..] == ts[i + 1..];
  }

  /** A silently skipped head extends the skipped prefix of the tail by one. */
  lemma SkippedPrefixShift(ts: seq<EmailTemplate>, i: nat, data: Dict)
    requires i + 1 < |ts|
    requires SilentlySkipped(ts[0], data)
    requires forall j :: 0 <= j < i ==> SilentlySkipped(ts[1..][j], data)
    ensures forall j :: 0 <= j < i + 1 ==> SilentlySkipped(ts[j], data)
  {
    forall j | 1 <= j < i + 1
      ensures SilentlySkipped(ts[j], data)
    {
      assert ts[j] == ts[1..][j - 1];
    }
  }

  /** A sent message comes from the first template that is not passed over, and all before it were passed over silently. */
  lemma {:induction false} SentByFirstUnskipped(ts: seq<EmailTemplate>, obj: Submitted, setName: string,
                                                data: Dict, requestOrigin: string, codec: Codec,
                                                render: (string, EmailContext) -> string)
    requires SendFirst(ts, obj, setName, data, requestOrigin, codec, render).Success?
    requires SendFirst(ts, obj, setName, data, requestOrigin, codec, render).value.Some?
    ensures exists i :: (0 <= i < |ts| && (forall j :: 0 <= j < i ==> SilentlySkipped(ts[j], data)) &&
      SendFirst(ts, obj, setName, data, requestOrigin, codec, render) ==
        TemplateOutcome(ts[i], obj, setName, data, requestOrigin, codec, render))
  {
    var r := TemplateOutcome(ts[0], obj, setName, data, requestOrigin, codec, render);
    if r.Success? && r.value.None? {
      var rest := SendFirst(ts[1..], obj, setName, data, requestOrigin, codec, render);
      assert SendFirst(ts, obj, setName, data, requestOrigin, codec, render) == rest;
      SentByFirstUnskipped(ts[1..], obj, setName, data, requestOrigin, codec, render);
      var i :| 0 <= i < |ts[1..]| && (forall j :: 0 <= j < i ==> SilentlySkipped(ts[1..][j], data)) &&
        rest == TemplateOutcome(ts[1..][i], obj, setName, data, requestOrigin, codec, render);
      SkippedPrefixShift(ts, i, data);
      assert ts[1..][i] == ts[i + 1];
    } else {
      assert SendFirst(ts, obj, setName, data, requestOrigin, codec, render) == r;
      assert 0 <= 0 < |ts|;
    }
  }

  // ---------------------------------------------------------------------
  // EmailTemplateDetailView

  /** get_object_or_none over the stored templates keyed by primary key. */
  function ObjectOrNone(pk: Option<int>, rows: map<int, EmailTemplate>): (r: Option<EmailTemplate>)
    ensures r.Some? <==> pk.Some? && pk.value in rows
    ensures r.Some? ==> r.value == rows[pk.value]
  {
    if pk.None? then None
    else if pk.value in rows then Some(rows[pk.value])
    else None
  }

  /** get_object_or_404: Http404 exactly when there is no such template. */
  function ObjectOr404(pk: Option<int>, rows: map<int, EmailTemplate>): (r: Result<EmailTemplate>)
    ensures r.Failure? <==> ObjectOrNone(pk, rows).None?
    ensures r.Failure? ==> r.error == NotFound
    ensures r.Success? ==> pk.Some? && pk.value in rows && r.value == rows[pk.value]
  {
    match ObjectOrNone(pk, rows)
    case None => Failure(NotFound)
    case Some(t) => Success(t)
  }
}
