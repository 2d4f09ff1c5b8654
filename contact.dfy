/** The contact endpoint (pages/api/contact.js): field validation, the subject
    label lookup, the plain-text and HTML bodies, the mail options, and how
    SMTP outcomes become responses. The SMTP transport is an oracle: whether
    `transporter.verify()` and `transporter.sendMail()` succeed or throw. */
module Contact {
  import opened Wrappers
  import opened Text
  import opened Email
  import Security

  /** The fields of `req.body` the handler reads. */
  datatype ContactRequest = ContactRequest(name: Option<string>, email: Option<string>, subject: Option<string>, message: Option<string>)

  /** The four fields once validation has found each truthy. */
  datatype ContactFields = ContactFields(name: string, email: string, subject: string, message: string)

  /** GMAIL_USER, GMAIL_APP_PASSWORD and CONTACT_EMAIL. */
  datatype SmtpEnv = SmtpEnv(gmailUser: Option<string>, gmailAppPassword: Option<string>, contactEmail: Option<string>)

  datatype MailOptions = MailOptions(from: string, replyTo: string, to: string, subject: string, text: string, html: string)

  /** What `sendEmailViaSMTP` does: throw, or resolve to `{success, error}`;
      `mail` is the message handed to `sendMail`, if it got that far. */
  datatype SendOutcome =
    | ConfigMissing
    | Resolved(success: bool, error: string, mail: Option<MailOptions>)

  datatype ContactResponse =
    | Rejected(message: string)     // a middleware rejected the handler's promise
    | MethodNotAllowed              // 405
    | MissingFields                 // 400 {error:'Missing required fields', required:[...]}
    | InvalidEmail                  // 400 {error:'Invalid email format'}
    | MessageSent                   // 200 {success:true, message:'Message sent successfully'}
    | SendFailed(message: string)   // 500 {error:'Failed to send message', message}

  datatype ContactResult = ContactResult(mail: Option<MailOptions>, response: ContactResponse)

  const DefaultRecipient := "contact@demofyapp.com"
  const ConfigMissingMessage := "Gmail configuration missing. Please set GMAIL_USER and GMAIL_APP_PASSWORD environment variables."

  // ---------------------------------------------------------- subject label

  /** `subjectMap`, as a map of its own entries. */
  const SubjectLabels: map<string, string> := map[
    "support" := "Technical Support",
    "billing" := "Billing Question",
    "feature" := "Feature Request",
    "bug" := "Bug Report",
    "other" := "General Inquiry"]

  /** `getSubjectText` over the map's own entries: one of the five labels,
      'General Inquiry' for any subject that is not one of the five keys. */
  function GetSubjectText(subject: string): (shown: string)
    ensures shown in SubjectLabels.Values
    ensures subject !in SubjectLabels ==> shown == "General Inquiry"
    ensures subject in SubjectLabels ==> shown == SubjectLabels[subject]
  {
    assert SubjectLabels["other"] == "General Inquiry";
    if subject in SubjectLabels then SubjectLabels[subject] else "General Inquiry"
  }

  /** The properties every plain object literal inherits from
      `Object.prototype`; each reads as a function or an object, so truthy. */
  const PrototypeMembers: set<string> := {
    "constructor", "__proto__", "toString", "toLocaleString", "valueOf", "hasOwnProperty",
    "isPrototypeOf", "propertyIsEnumerable", "__defineGetter__", "__defineSetter__",
    "__lookupGetter__", "__lookupSetter__"}

  /** What `subjectMap[subject] || 'General Inquiry'` reads: a label, or an
      inherited member of Object.prototype. */
  datatype SubjectValue = Label(text: string) | Inherited(member: string)

  /** `getSubjectText` as written: the lookup also finds inherited members. */
  function GetSubjectTextAsWritten(subject: string): (v: SubjectValue)
    ensures v.Inherited? <==> subject !in SubjectLabels && subject in PrototypeMembers
  {
    if subject in SubjectLabels then Label(SubjectLabels[subject])
    else if subject in PrototypeMembers then Inherited(subject)
    else Label("General Inquiry")
  }

  /** What a template literal makes of the looked-up value: a label as it
      is; an inherited member as the engine prints it (`__proto__` reads the
      prototype object itself, every other member is a native function, the
      `constructor` being `Object`). */
  function Interpolated(v: SubjectValue): string {
    match v
    case Label(t) => t
    case Inherited(m) =>
      if m == "__proto__" then "[object Object]"
      else if m == "constructor" then "function Object() { [native code] }"
      else "function " + m + "() { [native code] }"
  }

  /** Which subject lookup the bodies and the mail are built with: the
      program's, or the corrected one. */
  datatype SubjectLookup = AsWritten | Corrected

  /** The subject text shown in the mail. */
  function ShownSubject(lookup: SubjectLookup, subject: string): string {
    match lookup
    case AsWritten => Interpolated(GetSubjectTextAsWritten(subject))
    case Corrected => GetSubjectText(subject)
  }

  /** With the corrected lookup the shown subject is always one of the five
      labels; as written it is one exactly off the prototype names. */
  lemma ShownSubjectIsALabel(subject: string)
    ensures ShownSubject(Corrected, subject) in SubjectLabels.Values
    ensures subject !in PrototypeMembers ==> ShownSubject(AsWritten, subject) == ShownSubject(Corrected, subject)
    ensures subject in PrototypeMembers && subject !in SubjectLabels ==>
      ShownSubject(AsWritten, subject) !in SubjectLabels.Values
  {
    if subject in PrototypeMembers && subject !in SubjectLabels {
      var t := ShownSubject(AsWritten, subject);
      assert t[0] == 'f' || t[0] == '[';
      assert forall v :: v in SubjectLabels.Values ==> v[0] in "TBFG";
    }
  }

  /** On every other subject the written lookup and the corrected one agree. */
  lemma SubjectLookupsAgreeOffPrototype(subject: string)
    requires subject !in PrototypeMembers
    ensures GetSubjectTextAsWritten(subject) == Label(GetSubjectText(subject))
  {
  }

  // ------------------------------------------------------------------ bodies

  // The two heads are written as a short first piece and the rest, so that
  // their first character is within the verifier's reach.
  const TextHead := "New contact form" + " submission from Demofy website:\n\nName: "
  const TextAfterName := "\nEmail: "
  const TextAfterEmail := "\nSubject: "
  const TextAfterSubject := "\nMessage:\n"
  const TextTail := "\n\n---\nThis message was sent from the Demofy contact form."

  /** The fixed text of both templates starts and ends with a visible character. */
  lemma TemplateEnds()
    ensures |TextHead| > 0 && !IsJsSpace(TextHead[0]) && |TextTail| > 0 && !IsJsSpace(TextTail[|TextTail| - 1])
    ensures |HtmlHead| > 0 && !IsJsSpace(HtmlHead[0]) && |HtmlTail| > 0 && !IsJsSpace(HtmlTail[|HtmlTail| - 1])
  {
    assert TextHead[0] == "New contact form"[0] == 'N' && TextTail[|TextTail| - 1] == '.';
    assert HtmlHead[0] == "<!DOCTYPE html>"[0] == '<' && HtmlTail[|HtmlTail| - 1] == '>';
  }

  /** `formatEmailText`: the template, then `.trim()`. The trim removes only
      the template's own leading newline and trailing indentation: the
      fields keep any white space they start or end with. */
  function FormatEmailText(f: ContactFields, shown: string): (r: string)
    ensures r == TextHead + f.name + TextAfterName + f.email + TextAfterEmail + shown
                 + TextAfterSubject + f.message + TextTail
  {
    var core := TextHead + f.name + TextAfterName + f.email + TextAfterEmail + shown
                + TextAfterSubject + f.message + TextTail;
    TemplateEnds();
    assert core[0] == TextHead[0] && core[|core| - 1] == TextTail[|TextTail| - 1];
    TrimTemplate(core);
    Trim("\n" + core + "\n  ")
  }

  const HtmlHead := "<!DOCTYPE html>" + "\n<html>\n<head>\n  <meta charset=\"utf-8\">\n  <title>New Contact Form Submission</title>\n</head>\n<body style=\"font-family: Arial, sans-serif; line-height: 1.6; color: #333;\">\n  <div style=\"max-width: 600px; margin: 0 auto; padding: 20px;\">\n    <h2 style=\"color: #db7536;\">New Contact Form Submission</h2>\n    <p>You have received a new message from the Demofy contact form:</p>\n    \n    <div style=\"background: #f5f5f5; padding: 20px; border-radius: 8px; margin: 20px 0;\">\n      <p><strong>Name:</strong> "
  const HtmlAfterName := "</p>\n      <p><strong>Email:</strong> <a href=\"mailto:"
  const HtmlBetweenEmails := "\">"
  const HtmlAfterEmail := "</a></p>\n      <p><strong>Subject:</strong> "
  const HtmlAfterSubject := "</p>\n    </div>\n    \n    <div style=\"background: #fff; padding: 20px; border: 1px solid #ddd; border-radius: 8px;\">\n      <h3 style=\"margin-top: 0;\">Message:</h3>\n      <p style=\"white-space: pre-wrap;\">"
  const HtmlTail := "</p>\n    </div>\n    \n    <hr style=\"margin: 30px 0; border: none; border-top: 1px solid #eee;\">\n    <p style=\"color: #666; font-size: 12px;\">\n      This message was sent from the Demofy contact form at demofyapp.com\n    </p>\n  </div>\n</body>\n</html>"

  /** `formatEmailHTML`: the fields are interpolated as they are, without
      HTML escaping, and the trim again removes only the template's own outer
      white space. */
  function FormatEmailHTML(f: ContactFields, shown: string): (r: string)
    ensures r == HtmlHead + f.name + HtmlAfterName + f.email + HtmlBetweenEmails + f.email + HtmlAfterEmail
                 + shown + HtmlAfterSubject + f.message + HtmlTail
  {
    var core := HtmlHead + f.name + HtmlAfterName + f.email + HtmlBetweenEmails + f.email + HtmlAfterEmail
                + shown + HtmlAfterSubject + f.message + HtmlTail;
    TemplateEnds();
    assert core[0] == HtmlHead[0] && core[|core| - 1] == HtmlTail[|HtmlTail| - 1];
    TrimTemplate(core);
    Trim("\n" + core + "\n  ")
  }

  // ------------------------------------------------------------ mail options

  /** The `mailOptions` object, for the subject text `shown`. */
  function Mail(f: ContactFields, shown: string, gmailUser: string, contactEmail: Option<string>): (m: MailOptions)
    ensures m.to == (if Truthy(contactEmail) then contactEmail.value else DefaultRecipient)
    ensures |m.subject| == 17 + |shown| && m.subject[..17] == "[Demofy Contact] " && m.subject[17..] == shown
    ensures m.from == "\"" + f.name + "\" <" + gmailUser + ">"
    ensures m.replyTo == f.name + " <" + f.email + ">"
    ensures m.text == FormatEmailText(f, shown) && m.html == FormatEmailHTML(f, shown)
  {
    var subject := "[Demofy Contact] " + shown;
    assert subject[..17] == "[Demofy Contact] " && subject[17..] == shown;
    MailOptions(
      "\"" + f.name + "\" <" + gmailUser + ">",
      f.name + " <" + f.email + ">",
      OrElse(contactEmail, DefaultRecipient),
      subject,
      FormatEmailText(f, shown),
      FormatEmailHTML(f, shown))
  }

  /** `sendEmailViaSMTP`: configuration check, transporter verification, then
      the send; mail is handed over only when the first two pass. */
  function SendEmailViaSmtp(f: ContactFields, lookup: SubjectLookup, env: SmtpEnv, verify: Call, send: Call): (r: SendOutcome)
    ensures r == ConfigMissing <==> !Truthy(env.gmailUser) || !Truthy(env.gmailAppPassword)
    ensures r.Resolved? ==> (r.success <==> verify.Succeeds? && send.Succeeds?)
    ensures r.Resolved? ==> (r.mail.Some? <==> verify.Succeeds?)
    ensures r.Resolved? && verify.Throws? ==> r.error == "SMTP verification failed: " + verify.message
    ensures r.Resolved? && verify.Succeeds? && send.Throws? ==> r.error == send.message
    ensures r.Resolved? && r.mail.Some? ==>
      r.mail.value == Mail(f, ShownSubject(lookup, f.subject), env.gmailUser.value, env.contactEmail)
  {
    if !Truthy(env.gmailUser) || !Truthy(env.gmailAppPassword) then ConfigMissing
    else if verify.Throws? then Resolved(false, "SMTP verification failed: " + verify.message, None)
    else
      var m := Mail(f, ShownSubject(lookup, f.subject), env.gmailUser.value, env.contactEmail);
      if send.Throws? then Resolved(false, send.message, Some(m))
      else Resolved(true, "", Some(m))
  }

  // ---------------------------------------------------------------- handler

  /** The contact `handler`, after its security headers. Mail is attempted
      only for an admitted POST whose four fields are truthy and whose e-mail
      matches the pattern; every failure after validation is a 500 with a
      non-empty message. */
  function Handle(httpMethod: string, req: ContactRequest, cors: Security.CallbackArg, limiter: Security.CallbackArg,
                  env: SmtpEnv, verify: Call, send: Call, lookup: SubjectLookup): (r: ContactResult)
    ensures Security.Admit(cors, limiter).Some? ==> r.response == Rejected(Security.Admit(cors, limiter).value)
    ensures Security.Admit(cors, limiter).None? && httpMethod != "POST" ==> r.response == MethodNotAllowed
    ensures r.response == MissingFields <==>
      Security.Admit(cors, limiter).None? && httpMethod == "POST"
      && (!Truthy(req.name) || !Truthy(req.email) || !Truthy(req.subject) || !Truthy(req.message))
    ensures r.mail.Some? ==>
      Truthy(req.name) && Truthy(req.email) && Truthy(req.subject) && Truthy(req.message) && IsEmail(req.email.value)
    ensures r.response == InvalidEmail <==>
      Security.Admit(cors, limiter).None? && httpMethod == "POST"
      && Truthy(req.name) && Truthy(req.email) && Truthy(req.subject) && Truthy(req.message) && !IsEmail(req.email.value)
    ensures r.response == MessageSent <==> r.mail.Some? && send.Succeeds?
    ensures r.response.SendFailed? ==> r.response.message != ""
  {
    match Security.Admit(cors, limiter)
    case Some(m) => ContactResult(None, Rejected(m))
    case None =>
      if httpMethod != "POST" then ContactResult(None, MethodNotAllowed)
      else if !Truthy(req.name) || !Truthy(req.email) || !Truthy(req.subject) || !Truthy(req.message) then
        ContactResult(None, MissingFields)
      else if !IsEmail(req.email.value) then ContactResult(None, InvalidEmail)
      else
        var f := ContactFields(req.name.value, req.email.value, req.subject.value, req.message.value);
        match SendEmailViaSmtp(f, lookup, env, verify, send)
        case ConfigMissing => ContactResult(None, SendFailed(ConfigMissingMessage))
        case Resolved(success, error, mail) =>
          if success then ContactResult(mail, MessageSent)
          else ContactResult(mail, SendFailed(if error != "" then error else "Failed to send email"))
  }

  /** Which message a 500 carries for a valid, admitted POST: the missing
      configuration, the failed verification, or the send error, where an
      empty send error falls back to 'Failed to send email'. */
  lemma SendFailureMessages(req: ContactRequest, env: SmtpEnv, verify: Call, send: Call, lookup: SubjectLookup)
    requires Truthy(req.name) && Truthy(req.email) && Truthy(req.subject) && Truthy(req.message) && IsEmail(req.email.value)
    ensures var r := Handle("POST", req, Security.NoArg, Security.NoArg, env, verify, send, lookup).response;
      if !Truthy(env.gmailUser) || !Truthy(env.gmailAppPassword) then r == SendFailed(ConfigMissingMessage)
      else if verify.Throws? then r == SendFailed("SMTP verification failed: " + verify.message)
      else if send.Throws? then r == SendFailed(if send.message != "" then send.message else "Failed to send email")
      else r == MessageSent
  {
  }

  /** The discrepancy end to end: a valid form submitted with subject
      "constructor" gets no label and no 'General Inquiry' fallback; as
      written, the inherited `Object` function's text is what the subject
      line and both bodies carry, where the corrected lookup shows 'General
      Inquiry'. */
  lemma InheritedSubjectEscapesFallback(req: ContactRequest, env: SmtpEnv, send: Call)
    requires Truthy(req.name) && Truthy(req.email) && req.subject == Some("constructor") && Truthy(req.message)
    requires IsEmail(req.email.value) && Truthy(env.gmailUser) && Truthy(env.gmailAppPassword)
    ensures GetSubjectTextAsWritten("constructor") == Inherited("constructor")
    ensures GetSubjectText("constructor") == "General Inquiry"
    ensures var written := Handle("POST", req, Security.NoArg, Security.NoArg, env, Succeeds, send, AsWritten).mail;
      var corrected := Handle("POST", req, Security.NoArg, Security.NoArg, env, Succeeds, send, Corrected).mail;
      written.Some? && corrected.Some?
      && written.value.subject == "[Demofy Contact] " + "function Object() { [native code] }"
      && corrected.value.subject == "[Demofy Contact] " + "General Inquiry"
  {
    var objectText := "function Object() { [native code] }";
    assert ShownSubject(AsWritten, "constructor") == objectText;
    assert ShownSubject(Corrected, "constructor") == "General Inquiry";
    ValidPostMail(req, env, send, AsWritten);
    ValidPostMail(req, env, send, Corrected);
  }

  /** A valid, admitted POST with the configuration present and a verified
      transporter hands over the mail for the subject the lookup shows, and
      its subject line is the prefix followed by that text. */
  lemma ValidPostMail(req: ContactRequest, env: SmtpEnv, send: Call, lookup: SubjectLookup)
    requires Truthy(req.name) && Truthy(req.email) && Truthy(req.subject) && Truthy(req.message)
    requires IsEmail(req.email.value) && Truthy(env.gmailUser) && Truthy(env.gmailAppPassword)
    ensures var m := Handle("POST", req, Security.NoArg, Security.NoArg, env, Succeeds, send, lookup).mail;
      m.Some? && m.value.subject == "[Demofy Contact] " + ShownSubject(lookup, req.subject.value)
  {
    var f := ContactFields(req.name.value, req.email.value, req.subject.value, req.message.value);
    var m := Mail(f, ShownSubject(lookup, req.subject.value), env.gmailUser.value, env.contactEmail);
    assert Handle("POST", req, Security.NoArg, Security.NoArg, env, Succeeds, send, lookup).mail == Some(m);
    assert m.subject == m.subject[..17] + m.subject[17..];
  }
}
