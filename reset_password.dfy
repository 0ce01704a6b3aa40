/**
 * The password-reset REST resource ("reset-password"): a POST carrying an
 * e-mail address writes a fresh confirmation key on the matching user and
 * mails that user a link built from locale-aware mail templates.
 *
 * The graph store is modelled by a map from e-mail to `User` objects and a
 * sequence of `MailTemplate` records; the key generator, the placeholder
 * renderer and the mail transport are parameters.
 */
module ResetPassword {
  import opened Wrappers
  import opened Placeholders
  import opened MailTemplates

  const StatusOk := 200
  const StatusBadRequest := 400

  const ResourceSignature := "_resetPassword"

  /** JSON names of the user's e-mail property and of the template's locale property. */
  const EmailKey := "eMail"
  const LocaleKey := "locale"
  const LinkKey := "link"

  const DefaultTextBody := "Go to ${link} to reset your password."
  const DefaultHtmlBody := "<div>Click <a href='${link}'>here</a> to reset your password.</div>"
  const DefaultSenderAddress := "structr-mail-daemon@localhost"
  const DefaultSenderName := "Structr Mail Daemon"
  const DefaultSubject := "Request to reset your Structr password"

  // ---------------------------------------------------------------------------
  // Requests and responses
  // ---------------------------------------------------------------------------

  datatype JavaException = NotAllowed(message: string) | ClassCast | NullPointer

  /** A `RestMethodResult` with its status code, or an exception leaving the resource. */
  datatype Response = Status(code: int) | Thrown(exception: JavaException)

  /** Java string concatenation renders a null reference as "null". */
  function JavaString(s: Option<string>): string {
    match s
    case None => "null"
    case Some(t) => t
  }

  function DigitChar(d: nat): char
    requires d < 10
  {
    (48 + d) as char
  }

  function DecimalDigits(n: nat): string
    decreases n
  {
    if n < 10 then [DigitChar(n)] else DecimalDigits(n / 10) + [DigitChar(n % 10)]
  }

  /** `Integer.toString`. */
  function IntString(n: int): string {
    if n < 0 then "-" + DecimalDigits(-n) else DecimalDigits(n)
  }

  function DoGet(): Response {
    Thrown(NotAllowed("GET not allowed on " + ResourceSignature))
  }

  function DoPut(payload: Payload): Response {
    Thrown(NotAllowed("PUT not allowed on " + ResourceSignature))
  }

  function DoOptions(): Response {
    Thrown(NotAllowed("OPTIONS not allowed on " + ResourceSignature))
  }

  /** Only POST is served: the other verbs always raise `NotAllowedException`, whatever is sent. */
  lemma OnlyPostIsServed(payload: Payload)
    ensures DoGet().Thrown? && DoGet().exception.NotAllowed?
    ensures DoPut(payload).Thrown? && DoPut(payload).exception.NotAllowed?
    ensures DoOptions().Thrown? && DoOptions().exception.NotAllowed?
    ensures DoGet() != DoPut(payload) && DoPut(payload) != DoOptions() && DoGet() != DoOptions()
  {
    assert DoGet().exception.message[0] == 'G';
    assert DoPut(payload).exception.message[0] == 'P';
    assert DoOptions().exception.message[0] == 'O';
  }

  // ---------------------------------------------------------------------------
  // The reset link
  // ---------------------------------------------------------------------------

  /**
   * Inputs that live outside the resource: the application host and HTTP port
   * settings, and the page path and query-parameter names `HtmlServlet` declares.
   */
  datatype Environment = Environment(
    applicationHost: string,
    httpPort: int,
    resetPasswordPage: string,
    confirmKeyKey: string,
    targetPageKey: string)

  function DefaultBaseUrl(env: Environment): string {
    "http://" + env.applicationHost + ":" + IntString(env.httpPort)
  }

  /** The link mailed to the user; each part is template-resolved with its own default. */
  function ResetLink(store: TemplateStore, env: Environment, locale: Option<string>, confKey: string): string {
    JavaString(GetTemplateText(store, ResetPasswordBaseUrl, DefaultBaseUrl(env), locale))
    + JavaString(GetTemplateText(store, ResetPasswordPage, env.resetPasswordPage, locale))
    + "?" + JavaString(GetTemplateText(store, ResetPasswordConfirmKeyKey, env.confirmKeyKey, locale)) + "=" + confKey
    + "&" + JavaString(GetTemplateText(store, ResetPasswordTargetPageKey, env.targetPageKey, locale))
    + "=" + JavaString(GetTemplateText(store, ResetPasswordTargetPage, env.resetPasswordPage, locale))
  }

  /** With no templates configured the link is made of the built-in defaults alone. */
  lemma LinkWithoutTemplates(env: Environment, locale: Option<string>, confKey: string)
    ensures ResetLink(TemplateStore([], {}), env, locale, confKey)
              == "http://" + env.applicationHost + ":" + IntString(env.httpPort) + env.resetPasswordPage
                 + "?" + env.confirmKeyKey + "=" + confKey + "&" + env.targetPageKey + "=" + env.resetPasswordPage
  {
  }

  /** A store failure on the base-URL template does not fall back to the default: the link starts with "null". */
  lemma FailedBaseUrlLookupGivesNull(store: TemplateStore, env: Environment, locale: Option<string>, confKey: string)
    requires ResetPasswordBaseUrl in store.failing
    ensures ResetLink(store, env, locale, confKey)[..4] == "null"
  {
  }

  // ---------------------------------------------------------------------------
  // The replacement map
  // ---------------------------------------------------------------------------

  /**
   * The complete map handed to the renderer: the posted entries, then the
   * user's e-mail and the link, written last so that they win over posted values.
   */
  function FinalReplacements(props: Payload, userEmail: string, link: string): map<string, string>
    requires NoNulls(props)
  {
    PostedReplacements(props)[ToPlaceholder(EmailKey) := userEmail][ToPlaceholder(LinkKey) := link]
  }

  lemma FinalReplacementsContents(props: Payload, userEmail: string, link: string)
    requires NoNulls(props)
    ensures FinalReplacements(props, userEmail, link)[ToPlaceholder(LinkKey)] == link
    ensures FinalReplacements(props, userEmail, link)[ToPlaceholder(EmailKey)] == userEmail
    ensures forall k :: k in props && k != EmailKey && k != LinkKey
              ==> FinalReplacements(props, userEmail, link)[ToPlaceholder(k)] == Text(props[k])
    ensures forall p :: p in FinalReplacements(props, userEmail, link)
              ==> p == ToPlaceholder(EmailKey) || p == ToPlaceholder(LinkKey) || exists k :: k in props && p == ToPlaceholder(k)
  {
    PostedReplacementsContents(props);
    assert ToPlaceholder(EmailKey) != ToPlaceholder(LinkKey) by {
      assert ToPlaceholder(EmailKey)[2] != ToPlaceholder(LinkKey)[2];
    }
    forall k | k in props && k != EmailKey && k != LinkKey
      ensures FinalReplacements(props, userEmail, link)[ToPlaceholder(k)] == Text(props[k])
    {
      PlaceholderInjective(k, EmailKey);
      PlaceholderInjective(k, LinkKey);
    }
  }

  // ---------------------------------------------------------------------------
  // The reset mail
  // ---------------------------------------------------------------------------

  /** The arguments of `MailHelper.sendHtmlMail` that vary (cc, bcc and bounce address are null). */
  datatype Mail = Mail(
    senderAddress: Option<string>,
    senderName: Option<string>,
    recipient: string,
    recipientName: string,
    subject: Option<string>,
    htmlContent: string,
    textContent: string)

  /**
   * The collaborators of the resource: the template store, the settings,
   * `MailHelper.replacePlaceHoldersInTemplate` (`render`, left uninterpreted)
   * and `MailHelper.sendHtmlMail` (`send`: true when it returns, false when it throws).
   */
  datatype Services = Services(
    store: TemplateStore,
    env: Environment,
    render: (Option<string>, map<string, string>) -> string,
    send: Mail -> bool)

  /** The mail `sendResetPasswordLink` hands to the transport, or `None` when a null posted value aborts it. */
  function ResetMail(props: Payload, userEmail: string, locale: Option<string>, confKey: string, services: Services): (r: Option<Mail>)
    ensures r.None? <==> !NoNulls(props)
    ensures r.Some? ==> r.value.recipient == userEmail && r.value.recipientName == ""
  {
    if !NoNulls(props) then None
    else
      var store := services.store;
      var replacements := FinalReplacements(props, userEmail, ResetLink(store, services.env, locale, confKey));
      var textTemplate := GetTemplateText(store, ResetPasswordTextBody, DefaultTextBody, locale);
      var htmlTemplate := GetTemplateText(store, ResetPasswordHtmlBody, DefaultHtmlBody, locale);
      Some(Mail(
        GetTemplateText(store, ResetPasswordSenderAddress, DefaultSenderAddress, locale),
        GetTemplateText(store, ResetPasswordSenderName, DefaultSenderName, locale),
        userEmail, "",
        GetTemplateText(store, ResetPasswordSubject, DefaultSubject, locale),
        services.render(htmlTemplate, replacements),
        services.render(textTemplate, replacements)))
  }

  /** Both bodies are rendered against a map whose `${link}` is the reset link, whatever was posted under "link". */
  lemma MailRendersResetLink(props: Payload, userEmail: string, locale: Option<string>, confKey: string, services: Services)
    requires NoNulls(props)
    ensures var m := ResetMail(props, userEmail, locale, confKey, services).value;
            var link := ResetLink(services.store, services.env, locale, confKey);
            exists replacements: map<string, string> ::
              && ToPlaceholder(LinkKey) in replacements && replacements[ToPlaceholder(LinkKey)] == link
              && ToPlaceholder(EmailKey) in replacements && replacements[ToPlaceholder(EmailKey)] == userEmail
              && m.textContent == services.render(GetTemplateText(services.store, ResetPasswordTextBody, DefaultTextBody, locale), replacements)
              && m.htmlContent == services.render(GetTemplateText(services.store, ResetPasswordHtmlBody, DefaultHtmlBody, locale), replacements)
  {
    var link := ResetLink(services.store, services.env, locale, confKey);
    FinalReplacementsContents(props, userEmail, link);
    var replacements := FinalReplacements(props, userEmail, link);
    assert ToPlaceholder(LinkKey) in replacements && ToPlaceholder(EmailKey) in replacements;
  }

  /** With no templates configured the mail uses the built-in sender, subject and body templates. */
  lemma MailWithoutTemplates(props: Payload, userEmail: string, locale: Option<string>, confKey: string, services: Services)
    requires NoNulls(props) && services.store == TemplateStore([], {})
    ensures var m := ResetMail(props, userEmail, locale, confKey, services).value;
            && m.senderAddress == Some(DefaultSenderAddress)
            && m.senderName == Some(DefaultSenderName)
            && m.subject == Some(DefaultSubject)
  {
  }

  /** What came of `sendResetPasswordLink`. */
  datatype Delivery = Delivered | NotDelivered | Aborted(exception: JavaException)

  function Deliver(mail: Option<Mail>, send: Mail -> bool): Delivery {
    match mail
    case None => Aborted(NullPointer)
    case Some(m) => if send(m) then Delivered else NotDelivered
  }

  /** A user node; `setProperties` on the confirmation key is the only write the resource makes. */
  class User {
    var eMail: string
    var confirmationKey: Option<string>

    constructor (eMail: string)
      ensures this.eMail == eMail && confirmationKey == None
    {
      this.eMail := eMail;
      confirmationKey := None;
    }
  }

  /**
   * `sendResetPasswordLink`: fills a fresh replacement map with the posted
   * values, then the user's e-mail and the link, renders both bodies and
   * hands the mail to the transport; it reports success exactly when the
   * transport does not throw.
   */
  method SendResetPasswordLink(user: User, props: Payload, locale: Option<string>, confKey: string, services: Services)
    returns (delivery: Delivery, mail: Option<Mail>)
    ensures mail == ResetMail(props, user.eMail, locale, confKey, services)
    ensures delivery == Deliver(mail, services.send)
  {
    var replacements := new ReplacementMap();
    var ok := PopulateReplacementMap(replacements, props);
    if !ok {
      return Aborted(NullPointer), None;
    }
    assert replacements.entries == PostedReplacements(props);
    var store := services.store;
    var userEmail := user.eMail;
    replacements.Put(ToPlaceholder(EmailKey), userEmail);
    replacements.Put(ToPlaceholder(LinkKey), ResetLink(store, services.env, locale, confKey));

    var textTemplate := GetTemplateText(store, ResetPasswordTextBody, DefaultTextBody, locale);
    var htmlTemplate := GetTemplateText(store, ResetPasswordHtmlBody, DefaultHtmlBody, locale);
    var textContent := services.render(textTemplate, replacements.entries);
    var htmlContent := services.render(htmlTemplate, replacements.entries);

    var m := Mail(
      GetTemplateText(store, ResetPasswordSenderAddress, DefaultSenderAddress, locale),
      GetTemplateText(store, ResetPasswordSenderName, DefaultSenderName, locale),
      userEmail, "",
      GetTemplateText(store, ResetPasswordSubject, DefaultSubject, locale),
      htmlContent, textContent);
    mail := Some(m);
    delivery := if services.send(m) then Delivered else NotDelivered;
  }

  // ---------------------------------------------------------------------------
  // POST
  // ---------------------------------------------------------------------------

  /** The first part of `doPost`: reading the e-mail and locale from the payload. */
  datatype RequestCheck = Reject(response: Response) | Accept(email: string, locale: Option<string>)

  function CheckRequest(payload: Payload): (r: RequestCheck)
    ensures (r == Reject(Status(StatusBadRequest)))
              <==> EmailKey !in payload || payload[EmailKey] == Null || payload[EmailKey] == Str("")
    ensures (r.Accept?)
              <==> EmailKey in payload && payload[EmailKey].Str? && payload[EmailKey].s != ""
                   && (LocaleKey in payload ==> !payload[LocaleKey].Obj?)
    ensures r.Accept? ==> payload[EmailKey] == Str(r.email)
    ensures r.Accept? ==> r.locale == if LocaleKey in payload && payload[LocaleKey].Str? then Some(payload[LocaleKey].s) else None
    ensures (r == Reject(Thrown(ClassCast)))
              <==> EmailKey in payload
                   && (payload[EmailKey].Obj?
                       || (payload[EmailKey].Str? && payload[EmailKey].s != "" && LocaleKey in payload && payload[LocaleKey].Obj?))
  {
    if EmailKey !in payload then Reject(Status(StatusBadRequest))
    else
      match payload[EmailKey]
      case Obj(_) => Reject(Thrown(ClassCast))
      case Null => Reject(Status(StatusBadRequest))
      case Str(email) =>
        if email == "" then Reject(Status(StatusBadRequest))
        else if LocaleKey !in payload then Accept(email, None)
        else
          match payload[LocaleKey]
          case Obj(_) => Reject(Thrown(ClassCast))
          case Null => Accept(email, None)
          case Str(locale) => Accept(email, Some(locale))
  }

  function DeliveryResponse(d: Delivery): Response {
    match d
    case Delivered => Status(StatusOk)
    case NotDelivered => Status(StatusBadRequest)
    case Aborted(e) => Thrown(e)
  }

  /** What a POST yields: the response, the mail handed to the transport, and whose key was written. */
  datatype PostResult = PostResult(response: Response, mail: Option<Mail>, keyWrittenFor: Option<string>)

  /** The outcome of `doPost` for a payload, the set of registered e-mails and a fresh key. */
  function ExpectedPost(payload: Payload, accounts: set<string>, confKey: string, services: Services): PostResult {
    match CheckRequest(payload)
    case Reject(response) => PostResult(response, None, None)
    case Accept(email, locale) =>
      if email !in accounts then PostResult(Status(StatusOk), None, None)
      else
        var mail := ResetMail(payload, email, locale, confKey, services);
        PostResult(DeliveryResponse(Deliver(mail, services.send)), mail, Some(email))
  }

  lemma MissingEmailIsBadRequest(payload: Payload, accounts: set<string>, confKey: string, services: Services)
    requires EmailKey !in payload
    ensures ExpectedPost(payload, accounts, confKey, services) == PostResult(Status(StatusBadRequest), None, None)
  {
  }

  lemma EmptyEmailIsBadRequest(payload: Payload, accounts: set<string>, confKey: string, services: Services)
    requires EmailKey in payload && (payload[EmailKey] == Null || payload[EmailKey] == Str(""))
    ensures ExpectedPost(payload, accounts, confKey, services) == PostResult(Status(StatusBadRequest), None, None)
  {
  }

  /** A posted e-mail or locale that is not a string makes the cast throw, before any lookup, key write or mail. */
  lemma NonStringEmailOrLocaleThrows(payload: Payload, accounts: set<string>, confKey: string, services: Services)
    requires EmailKey in payload
    requires payload[EmailKey].Obj?
             || (payload[EmailKey].Str? && payload[EmailKey].s != "" && LocaleKey in payload && payload[LocaleKey].Obj?)
    ensures ExpectedPost(payload, accounts, confKey, services) == PostResult(Thrown(ClassCast), None, None)
  {
  }

  /** An address nobody registered gets 200, with no key written and no mail sent. */
  lemma UnknownAccountSucceedsSilently(payload: Payload, accounts: set<string>, confKey: string, services: Services)
    requires CheckRequest(payload).Accept? && CheckRequest(payload).email !in accounts
    ensures ExpectedPost(payload, accounts, confKey, services) == PostResult(Status(StatusOk), None, None)
  {
  }

  /**
   * A registered address gets its key written whatever happens next; the
   * response is 200 when the mail goes out and 400 when the transport throws.
   */
  lemma KnownAccountOutcome(payload: Payload, accounts: set<string>, confKey: string, services: Services)
    requires CheckRequest(payload).Accept? && CheckRequest(payload).email in accounts
    ensures var r := ExpectedPost(payload, accounts, confKey, services);
            && r.keyWrittenFor == Some(CheckRequest(payload).email)
            && (r.mail.None? <==> !NoNulls(payload))
            && (r.mail.None? ==> r.response == Thrown(NullPointer))
            && (r.mail.Some? ==> r.mail.value.recipient == CheckRequest(payload).email)
            && (r.mail.Some? ==> (r.response == Status(StatusOk) <==> services.send(r.mail.value)))
            && (r.mail.Some? ==> (r.response == Status(StatusBadRequest) <==> !services.send(r.mail.value)))
  {
  }

  /** When the mail goes out, a registered and an unregistered address get the same response. */
  lemma DeliveredMailHidesAccount(payload: Payload, accounts: set<string>, confKey: string, services: Services)
    requires CheckRequest(payload).Accept? && CheckRequest(payload).email in accounts
    requires ExpectedPost(payload, accounts, confKey, services).mail.Some?
    requires services.send(ExpectedPost(payload, accounts, confKey, services).mail.value)
    ensures ExpectedPost(payload, accounts, confKey, services).response
              == ExpectedPost(payload, accounts - {CheckRequest(payload).email}, confKey, services).response
  {
  }

  /** When the transport fails, the response tells a registered address from an unregistered one. */
  lemma FailedMailRevealsAccount(payload: Payload, accounts: set<string>, confKey: string, services: Services)
    requires CheckRequest(payload).Accept? && CheckRequest(payload).email in accounts
    requires ExpectedPost(payload, accounts, confKey, services).mail.Some?
    requires !services.send(ExpectedPost(payload, accounts, confKey, services).mail.value)
    ensures ExpectedPost(payload, accounts, confKey, services).response
              != ExpectedPost(payload, accounts - {CheckRequest(payload).email}, confKey, services).response
  {
  }

  /** The user directory answers a query by e-mail with the user holding that e-mail. */
  predicate Indexed(users: map<string, User>)
    reads users.Values
  {
    forall e :: e in users ==> users[e].eMail == e
  }

  /**
   * `doPost`: validates the payload, looks the user up, writes the fresh
   * confirmation key on a found user before sending and never rolls it back,
   * and maps the outcome to a status.
   */
  method DoPost(payload: Payload, users: map<string, User>, confKey: string, services: Services)
    returns (response: Response, mail: Option<Mail>)
    requires Indexed(users)
    modifies users.Values
    ensures response == ExpectedPost(payload, users.Keys, confKey, services).response
    ensures mail == ExpectedPost(payload, users.Keys, confKey, services).mail
    ensures forall u :: u in users.Values ==> u.eMail == old(u.eMail)
    ensures var written := ExpectedPost(payload, users.Keys, confKey, services).keyWrittenFor;
            forall u :: u in users.Values ==>
              u.confirmationKey == if written.Some? && u == users[written.value] then Some(confKey) else old(u.confirmationKey)
  {
    var check := CheckRequest(payload);
    if check.Reject? {
      return check.response, None;
    }
    var email, locale := check.email, check.locale;
    if email !in users {
      return Status(StatusOk), None;
    }
    var user := users[email];
    user.confirmationKey := Some(confKey);
    var delivery;
    delivery, mail := SendResetPasswordLink(user, payload, locale, confKey, services);
    response := DeliveryResponse(delivery);
  }
}
