/**
 * Mail-template lookup of the password-reset resource: a template is found
 * by its key's name and, when a locale is given, by that locale.
 */
module MailTemplates {
  import opened Wrappers

  datatype TemplateKey =
    | ResetPasswordSenderName
    | ResetPasswordSenderAddress
    | ResetPasswordSubject
    | ResetPasswordTextBody
    | ResetPasswordHtmlBody
    | ResetPasswordBaseUrl
    | ResetPasswordTargetPage
    | ResetPasswordErrorPage
    | ResetPasswordPage
    | ResetPasswordConfirmKeyKey
    | ResetPasswordTargetPageKey
    | ResetPasswordErrorPageKey

  /** `key.name()`: the template's name in the store. */
  function KeyName(key: TemplateKey): string {
    match key
    case ResetPasswordSenderName => "RESET_PASSWORD_SENDER_NAME"
    case ResetPasswordSenderAddress => "RESET_PASSWORD_SENDER_ADDRESS"
    case ResetPasswordSubject => "RESET_PASSWORD_SUBJECT"
    case ResetPasswordTextBody => "RESET_PASSWORD_TEXT_BODY"
    case ResetPasswordHtmlBody => "RESET_PASSWORD_HTML_BODY"
    case ResetPasswordBaseUrl => "RESET_PASSWORD_BASE_URL"
    case ResetPasswordTargetPage => "RESET_PASSWORD_TARGET_PAGE"
    case ResetPasswordErrorPage => "RESET_PASSWORD_ERROR_PAGE"
    case ResetPasswordPage => "RESET_PASSWORD_PAGE"
    case ResetPasswordConfirmKeyKey => "RESET_PASSWORD_CONFIRM_KEY_KEY"
    case ResetPasswordTargetPageKey => "RESET_PASSWORD_TARGET_PAGE_KEY"
    case ResetPasswordErrorPageKey => "RESET_PASSWORD_ERROR_PAGE_KEY"
  }

  /** A stored `MailTemplate` node; its locale and its text may be null. */
  datatype MailTemplate = MailTemplate(name: string, locale: Option<string>, text: Option<string>)

  /**
   * The template store: the templates in the order the store's query returns
   * them, and the keys whose query raises a `FrameworkException`.
   */
  datatype TemplateStore = TemplateStore(templates: seq<MailTemplate>, failing: set<TemplateKey>)

  /** The template query: by name always, by locale only when a locale is given. */
  predicate Matches(t: MailTemplate, name: string, locale: Option<string>) {
    t.name == name && (locale.Some? ==> t.locale == locale)
  }

  /** The position of the template `getFirst()` returns, if the query finds any. */
  function FirstMatch(ts: seq<MailTemplate>, name: string, locale: Option<string>): (r: Option<nat>)
    ensures r.Some? ==> r.value < |ts| && Matches(ts[r.value], name, locale)
    ensures r.Some? ==> forall j :: 0 <= j < r.value ==> !Matches(ts[j], name, locale)
    ensures r.None? ==> forall j :: 0 <= j < |ts| ==> !Matches(ts[j], name, locale)
  {
    if ts == [] then None
    else if Matches(ts[0], name, locale) then Some(0)
    else
      match FirstMatch(ts[1..], name, locale)
      case None => None
      case Some(i) => Some(i + 1)
  }

  /**
   * `getTemplateText`: the text of the first matching template, the default
   * when there is none or its text is null, and null when the store fails.
   */
  function GetTemplateText(store: TemplateStore, key: TemplateKey, default: string, locale: Option<string>): (r: Option<string>)
    ensures r.None? <==> key in store.failing
    ensures (key !in store.failing && forall t :: t in store.templates ==> !Matches(t, KeyName(key), locale))
              ==> r == Some(default)
    ensures (r.Some? && r != Some(default))
              ==> exists t :: t in store.templates && Matches(t, KeyName(key), locale) && t.text == r
    ensures forall i :: 0 <= i < |store.templates| && key !in store.failing
              && Matches(store.templates[i], KeyName(key), locale)
              && (forall j :: 0 <= j < i ==> !Matches(store.templates[j], KeyName(key), locale))
              ==> r == if store.templates[i].text.Some? then store.templates[i].text else Some(default)
  {
    if key in store.failing then None
    else
      match FirstMatch(store.templates, KeyName(key), locale)
      case None => Some(default)
      case Some(i) => if store.templates[i].text.Some? then store.templates[i].text else Some(default)
  }

  /**
   * With no locale the query is by name only: the first template carrying the
   * key's name decides, whatever its locale.
   */
  lemma AnyLocaleWithoutLocale(store: TemplateStore, key: TemplateKey, default: string, i: nat)
    requires key !in store.failing
    requires i < |store.templates| && store.templates[i].name == KeyName(key)
    requires forall j :: 0 <= j < i ==> store.templates[j].name != KeyName(key)
    ensures GetTemplateText(store, key, default, None)
              == if store.templates[i].text.Some? then store.templates[i].text else Some(default)
  {
    assert Matches(store.templates[i], KeyName(key), None);
    assert forall j :: 0 <= j < i ==> !Matches(store.templates[j], KeyName(key), None);
  }

  /**
   * A locale that no template of the key carries yields the default: there is
   * no second lookup without the locale, even if a locale-less template exists.
   */
  lemma NoFallbackToLocalelessTemplate(store: TemplateStore, key: TemplateKey, default: string, locale: string)
    requires key !in store.failing
    requires forall t :: t in store.templates && t.name == KeyName(key) ==> t.locale != Some(locale)
    ensures GetTemplateText(store, key, default, Some(locale)) == Some(default)
  {
  }
}
