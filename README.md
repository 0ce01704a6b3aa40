# Password reset and CSV import in Structr, modelled in Dafny

This project models two parts of Structr.

The first is the REST resource `reset-password` (`ResetPasswordResource`). A POST names an account by e-mail address. If a user holds that address, the resource writes a fresh confirmation key on the user. It then mails the user a reset link whose parts, sender, subject and bodies come from mail templates. Templates are looked up by key name and, when the request gives a locale, by that locale. Every posted value becomes a `${key}` placeholder replacement in the mail bodies, and the user's e-mail and the link are written over those afterwards. An unknown address gets the same 200 response as a delivered mail. GET, PUT and OPTIONS are refused.

The second is the scripting function `from_csv` (`FromCsvFunction`). It reads up to four optional positional arguments through a fall-through switch, builds a Commons CSV format from them, and returns one map per parsed record. An invalid call returns the usage text. Any exception returns the empty string.

Modules:

- `Wrappers` (`wrappers.dfy`): `Option`, used for Java null references and for failed lookups.
- `Placeholders` (`placeholders.dfy`): posted values, `toPlaceholder`, the replacement `HashMap` as a class, and `populateReplacementMap` as a loop over the posted entries.
- `MailTemplates` (`mail_templates.dfy`): the template keys, the template store, and `getTemplateText`.
- `ResetPassword` (`reset_password.dfy`):
  - the refused verbs;
  - the reset link;
  - the final replacement map;
  - the mail;
  - `sendResetPasswordLink`;
  - `doPost`, as a method over `User` objects whose confirmation key it writes.
- `FromCsv` (`from_csv.dfy`): the arguments, the CSV format, `usage`, a position-by-position reference definition of the format and the result, and `apply` as a method that follows the Java code step by step. The method is proved equal to the reference definition.

Where descriptions of this resource and the code disagree, the model follows the code:

- **No locale fallback.** `getTemplateText` makes one query. It filters by locale only when the locale is non-null. When a locale is given and no template carries it, the default is used, even if a template without a locale exists (`NoFallbackToLocalelessTemplate`).
- **A store failure is not treated like "not found".** A failed template query makes `getTemplateText` return null, not the default. Java string concatenation then writes "null" into the link (`FailedBaseUrlLookupGivesNull`). The sender, subject and body templates are passed on as null.
- **The ten keys the code uses have defaults.** The two `ERROR_PAGE` keys are declared but never looked up.
- **A transport failure answers 400.** This is the same status as a missing or empty e-mail. When the transport fails, the response tells a registered address from an unregistered one (`FailedMailRevealsAccount`).
- **The confirmation key is written before the mail is built and is never rolled back.** This holds when the mail fails and when a null posted value aborts with a `NullPointerException`.
- **A value of the wrong type gives a `ClassCastException`.** This applies to a posted e-mail or locale that is not a string. The model does not exclude such input. It models the exception as the outcome.

Collaborators appear as parameters:

- the random UUID (`confKey`);
- `MailHelper.replacePlaceHoldersInTemplate` (`render`);
- `MailHelper.sendHtmlMail` (`send`: false when it throws);
- the application host and HTTP port settings and the `HtmlServlet` page and parameter names (`Environment`);
- Commons CSV's parser (`parse`) and `CSVRecord.toMap()` (`toMap`).

The graph database is a `map` from e-mail to `User` objects plus a sequence of `MailTemplate` records, in the order the query returns them.

## Model

| member | source | states |
|---|---|---|
| Placeholders.Text | structr-ui/src/main/java/org/structr/web/resource/ResetPasswordResource.java:230 | definition (no contract of its own): `entry.getValue().toString()` of a non-null posted value; a null value has none, which `PopulateReplacementMap` turns into the abort |
| Placeholders.ToPlaceholder | structr-ui/src/main/java/org/structr/web/resource/ResetPasswordResource.java:236-240 | definition (no contract of its own): `"${" + key + "}"`; `PlaceholderRoundTrip` and `PlaceholderInjective` state its properties |
| Placeholders.PlaceholderRoundTrip | structr-ui/src/main/java/org/structr/web/resource/ResetPasswordResource.java:236-240 | the key can be read back out of `${key}` |
| Placeholders.PlaceholderInjective | structr-ui/src/main/java/org/structr/web/resource/ResetPasswordResource.java:236-240 | distinct keys give distinct placeholders, so no posted entry overwrites another |
| Placeholders.PlaceholdersInjective | structr-ui/src/main/java/org/structr/web/resource/ResetPasswordResource.java:236-240 | injectivity of `toPlaceholder` for all pairs of keys |
| Placeholders.PostedReplacements | structr-ui/src/main/java/org/structr/web/resource/ResetPasswordResource.java:226-234 | definition (no contract of its own): the entries `${k}` → text of each posted value; `PostedReplacementsContents` states what it holds |
| Placeholders.PostedReplacementsContents | structr-ui/src/main/java/org/structr/web/resource/ResetPasswordResource.java:226-234 | the posted entries map `${k}` to the text of the value posted under `k`, for every posted `k`, and hold no other key |
| Placeholders.CharacterizesExtend | structr-ui/src/main/java/org/structr/web/resource/ResetPasswordResource.java:228-232 | putting one more posted key's entry keeps the map exactly the entries of the keys done so far |
| Placeholders.CharacterizesPosted | structr-ui/src/main/java/org/structr/web/resource/ResetPasswordResource.java:226-234 | any map holding exactly the posted entries equals `PostedReplacements`, whatever order the entries were put in |
| Placeholders.FillStep | structr-ui/src/main/java/org/structr/web/resource/ResetPasswordResource.java:228-232 | one iteration of the entry loop keeps its invariant |
| Placeholders.ReplacementMap.constructor | structr-ui/src/main/java/org/structr/web/resource/ResetPasswordResource.java:152 | a new replacement map is empty |
| Placeholders.ReplacementMap.Put | structr-ui/src/main/java/org/structr/web/resource/ResetPasswordResource.java:230 | `put` maps the key to the value and leaves every other entry |
| Placeholders.PopulateReplacementMap | structr-ui/src/main/java/org/structr/web/resource/ResetPasswordResource.java:226-234 | completes exactly when no posted value is null, and then the map is its old entries overwritten by `${k}` → text of each posted value |
| MailTemplates.KeyName | structr-ui/src/main/java/org/structr/web/resource/ResetPasswordResource.java:198 | definition (no contract of its own): `key.name()`, the enum constant's name the template query uses |
| MailTemplates.Matches | structr-ui/src/main/java/org/structr/web/resource/ResetPasswordResource.java:198-202 | definition (no contract of its own): the query matches by name, and by locale only when a locale is given |
| MailTemplates.FirstMatch | structr-ui/src/main/java/org/structr/web/resource/ResetPasswordResource.java:198-204 | the index `getFirst()` returns matches the name (and the locale when one is given) and no earlier template matches; none found means no template matches |
| MailTemplates.GetTemplateText | structr-ui/src/main/java/org/structr/web/resource/ResetPasswordResource.java:194-224 | null exactly when the store fails; the default when no template matches; when the first matching template (by name, and by locale when one is given) is at any index, its text is returned, or the default when that text is null |
| MailTemplates.AnyLocaleWithoutLocale | structr-ui/src/main/java/org/structr/web/resource/ResetPasswordResource.java:198-208 | without a locale the query is by name only: the first template carrying the key's name decides, whatever its locale |
| MailTemplates.NoFallbackToLocalelessTemplate | structr-ui/src/main/java/org/structr/web/resource/ResetPasswordResource.java:198-214 | a locale no template of the key carries yields the default, with no second lookup |
| ResetPassword.DoGet | structr-ui/src/main/java/org/structr/web/resource/ResetPasswordResource.java:83-85 | definition (no contract of its own): GET throws `NotAllowedException` with "GET not allowed on _resetPassword"; `OnlyPostIsServed` states it |
| ResetPassword.DoPut | structr-ui/src/main/java/org/structr/web/resource/ResetPasswordResource.java:88-90 | definition (no contract of its own): PUT throws `NotAllowedException` with "PUT not allowed on _resetPassword", whatever the payload; `OnlyPostIsServed` states it |
| ResetPassword.DoOptions | structr-ui/src/main/java/org/structr/web/resource/ResetPasswordResource.java:139-141 | definition (no contract of its own): OPTIONS throws `NotAllowedException` with "OPTIONS not allowed on _resetPassword"; `OnlyPostIsServed` states it |
| ResetPassword.OnlyPostIsServed | structr-ui/src/main/java/org/structr/web/resource/ResetPasswordResource.java:83-141 | GET, PUT and OPTIONS each raise a distinct `NotAllowedException`, whatever the payload |
| ResetPassword.JavaString | structr-ui/src/main/java/org/structr/web/resource/ResetPasswordResource.java:163-167 | definition (no contract of its own): Java string concatenation writes a null reference as "null" |
| ResetPassword.DefaultBaseUrl | structr-ui/src/main/java/org/structr/web/resource/ResetPasswordResource.java:164 | definition (no contract of its own): the default base URL `"http://" + appHost + ":" + httpPort` |
| ResetPassword.IntString | structr-ui/src/main/java/org/structr/web/resource/ResetPasswordResource.java:164 | definition (no contract of its own): the decimal text of the `Integer` port in `"http://" + appHost + ":" + httpPort` |
| ResetPassword.ResetLink | structr-ui/src/main/java/org/structr/web/resource/ResetPasswordResource.java:163-168 | definition (no contract of its own): base URL + page + `?` + confirm-key name + `=` + key + `&` + target-page name + `=` + target page, each template-resolved with its default; `LinkWithoutTemplates` and `FailedBaseUrlLookupGivesNull` state its properties |
| ResetPassword.LinkWithoutTemplates | structr-ui/src/main/java/org/structr/web/resource/ResetPasswordResource.java:163-168 | with no templates the link is `http://host:port` + reset page + `?confirmKeyKey=key&targetPageKey=` + reset page |
| ResetPassword.FailedBaseUrlLookupGivesNull | structr-ui/src/main/java/org/structr/web/resource/ResetPasswordResource.java:164 | a failing base-URL lookup makes the link start with "null" |
| ResetPassword.FinalReplacements | structr-ui/src/main/java/org/structr/web/resource/ResetPasswordResource.java:156-168 | definition (no contract of its own): the posted entries, then `${eMail}` and `${link}` put last; `FinalReplacementsContents` states what it holds |
| ResetPassword.FinalReplacementsContents | structr-ui/src/main/java/org/structr/web/resource/ResetPasswordResource.java:156-168 | the final map sends `${link}` to the link and `${eMail}` to the user's address, every other posted key to its value's text, and holds no other key |
| ResetPassword.ResetMail | structr-ui/src/main/java/org/structr/web/resource/ResetPasswordResource.java:150-182 | a mail exists exactly when no posted value is null, and it is addressed to the user's e-mail with an empty recipient name |
| ResetPassword.MailRendersResetLink | structr-ui/src/main/java/org/structr/web/resource/ResetPasswordResource.java:162-173 | both bodies are rendered against a map whose `${link}` is the reset link and whose `${eMail}` is the user's address, whatever was posted under those names |
| ResetPassword.MailWithoutTemplates | structr-ui/src/main/java/org/structr/web/resource/ResetPasswordResource.java:177-182 | with no templates the sender address, sender name and subject are the built-in defaults |
| ResetPassword.SendResetPasswordLink | structr-ui/src/main/java/org/structr/web/resource/ResetPasswordResource.java:150-192 | the mail handed to the transport is `ResetMail`; the result is true exactly when the transport does not throw; a null posted value aborts |
| ResetPassword.Deliver | structr-ui/src/main/java/org/structr/web/resource/ResetPasswordResource.java:175-190 | definition (no contract of its own): a mail that was built is delivered when `sendHtmlMail` returns and not delivered when it throws; a null posted value aborts before any mail is built |
| ResetPassword.DeliveryResponse | structr-ui/src/main/java/org/structr/web/resource/ResetPasswordResource.java:112-120 | definition (no contract of its own): delivered gives 200, not delivered gives 400, an abort leaves as its exception |
| ResetPassword.Indexed | structr-ui/src/main/java/org/structr/web/resource/ResetPasswordResource.java:105 | definition (no contract of its own): the user directory maps each e-mail to the user holding it, so the query by e-mail finds that user |
| ResetPassword.CheckRequest | structr-ui/src/main/java/org/structr/web/resource/ResetPasswordResource.java:95-103 | 400 exactly when the e-mail is missing, null or empty; a `ClassCastException` exactly when the e-mail is not a string, or is a non-empty string and the locale is not a string; accepted exactly when the e-mail is a non-empty string and the locale is absent, null or a string |
| ResetPassword.ExpectedPost | structr-ui/src/main/java/org/structr/web/resource/ResetPasswordResource.java:93-136 | definition (no contract of its own): the response, the mail and whose key is written, for a payload and the registered addresses; the outcome lemmas below state its cases |
| ResetPassword.MissingEmailIsBadRequest | structr-ui/src/main/java/org/structr/web/resource/ResetPasswordResource.java:129-134 | no e-mail key: 400, no key written, no mail |
| ResetPassword.EmptyEmailIsBadRequest | structr-ui/src/main/java/org/structr/web/resource/ResetPasswordResource.java:99-101 | null or empty e-mail: 400, no key written, no mail |
| ResetPassword.NonStringEmailOrLocaleThrows | structr-ui/src/main/java/org/structr/web/resource/ResetPasswordResource.java:97-103 | a non-string e-mail, or a non-string locale beside a valid e-mail, throws `ClassCastException`: no key written, no mail |
| ResetPassword.UnknownAccountSucceedsSilently | structr-ui/src/main/java/org/structr/web/resource/ResetPasswordResource.java:122-127 | an unregistered address: 200, no key written, no mail |
| ResetPassword.KnownAccountOutcome | structr-ui/src/main/java/org/structr/web/resource/ResetPasswordResource.java:107-120 | a registered address always gets the key written; 200 exactly when the mail goes out, 400 exactly when the transport throws, a `NullPointerException` when a posted value is null |
| ResetPassword.DeliveredMailHidesAccount | structr-ui/src/main/java/org/structr/web/resource/ResetPasswordResource.java:119-126 | when the mail goes out, the response is the same as for an unregistered address |
| ResetPassword.FailedMailRevealsAccount | structr-ui/src/main/java/org/structr/web/resource/ResetPasswordResource.java:112-126 | when the transport fails, the response differs from that for an unregistered address |
| ResetPassword.DoPost | structr-ui/src/main/java/org/structr/web/resource/ResetPasswordResource.java:93-136 | the response and mail are those of `ExpectedPost`; only the found user's confirmation key changes, to the fresh key; no e-mail changes |
| FromCsv.Usage | structr-modules/structr-csv-module/src/main/java/org/structr/csv/FromCsvFunction.java:108-111 | the JavaScript message exactly in a JavaScript context, the plain one exactly otherwise |
| FromCsv.ValidArguments | structr-modules/structr-csv-module/src/main/java/org/structr/csv/FromCsvFunction.java:49 | definition (no contract of its own): between one and five arguments, none null |
| FromCsv.ArgString | structr-modules/structr-csv-module/src/main/java/org/structr/csv/FromCsvFunction.java:54 | definition (no contract of its own): `toString()` of the non-null source argument |
| FromCsv.StringParam | structr-modules/structr-csv-module/src/main/java/org/structr/csv/FromCsvFunction.java:63-65 | definition (no contract of its own): the `(String)` cast of the argument at a position, None where it throws, or the default when the call is shorter |
| FromCsv.HeaderNames | structr-modules/structr-csv-module/src/main/java/org/structr/csv/FromCsvFunction.java:72 | `toArray(new String[]{})` succeeds exactly when every element is a string or null, keeping length, order and nulls |
| FromCsv.ResolveFormat | structr-modules/structr-csv-module/src/main/java/org/structr/csv/FromCsvFunction.java:55-81 | the format exists exactly when the delimiter and quote are non-empty strings, the separator is a string and a header collection holds only strings or nulls; each field is the argument at its position or its default; the first record is skipped exactly when no header collection is given |
| FromCsv.Rows | structr-modules/structr-csv-module/src/main/java/org/structr/csv/FromCsvFunction.java:83-89 | one map per record, in record order |
| FromCsv.Outcome | structr-modules/structr-csv-module/src/main/java/org/structr/csv/FromCsvFunction.java:47-106 | the usage text exactly for an invalid call; rows exactly when the format builds and the parse succeeds, one map per record in order; otherwise "" |
| FromCsv.Apply | structr-modules/structr-csv-module/src/main/java/org/structr/csv/FromCsvFunction.java:47-106 | the step-by-step `apply` (fall-through switch, format built call by call, record loop) returns `Outcome` |
| FromCsv.SourceAloneUsesDefaults | structr-modules/structr-csv-module/src/main/java/org/structr/csv/FromCsvFunction.java:54-58 | with the source alone the format is `;`, `"`, newline, header from the first record |
| FromCsv.ExplicitDefaultsChangeNothing | structr-modules/structr-csv-module/src/main/java/org/structr/csv/FromCsvFunction.java:55-67 | passing the next omitted argument's default explicitly gives the same format |
| FromCsv.NonCollectionHeaderIgnored | structr-modules/structr-csv-module/src/main/java/org/structr/csv/FromCsvFunction.java:62 | a fifth argument that is not a collection gives the same format as four arguments |
| FromCsv.CollectionHeaderKeepsFirstRecord | structr-modules/structr-csv-module/src/main/java/org/structr/csv/FromCsvFunction.java:71-75 | a non-empty collection of string names sets those names as the header and stops skipping the first record, leaving every other field unchanged |

## Left out

- ResetPassword.ResetMail: the renderer `render` is modelled as never throwing. In the source `replacePlaceHoldersInTemplate` runs outside the `try`, so an exception from it would leave `doPost` with the confirmation key already written. This includes a null body template after a failed template query. `KnownAccountOutcome`'s three outcomes rely on this.
- A null `Settings.ApplicationHost`, which Java would print as "null" in the default base URL, is not modelled because the host is a `string` in `Environment`.
- FromCsv.ResolveFormat: strings are sequences of Unicode code points. For a delimiter or quote that starts outside the Basic Multilingual Plane, the model takes the whole code point, where Java's `charAt(0)` takes the high surrogate, which a Dafny `char` cannot hold.
- ResetPassword.DoPost: the user query by e-mail and the `setProperties` write of the confirmation key are modelled as never throwing. In the source either can raise a `FrameworkException` that leaves `doPost`, and when the write throws no mail is sent. The template store's failure is modelled, but the user store's is not.
- Logging (`logger.error` and `warn`, `logException`, `logParameterError`) is not modelled because it has no effect on results.
- Concurrency and transactions are not modelled. Two concurrent POSTs for one user race on the confirmation key, and the model runs one request at a time.
- The random UUID is the parameter `confKey`. Its uniqueness is not modelled.
- `MailHelper.replacePlaceHoldersInTemplate` is the uninterpreted parameter `render`. Placeholder substitution itself, and escaping or its absence, are not part of this model.
- `MailHelper.sendHtmlMail` is the parameter `send`. The cc, bcc and bounce arguments are always null and are not carried in `Mail`.
- The `Settings` values and the `HtmlServlet` constants are fields of `Environment`. The port is an `int`, and a null port setting is not modelled.
- The graph query by e-mail assumes at most one user per address (`Indexed`). `User`, `MailTemplate` and the graph database are not part of this model beyond the fields used here.
- `checkAndConfigure`, `tryCombineWith`, `getEntityClass` and `isCollectionResource` are not modelled because they are framework plumbing that reads or writes no state of the workflow.
- Commons CSV is not part of this model. `parse` stands for building the `CSVParser` and reading all records, and it also covers format validation, which throws inside `with...` calls. For example, a quote equal to the delimiter is rejected there. Its None covers every exception there, and `apply` turns every exception into "".
- An empty custom header collection yields `withHeader()` with no names. Commons CSV then reads the header from the first record. That effect lies inside `parse`.
- The `sources` array itself being null is not modelled because a Dafny sequence cannot be null.
- `FromCsv.Arg`: the `toString()` of a collection or other object is carried as a string. Java's formatting of it is not modelled.
