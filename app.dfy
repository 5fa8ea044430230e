/**
 * `AppContext` (src/main.rs): what the handlers reach beyond the database —
 * the configuration, the optional mailer, and the outside services the
 * model treats as parameters.
 */
module App {
  import opened Wrappers
  import opened Errors
  import Configuration

  /** An SMTP transport: whether a message with this recipient and subject is
      delivered without error. */
  datatype Mailer = Mailer(delivers: (string, string) -> bool)

  /** Format checks done by the `validator` crate and by `chrono_tz`. */
  datatype Checks = Checks(
    isEmail: string -> bool,
    isUrl: string -> bool,
    isTimezone: string -> bool)

  /** The application context. `requestsLimit` and `pushoverAppToken` are
      read by the handlers as `config.organization_requests_limit` and
      `config.pushover_app_token`, which `Config` in src/config.rs does not
      declare; they are kept here beside it. `releaseBuild` is
      `cfg(not(debug_assertions))`. */
  datatype Context = Context(
    config: Configuration.Config,
    requestsLimit: Option<nat>,
    pushoverAppToken: Option<string>,
    mailer: Option<Mailer>,
    releaseBuild: bool,
    checks: Checks)

  /** A mail the handlers compose: recipient, subject and template. */
  datatype Mail = Mail(to: string, subject: string, template: string)

  /** Whether the context's mailer delivers the mail; `false` when there is no mailer. */
  predicate Delivered(ctx: Context, m: Mail)
  {
    ctx.mailer.Some? && ctx.mailer.value.delivers(m.to, m.subject)
  }

  const MailNotConfigured := "Email sending is not configured"

  /** Sending a composed mail from a handler: through the mailer when there
      is one, where a transport failure is an internal error; without one,
      skipped, except that a release build refuses when the handler needs
      the mail to go out (`required`). */
  function SendMail(ctx: Context, m: Mail, required: bool): (r: Result<()>)
    ensures ctx.mailer.Some? ==> (r.Ok? <==> Delivered(ctx, m)) && (r.Err? ==> r.error.Internal?)
    ensures ctx.mailer.None? ==>
              r == if required && ctx.releaseBuild then Err(New(MailNotConfigured)) else Ok(())
  {
    if ctx.mailer.Some? then
      if Delivered(ctx, m) then Ok(()) else Err(Internal("mail transport"))
    else if required && ctx.releaseBuild then Err(New(MailNotConfigured))
    else Ok(())
  }

  const InvalidUrl := "Please enter a valid URL"

  /** `#[validate(url(message = ..))]` on one field. */
  function UrlErrors(ctx: Context, field: string, url: string): (v: ValidationErrors)
    ensures v == map[] <==> ctx.checks.isUrl(url)
  {
    if ctx.checks.isUrl(url) then map[]
    else
      var v := map[field := [ValidationError("url", Some(InvalidUrl))]];
      assert field in v;
      v
  }

  /** The cryptography the handlers call: `bcrypt::verify` of a password
      against a stored hash, and the check of a TOTP code against a secret
      (30-second steps, no drift allowed). */
  datatype Crypto = Crypto(
    passwordMatches: (string, seq<bv8>) -> bool,
    totpAccepts: (string, string) -> bool)

  const InvalidEmail := "A valid email address is required"
  const EmailTooLong := "Must be less than 320 chars"
  const PasswordTooShort := "Must be at least 8 characters long"

  /** `#[validate(email, length(max = 320))]` on an `email` field. */
  function EmailErrors(ctx: Context, email: string): (v: ValidationErrors)
    ensures v == map[] <==> ctx.checks.isEmail(email) && |email| <= 320
    ensures v.Keys <= {"email"}
  {
    var v: ValidationErrors := map[];
    var v := if ctx.checks.isEmail(email) then v
             else AddError(v, "email", ValidationError("email", Some(InvalidEmail)));
    if |email| <= 320 then v
    else AddError(v, "email", ValidationError("length", Some(EmailTooLong)))
  }

  /** `#[validate(length(min = 8))]` on a password field. */
  function PasswordErrors(field: string, password: string): (v: ValidationErrors)
    ensures v == map[] <==> |password| >= 8
    ensures v.Keys <= {field}
  {
    if |password| >= 8 then map[]
    else AddError(map[], field, ValidationError("length", Some(PasswordTooShort)))
  }

  /** The validation of a form with an `email` and a `password` field. */
  function CredentialErrors(ctx: Context, email: string, password: string): (v: ValidationErrors)
    ensures v == map[] <==> ctx.checks.isEmail(email) && |email| <= 320 && |password| >= 8
    ensures v.Keys <= {"email", "password"}
  {
    var e := EmailErrors(ctx, email);
    var p := PasswordErrors("password", password);
    assert e.Keys !! p.Keys;
    e + p
  }

  /** Sending a mail a handler cannot do without, where a missing mailer is
      refused in every build. */
  function SendOrRefuse(ctx: Context, m: Mail): (r: Result<()>)
    ensures r.Ok? <==> Delivered(ctx, m)
    ensures ctx.mailer.None? ==> r == Err(New(MailNotConfigured))
    ensures ctx.mailer.Some? && r.Err? ==> r.error.Internal?
  {
    if ctx.mailer.None? then Err(New(MailNotConfigured))
    else if Delivered(ctx, m) then Ok(())
    else Err(Internal("mail transport"))
  }
}
