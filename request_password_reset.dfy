/**
 * Asking for a password-reset link (src/handlers/auth/request_password_reset.rs).
 * The address is the one given, or the signed-in user's; the request is
 * answered before the work runs, so the answer does not tell whether an
 * account has the address.
 */
module RequestPasswordReset {
  import opened Wrappers
  import opened Errors
  import opened Store
  import opened App
  import Members

  datatype PasswordResetRequest = PasswordResetRequest(email: Option<string>)

  const EmailRequired := "Email is required"
  const ResetTemplate := "email/password_reset"

  /** The form's validation: an address, when one is given, is valid and at
      most 320 characters long. */
  function RequestErrors(ctx: Context, form: PasswordResetRequest): (v: ValidationErrors)
    ensures v == map[] <==> form.email.None? || (ctx.checks.isEmail(form.email.value) && |form.email.value| <= 320)
  {
    if form.email.Some? then EmailErrors(ctx, form.email.value) else map[]
  }

  /** The address the link is for: the form's, else the signed-in user's
      (`identity`), else an error on the `email` field. */
  function Address(db: Database, form: PasswordResetRequest, identity: Option<Id>): (r: Result<string>)
    reads db
    ensures form.email.Some? ==> r == Ok(form.email.value)
    ensures form.email.None? && identity.Some? ==>
              if identity.value in db.users then r == Ok(db.users[identity.value].email) else r == Err(LoginRequired)
    ensures form.email.None? && identity.None? ==> r == Err(Field("email", EmailRequired))
  {
    if form.email.Some? then Ok(form.email.value)
    else if identity.Some? then
      var u :- CurrentUser(db, identity.value);
      Ok(u.email)
    else Err(Field("email", EmailRequired))
  }

  function ResetSubject(ctx: Context): string
  {
    "Password reset for " + ctx.config.baseUrl + " account"
  }

  /** The account with a new reset link made at `now`. */
  function WithResetLink(u: User, hash: string, now: Time): (v: User)
    ensures v.passwordResetHash == Some(hash) && v.passwordResetHashCreated == Some(now)
    ensures v.(passwordResetHash := u.passwordResetHash, passwordResetHashCreated := u.passwordResetHashCreated) == u
  {
    u.(passwordResetHash := Some(hash), passwordResetHashCreated := Some(now))
  }

  /** `password_reset_request_in_bg`. `hash` is the random 64-character code
      of the link. The link is stored before the mail is composed, and a
      missing mailer is an error. */
  method RequestInBackground(db: Database, ctx: Context, email: string, hash: string, now: Time)
    returns (r: Result<()>, mail: Option<Mail>)
    requires db.Valid()
    modifies db`users
    ensures db.Valid()
    ensures !Members.Registered(old(db.users), email) ==> r == Ok(()) && db.users == old(db.users) && mail.None?
    ensures Members.Registered(old(db.users), email) ==>
              exists k :: k in old(db.users) && old(db.users)[k].email == email &&
                db.users == old(db.users)[k := WithResetLink(old(db.users)[k], hash, now)] &&
                mail == Some(Mail(old(db.users)[k].email, ResetSubject(ctx), ResetTemplate)) &&
                r == SendOrRefuse(ctx, mail.value)
  {
    mail := None;
    var found := FindUser(db, (u: User) => u.email == email);
    if found.None? {
      return Ok(()), mail;
    }
    var k := found.value;
    db.users := db.users[k := WithResetLink(db.users[k], hash, now)];
    mail := Some(Mail(db.users[k].email, ResetSubject(ctx), ResetTemplate));
    r := SendOrRefuse(ctx, mail.value);
  }

  /** `request_password_reset`: once the address is known the answer is
      success, whether or not an account has it and whether or not the mail
      goes out. */
  method Request(db: Database, ctx: Context, form: PasswordResetRequest, identity: Option<Id>, hash: string, now: Time)
    returns (r: Result<()>, mail: Option<Mail>)
    requires db.Valid()
    modifies db`users
    ensures db.Valid()
    ensures RequestErrors(ctx, form) != map[] ==>
              r == Err(FromValidation(RequestErrors(ctx, form))) && db.users == old(db.users) && mail.None?
    ensures RequestErrors(ctx, form) == map[] && old(Address(db, form, identity)).Err? ==>
              r == Err(old(Address(db, form, identity)).error) && db.users == old(db.users) && mail.None?
    ensures RequestErrors(ctx, form) == map[] && old(Address(db, form, identity)).Ok? ==>
              r == Ok(()) &&
              var email := old(Address(db, form, identity)).value;
              (!Members.Registered(old(db.users), email) ==> db.users == old(db.users) && mail.None?) &&
              (Members.Registered(old(db.users), email) ==>
                 exists k :: k in old(db.users) && old(db.users)[k].email == email &&
                   db.users == old(db.users)[k := WithResetLink(old(db.users)[k], hash, now)] &&
                   mail == Some(Mail(email, ResetSubject(ctx), ResetTemplate)))
  {
    mail := None;
    var errors := RequestErrors(ctx, form);
    if errors != map[] {
      return Err(FromValidation(errors)), mail;
    }
    var email :- Address(db, form, identity);
    var _, sent := RequestInBackground(db, ctx, email, hash, now);
    mail := sent;
    r := Ok(());
  }
}
