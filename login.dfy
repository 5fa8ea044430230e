/**
 * Signing in (src/handlers/auth/login.rs): the password, then the address
 * confirmation, then the second factor are checked, and only then is the
 * session signed in. A browser that has not signed in as the user before is
 * reported to the user by mail, and remembered.
 */
module Login {
  import opened Wrappers
  import opened Errors
  import opened Store
  import opened App
  import opened Sessions
  import Text
  import Members

  datatype LoginRequest = LoginRequest(email: string, password: string, totp: Option<string>)

  const LoginFailed := "Login failed; Invalid email or password."
  const Unverified := "Your email is not yet verified."
  const TotpRequired := "Two-factor authentication is required for this account."
  const InvalidCode := "Invalid or expired code."
  const NewDeviceSubject := "Security Alert: Sign-in from a new device"

  /** The second-factor code as sent, trimmed; absent when blank. */
  function TotpCode(totp: Option<string>): (c: Option<string>)
    ensures c.Some? <==> totp.Some? && Text.Trim(totp.value) != ""
    ensures c.Some? ==> c.value == Text.Trim(totp.value)
  {
    if totp.Some? && Text.Trim(totp.value) != "" then Some(Text.Trim(totp.value)) else None
  }

  /** The checks made on the account with the form's address, in order. */
  function Check(ctx: Context, crypto: Crypto, u: User, form: LoginRequest): (r: Result<()>)
    ensures r.Ok? <==>
              crypto.passwordMatches(form.password, u.password) &&
              !(ctx.config.requireEmailVerification && u.emailVerificationHash.Some?) &&
              (u.totpSecret.Some? ==> TotpCode(form.totp).Some? && crypto.totpAccepts(u.totpSecret.value, TotpCode(form.totp).value))
    // A wrong password reads exactly like an unknown address.
    ensures !crypto.passwordMatches(form.password, u.password) ==> r == Err(New(LoginFailed))
    ensures r == Err(NewWithType("email_unverified", Unverified)) <==>
              crypto.passwordMatches(form.password, u.password) &&
              ctx.config.requireEmailVerification && u.emailVerificationHash.Some?
    ensures r == Err(NewWithType("totp_required", TotpRequired)) <==>
              crypto.passwordMatches(form.password, u.password) &&
              !(ctx.config.requireEmailVerification && u.emailVerificationHash.Some?) &&
              u.totpSecret.Some? && TotpCode(form.totp).None?
    ensures r == Err(New(InvalidCode)) <==>
              crypto.passwordMatches(form.password, u.password) &&
              !(ctx.config.requireEmailVerification && u.emailVerificationHash.Some?) &&
              u.totpSecret.Some? && TotpCode(form.totp).Some? &&
              !crypto.totpAccepts(u.totpSecret.value, TotpCode(form.totp).value)
  {
    if !crypto.passwordMatches(form.password, u.password) then Err(New(LoginFailed))
    else if ctx.config.requireEmailVerification && u.emailVerificationHash.Some? then
      Err(NewWithType("email_unverified", Unverified))
    else if u.totpSecret.Some? then
      var code := TotpCode(form.totp);
      if code.None? then Err(NewWithType("totp_required", TotpRequired))
      else if !crypto.totpAccepts(u.totpSecret.value, code.value) then Err(New(InvalidCode))
      else Ok(())
    else Ok(())
  }

  /** The mail warning of a sign-in from a browser the user has not signed
      in from before. */
  function NewDeviceMail(u: User): Mail
  {
    Mail(u.email, NewDeviceSubject, "email/new_login")
  }

  /** `login`. Returns the new-device mail when one was handed to the mailer;
      whether it went out does not change the answer. */
  method Login(db: Database, ctx: Context, crypto: Crypto, session: Session, form: LoginRequest)
    returns (r: Result<()>, mail: Option<Mail>)
    modifies session
    ensures CredentialErrors(ctx, form.email, form.password) != map[] ==>
              r == Err(FromValidation(CredentialErrors(ctx, form.email, form.password)))
    ensures CredentialErrors(ctx, form.email, form.password) == map[] && !Members.Registered(db.users, form.email) ==>
              r == Err(New(LoginFailed))
    ensures CredentialErrors(ctx, form.email, form.password) == map[] && Members.Registered(db.users, form.email) ==>
              exists uid :: uid in db.users && db.users[uid].email == form.email &&
                r == Check(ctx, crypto, db.users[uid], form) &&
                (r.Ok? ==> session.uid == Some(uid) && session.seen == old(session.seen) + {uid} &&
                           mail == if uid !in old(session.seen) && ctx.mailer.Some? then Some(NewDeviceMail(db.users[uid])) else None)
    ensures r.Err? ==> session.uid == old(session.uid) && session.seen == old(session.seen) && mail.None?
  {
    mail := None;
    var errors := CredentialErrors(ctx, form.email, form.password);
    if errors != map[] {
      return Err(FromValidation(errors)), mail;
    }
    var found := FindUser(db, (u: User) => u.email == form.email);
    if found.None? {
      return Err(New(LoginFailed)), mail;
    }
    var uid := found.value;
    var user := db.users[uid];
    r := Check(ctx, crypto, user, form);
    if r.Err? {
      return;
    }
    session.SignIn(uid);
    if uid !in session.seen && ctx.mailer.Some? {
      mail := Some(NewDeviceMail(user));
    }
    session.MarkSeen(uid);
  }
}
