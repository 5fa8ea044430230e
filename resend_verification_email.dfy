/**
 * Sending the address-confirmation link again
 * (src/handlers/auth/resend_verification_email.rs). The request is answered
 * at once, whatever happens; the work runs afterwards, and refuses to make a
 * new link less than 50 seconds after the last one.
 */
module ResendVerificationEmail {
  import opened Wrappers
  import opened Errors
  import opened Store
  import opened App
  import Members
  import Register

  /** The least time between two links, in seconds. */
  const MinInterval := 50

  const UserNotFound := "User not found"
  const AlreadyVerified := "Email is already verified"
  const NotRequired := "Email verification is not required"
  const NoCreationDate := "User has no email_verification_hash_created date"
  const TooSoon := "Attempt to resent email verification without respecting time limit"

  /** A new link may be made at `now` for one made at `created`. */
  predicate MayResend(created: Time, now: Time)
  {
    now - created >= MinInterval
  }

  /** Exactly 50 seconds after the last link a new one may be made, and not
      a second earlier. */
  lemma IntervalBoundary(created: Time)
    ensures MayResend(created, created + MinInterval)
    ensures !MayResend(created, created + MinInterval - 1)
  {
  }

  /** Why the background work stops before writing, if it does, for the
      account `u` the address names. */
  function Refusal(ctx: Context, u: User, now: Time): (e: Option<string>)
    ensures e.None? <==>
              u.emailVerificationHash.Some? && ctx.config.requireEmailVerification &&
              u.emailVerificationHashCreated.Some? && MayResend(u.emailVerificationHashCreated.value, now)
  {
    if u.emailVerificationHash.None? then Some(AlreadyVerified)
    else if !ctx.config.requireEmailVerification then Some(NotRequired)
    else if u.emailVerificationHashCreated.None? then Some(NoCreationDate)
    else if !MayResend(u.emailVerificationHashCreated.value, now) then Some(TooSoon)
    else None
  }

  /** The account with a new link made at `now`. */
  function Renewed(u: User, hash: string, now: Time): (v: User)
    ensures v.emailVerificationHash == Some(hash) && v.emailVerificationHashCreated == Some(now)
    ensures v.(emailVerificationHash := u.emailVerificationHash,
               emailVerificationHashCreated := u.emailVerificationHashCreated) == u
  {
    u.(emailVerificationHash := Some(hash), emailVerificationHashCreated := Some(now))
  }

  /** `resend_verification_email_in_bg`. `hash` is the new random
      64-character code. The mail goes to the address of the request; without
      a mailer it is skipped and nothing fails. */
  method ResendInBackground(db: Database, ctx: Context, email: string, hash: string, now: Time)
    returns (r: Result<()>, mail: Option<Mail>)
    requires db.Valid()
    modifies db`users
    ensures db.Valid()
    ensures !Members.Registered(old(db.users), email) ==>
              r == Err(Internal(UserNotFound)) && db.users == old(db.users) && mail.None?
    ensures Members.Registered(old(db.users), email) ==>
              exists k :: k in old(db.users) && old(db.users)[k].email == email &&
                var refusal := Refusal(ctx, old(db.users)[k], now);
                if refusal.Some? then r == Err(Internal(refusal.value)) && db.users == old(db.users) && mail.None?
                else
                  db.users == old(db.users)[k := Renewed(old(db.users)[k], hash, now)] &&
                  mail == (if ctx.mailer.Some? then Some(Mail(email, Register.ConfirmSubject, "email/confirmation")) else None) &&
                  r == SendMail(ctx, Mail(email, Register.ConfirmSubject, "email/confirmation"), false)
  {
    mail := None;
    var found := FindUser(db, (u: User) => u.email == email);
    if found.None? {
      return Err(Internal(UserNotFound)), mail;
    }
    var k := found.value;
    var refusal := Refusal(ctx, db.users[k], now);
    if refusal.Some? {
      return Err(Internal(refusal.value)), mail;
    }
    db.users := db.users[k := Renewed(db.users[k], hash, now)];
    var m := Mail(email, Register.ConfirmSubject, "email/confirmation");
    if ctx.mailer.Some? {
      mail := Some(m);
    }
    r := SendMail(ctx, m, false);
  }

  /** `resend_verification_email`: answers success whether or not a link
      was sent, so the answer tells nothing about the address. The form's
      declared validation is never run. */
  method Resend(db: Database, ctx: Context, email: string, hash: string, now: Time)
    returns (r: Result<()>, mail: Option<Mail>)
    requires db.Valid()
    modifies db`users
    ensures db.Valid()
    ensures r == Ok(())
    ensures Members.Registered(old(db.users), email) ==>
              exists k :: k in old(db.users) && old(db.users)[k].email == email &&
                (Refusal(ctx, old(db.users)[k], now).None? <==>
                   db.users == old(db.users)[k := Renewed(old(db.users)[k], hash, now)] && db.users != old(db.users))
    ensures !Members.Registered(old(db.users), email) ==> db.users == old(db.users)
  {
    var _, sent := ResendInBackground(db, ctx, email, hash, now);
    mail := sent;
    r := Ok(());
  }
}
