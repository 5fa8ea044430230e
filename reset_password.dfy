/**
 * Completing a password reset (src/handlers/auth/reset_password.rs): the
 * link's code names the account, and is honoured for one hour after it was
 * made.
 */
module ResetPassword {
  import opened Wrappers
  import opened Errors
  import opened Store
  import opened App

  datatype PasswordResetForm = PasswordResetForm(newPassword: string, newPasswordRepeat: string)

  const Mismatch := "Password do not match"
  const LinkExpired := "Password reset link expired. Go to forgotten password and try again."
  const NoCreationDate := "Password reset hash present, but without a creation date"
  const RequestExpired := "Password reset request not found or expired."

  /** How long a reset link is honoured, in seconds. */
  const LinkLifetime := 3600

  /** The form's validation: the new password is long enough and repeated
      exactly; on the repeat the mismatch is reported before the length. */
  function FormErrors(form: PasswordResetForm): (v: ValidationErrors)
    ensures v == map[] <==> |form.newPassword| >= 8 && form.newPasswordRepeat == form.newPassword
    ensures form.newPasswordRepeat != form.newPassword ==>
              "new_password_repeat" in v && |v["new_password_repeat"]| > 0 &&
              v["new_password_repeat"][0] == ValidationError("must_match", Some(Mismatch))
  {
    var v := PasswordErrors("new_password", form.newPassword);
    var v := if form.newPasswordRepeat == form.newPassword then v
             else AddError(v, "new_password_repeat", ValidationError("must_match", Some(Mismatch)));
    var w := PasswordErrors("new_password_repeat", form.newPasswordRepeat);
    if w == map[] then v
    else AddError(v, "new_password_repeat", w["new_password_repeat"][0])
  }

  /** A link made at `created` is refused at `now` once more than an hour
      has passed. */
  predicate Expired(created: Time, now: Time)
  {
    now - created > LinkLifetime
  }

  /** A link is still honoured exactly one hour after it was made, and no
      longer a second later. */
  lemma ExpiryBoundary(created: Time)
    ensures !Expired(created, created + LinkLifetime)
    ensures Expired(created, created + LinkLifetime + 1)
  {
  }

  /** The account after the reset: the new password, and no reset pending. */
  function AfterReset(u: User, passwordHash: seq<bv8>): (v: User)
    ensures v.password == passwordHash && v.passwordResetHash.None? && v.passwordResetHashCreated.None?
    ensures v.(password := u.password, passwordResetHash := u.passwordResetHash,
               passwordResetHashCreated := u.passwordResetHashCreated) == u
  {
    u.(password := passwordHash, passwordResetHash := None, passwordResetHashCreated := None)
  }

  ghost predicate Pending(users: map<Id, User>, hash: string)
  {
    exists k :: k in users && users[k].passwordResetHash == Some(hash)
  }

  /** `reset_password`. `passwordHash` is the bcrypt hash of the new
      password and `now` the time of the request. */
  method ResetPassword(db: Database, form: PasswordResetForm, hash: string, passwordHash: seq<bv8>, now: Time)
    returns (r: Result<()>)
    requires db.Valid()
    modifies db`users
    ensures db.Valid()
    ensures FormErrors(form) != map[] ==> r == Err(FromValidation(FormErrors(form))) && db.users == old(db.users)
    ensures FormErrors(form) == map[] && !Pending(old(db.users), hash) ==>
              r == Err(New(LinkExpired)) && db.users == old(db.users)
    ensures FormErrors(form) == map[] && Pending(old(db.users), hash) ==>
              exists k :: k in old(db.users) && old(db.users)[k].passwordResetHash == Some(hash) &&
                match old(db.users)[k].passwordResetHashCreated
                case None => r == Err(Internal(NoCreationDate)) && db.users == old(db.users)
                case Some(created) =>
                  if Expired(created, now) then r == Err(New(RequestExpired)) && db.users == old(db.users)
                  else r.Ok? && db.users == old(db.users)[k := AfterReset(old(db.users)[k], passwordHash)]
  {
    var errors := FormErrors(form);
    if errors != map[] {
      return Err(FromValidation(errors));
    }
    var found := FindUser(db, (u: User) => u.passwordResetHash == Some(hash));
    if found.None? {
      return Err(New(LinkExpired));
    }
    var k := found.value;
    var user := db.users[k];
    if user.passwordResetHashCreated.None? {
      return Err(Internal(NoCreationDate));
    }
    if Expired(user.passwordResetHashCreated.value, now) {
      return Err(New(RequestExpired));
    }
    db.users := db.users[k := AfterReset(user, passwordHash)];
    r := Ok(());
  }
}
