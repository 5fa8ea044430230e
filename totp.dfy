/**
 * Two-factor authentication for the signed-in user
 * (src/handlers/account/totp.rs): offering a new secret, switching it on
 * once a code from it checks out, and switching it off.
 */
module Totp {
  import opened Wrappers
  import opened Errors
  import opened Store
  import opened App
  import Text

  const AlreadyEnabled := "Two-factor authentication already enabled"
  const InvalidSecret := "Invalid secret provided"
  const InvalidCode := "Invalid code provided"
  const Issuer := "Don't Panic!"

  /** The secret offered, and the `otpauth` URL an authenticator app reads
      from the QR code. */
  datatype SecretOffer = SecretOffer(url: string, secret: string)

  /** The `otpauth` URL naming the account by its address and the service
      by `issuer`. */
  function OtpAuthUrl(email: string, secret: string, issuer: string): string
  {
    "otpauth://totp/" + Text.UrlEncode(email) + "?secret=" + secret + "&issuer=" + Text.UrlEncode(issuer)
  }

  /** In `prefix + "?secret=" + secret + tail`, where `prefix` holds no
      `?`, the query starts right after `prefix` and begins with the secret. */
  lemma QueryAfter(prefix: string, secret: string, tail: string)
    requires forall i :: 0 <= i < |prefix| ==> prefix[i] != '?'
    ensures var url := prefix + "?secret=" + secret + tail;
            var at := |prefix|;
            at + 8 + |secret| <= |url| && url[..at] == prefix &&
            url[at..at + 8] == "?secret=" && url[at + 8..at + 8 + |secret|] == secret &&
            forall i :: 0 <= i < at ==> url[i] != '?'
  {
    var url := prefix + "?secret=" + secret + tail;
    assert url == prefix + ("?secret=" + secret + tail);
    assert forall i :: 0 <= i < |prefix| ==> url[i] == prefix[i];
  }

  /** An encoded address holds no `?`, and neither does the scheme before it. */
  lemma PathHasNoQuery(email: string)
    ensures var prefix := "otpauth://totp/" + Text.UrlEncode(email);
            forall i :: 0 <= i < |prefix| ==> prefix[i] != '?'
  {
    var head := "otpauth://totp/";
    var encoded := Text.UrlEncode(email);
    var prefix := head + encoded;
    forall i | 0 <= i < |prefix| ensures prefix[i] != '?' {
      if i >= |head| {
        assert prefix[i] == encoded[i - |head|];
      }
    }
  }

  /** The URL is the path, then `?secret=`, the secret and the issuer. */
  lemma UrlLayout(email: string, secret: string, issuer: string)
    ensures OtpAuthUrl(email, secret, issuer) ==
            ("otpauth://totp/" + Text.UrlEncode(email)) + "?secret=" + secret + ("&issuer=" + Text.UrlEncode(issuer))
  {
  }

  /** The address cannot spill into the URL's query: after the scheme comes
      the encoded address, and the first `?` of the URL is the one that
      starts `secret=`, followed by the secret. */
  lemma AddressStaysInPath(email: string, secret: string, issuer: string)
    ensures var url := OtpAuthUrl(email, secret, issuer);
            var at := 15 + |Text.UrlEncode(email)|;
            at + 8 + |secret| <= |url| && url[..at] == "otpauth://totp/" + Text.UrlEncode(email) &&
            url[at..at + 8] == "?secret=" && url[at + 8..at + 8 + |secret|] == secret &&
            forall i :: 0 <= i < at ==> url[i] != '?'
  {
    PathHasNoQuery(email);
    UrlLayout(email, secret, issuer);
    QueryAfter("otpauth://totp/" + Text.UrlEncode(email), secret, "&issuer=" + Text.UrlEncode(issuer));
  }

  /** `secret`: `secret` is the new random 32-character secret. */
  function Secret(db: Database, uid: Id, secret: string): (r: Result<SecretOffer>)
    reads db
    ensures uid !in db.users ==> r == Err(LoginRequired)
    ensures uid in db.users && db.users[uid].totpSecret.Some? ==> r == Err(New(AlreadyEnabled))
    ensures uid in db.users && db.users[uid].totpSecret.None? ==>
              r == Ok(SecretOffer(OtpAuthUrl(db.users[uid].email, secret, Issuer), secret))
  {
    var u :- CurrentUser(db, uid);
    if u.totpSecret.Some? then Err(New(AlreadyEnabled))
    else Ok(SecretOffer(OtpAuthUrl(u.email, secret, Issuer), secret))
  }

  datatype TotpEnable = TotpEnable(secret: string, code: string)

  /** The form's validation: a 32-character secret and a 6-character code. */
  function EnableErrors(input: TotpEnable): (v: ValidationErrors)
    ensures v == map[] <==> |input.secret| == 32 && |input.code| == 6
  {
    var s := LengthErrors("secret", input.secret, 32, 32, InvalidSecret);
    var c := LengthErrors("code", input.code, 6, 6, InvalidCode);
    assert s.Keys !! c.Keys;
    s + c
  }

  /** `enable`: the secret is stored only when a code made from it checks out. */
  method Enable(db: Database, crypto: Crypto, uid: Id, input: TotpEnable) returns (r: Result<()>)
    requires db.Valid()
    modifies db`users
    ensures db.Valid()
    ensures r.Err? ==> db.users == old(db.users)
    ensures r == if EnableErrors(input) != map[] then Err(FromValidation(EnableErrors(input)))
                 else if uid !in old(db.users) then Err(LoginRequired)
                 else if old(db.users)[uid].totpSecret.Some? then Err(New(AlreadyEnabled))
                 else if !crypto.totpAccepts(input.secret, input.code) then Err(Field("code", InvalidCode))
                 else Ok(())
    ensures r.Ok? ==> uid in old(db.users) && db.users == WithSecret(old(db.users), uid, Some(input.secret))
  {
    var errors := EnableErrors(input);
    if errors != map[] {
      return Err(FromValidation(errors));
    }
    var u :- CurrentUser(db, uid);
    if u.totpSecret.Some? {
      return Err(New(AlreadyEnabled));
    }
    if !crypto.totpAccepts(input.secret, input.code) {
      return Err(Field("code", InvalidCode));
    }
    db.users := db.users[uid := u.(totpSecret := Some(input.secret))];
    r := Ok(());
  }

  /** `disable`: clears the secret, whether or not one was set. */
  method Disable(db: Database, uid: Id) returns (r: Result<()>)
    requires db.Valid()
    modifies db`users
    ensures db.Valid()
    ensures uid !in old(db.users) ==> r == Err(LoginRequired) && db.users == old(db.users)
    ensures uid in old(db.users) ==>
              r.Ok? && db.users == WithSecret(old(db.users), uid, None)
  {
    var u :- CurrentUser(db, uid);
    db.users := db.users[uid := u.(totpSecret := None)];
    r := Ok(());
  }

  /** The users table after one account's TOTP secret is set (`Some`) or
      cleared (`None`). */
  function WithSecret(users: map<Id, User>, uid: Id, secret: Option<string>): (r: map<Id, User>)
    requires uid in users
    ensures r.Keys == users.Keys
    ensures r[uid].totpSecret == secret
    ensures forall k :: k in users && k != uid ==> r[k] == users[k]
  {
    users[uid := users[uid].(totpSecret := secret)]
  }

  /** A successful `Enable` followed by `Disable` leaves the users table as
      it was before: `Enable` succeeds only for an account without a secret,
      and `Disable` clears exactly what it set. */
  lemma EnableThenDisable(users: map<Id, User>, uid: Id, secret: string)
    requires uid in users && users[uid].totpSecret.None?
    ensures WithSecret(WithSecret(users, uid, Some(secret)), uid, None) == users
  {
    var back := WithSecret(WithSecret(users, uid, Some(secret)), uid, None);
    assert back[uid] == users[uid];
  }
}
