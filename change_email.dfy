/**
 * Completing an address change (src/handlers/auth/change_email.rs). The
 * link carries the account id and the new address, encrypted and signed
 * with the cookie key, so only the server can have made it.
 */
module ChangeEmail {
  import opened Wrappers
  import opened Errors
  import opened Store
  import opened App
  import Configuration
  import Members

  /** The link's payload: the account and its new address. Its definition
      in src/handlers/auth.rs is not part of this model; its two fields are
      those the handler reads. */
  datatype EmailChangePayload = EmailChangePayload(id: Id, newEmail: string)

  /** The decoding of the link: opening the private cookie with the key
      (`None` when it does not authenticate) and parsing the JSON it holds
      (`None` when it does not parse). */
  datatype PayloadCodec = PayloadCodec(
    unseal: (Configuration.CookieSecret, string) -> Option<string>,
    parse: string -> Option<EmailChangePayload>)

  const InvalidRequest := "Invalid email change request."
  const EmailTaken := "Another account with the same email is already registered"
  const RequestNotFound := "Email change request not found or expired."

  /** `change_email`. */
  method ChangeEmail(db: Database, ctx: Context, codec: PayloadCodec, payload: string) returns (r: Result<()>)
    requires db.Valid()
    modifies db`users
    ensures db.Valid()
    ensures r.Err? ==> db.users == old(db.users)
    ensures codec.unseal(ctx.config.cookieSecret, payload).None? ==> r == Err(New(InvalidRequest))
    ensures (codec.unseal(ctx.config.cookieSecret, payload).Some? &&
             codec.parse(codec.unseal(ctx.config.cookieSecret, payload).value).None?) ==> r.Err? && r.error.Internal?
    ensures (codec.unseal(ctx.config.cookieSecret, payload).Some? &&
             codec.parse(codec.unseal(ctx.config.cookieSecret, payload).value).Some?) ==>
              var p := codec.parse(codec.unseal(ctx.config.cookieSecret, payload).value).value;
              if Members.Registered(old(db.users), p.newEmail) then r == Err(New(EmailTaken))
              else if p.id !in old(db.users) then r == Err(New(RequestNotFound))
              else r.Ok? && db.users == old(db.users)[p.id := old(db.users)[p.id].(email := p.newEmail)]
  {
    var unsealed := codec.unseal(ctx.config.cookieSecret, payload);
    if unsealed.None? {
      return Err(New(InvalidRequest));
    }
    var parsed := codec.parse(unsealed.value);
    if parsed.None? {
      return Err(Internal("invalid email change payload"));
    }
    var p := parsed.value;
    var holder := FindUser(db, (u: User) => u.email == p.newEmail);
    if holder.Some? {
      return Err(New(EmailTaken));
    }
    if p.id !in db.users {
      return Err(New(RequestNotFound));
    }
    db.users := db.users[p.id := db.users[p.id].(email := p.newEmail)];
    r := Ok(());
  }

  /** After a change no other account holds the new address, and the
      account's other fields are as they were. */
  lemma ChangeKeepsAddressesApart(users: map<Id, User>, p: EmailChangePayload)
    requires !Members.Registered(users, p.newEmail) && p.id in users
    ensures var after := users[p.id := users[p.id].(email := p.newEmail)];
            (forall k :: k in after && after[k].email == p.newEmail ==> k == p.id) &&
            after[p.id].(email := users[p.id].email) == users[p.id]
  {
  }
}
