/**
 * Confirming an address (src/handlers/auth/verify_email.rs): the link's code
 * names the account, whatever its age, and the browser that follows it is
 * trusted from then on.
 */
module VerifyEmail {
  import opened Wrappers
  import opened Errors
  import opened Store
  import opened Sessions

  const RequestNotFound := "Email verification request not found or expired."

  /** The account once its address is confirmed. */
  function Confirmed(u: User): (v: User)
    ensures v.emailVerificationHash.None? && v.emailVerificationHashCreated.None?
    ensures v.(emailVerificationHash := u.emailVerificationHash,
               emailVerificationHashCreated := u.emailVerificationHashCreated) == u
  {
    u.(emailVerificationHash := None, emailVerificationHashCreated := None)
  }

  ghost predicate Awaiting(users: map<Id, User>, hash: string)
  {
    exists k :: k in users && users[k].emailVerificationHash == Some(hash)
  }

  /** `verify_email`. No expiry is checked: the creation time of the code is
      not read. */
  method VerifyEmail(db: Database, session: Session, hash: string) returns (r: Result<()>)
    requires db.Valid()
    modifies db`users, session`seen
    ensures db.Valid()
    ensures !Awaiting(old(db.users), hash) ==>
              r == Err(New(RequestNotFound)) && db.users == old(db.users) && session.seen == old(session.seen)
    ensures Awaiting(old(db.users), hash) ==>
              r.Ok? &&
              exists k :: k in old(db.users) && old(db.users)[k].emailVerificationHash == Some(hash) &&
                db.users == old(db.users)[k := Confirmed(old(db.users)[k])] &&
                session.seen == old(session.seen) + {k}
  {
    var found := FindUser(db, (u: User) => u.emailVerificationHash == Some(hash));
    if found.None? {
      return Err(New(RequestNotFound));
    }
    var k := found.value;
    db.users := db.users[k := Confirmed(db.users[k])];
    session.MarkSeen(k);
    r := Ok(());
  }
}
