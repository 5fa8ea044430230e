/**
 * Start-up (src/main.rs): the account configured for a fresh installation,
 * and the consumer that delivers the notifications the request handlers queue.
 */
module Server {
  import opened Wrappers
  import opened Errors
  import opened Store
  import opened App
  import Members
  import Notifications
  import Register

  /** The configured default account, when both its address and its
      password are configured. */
  predicate DefaultConfigured(ctx: Context)
  {
    ctx.config.defaultUserEmail.Some? && ctx.config.defaultUserPassword.Some?
  }

  /** A new default account: the address, the password hash and the
      configured timezone; nothing else is set. */
  function DefaultUser(ctx: Context, email: string, passwordHash: seq<bv8>): (u: User)
    ensures u.email == email && u.password == passwordHash && u.timezone == ctx.config.defaultUserTimezone
    ensures u.name.None? && u.passwordResetHash.None? && u.emailVerificationHash.None? && u.totpSecret.None?
  {
    Store.User(email, passwordHash, None, None, None, None, None, None, ctx.config.defaultUserTimezone, None)
  }

  /** The name of the default account's organization: the configured one,
      used as given, else a default name. */
  function DefaultOrganizationName(ctx: Context): (name: string)
    ensures ctx.config.defaultUserOrganization.Some? ==> name == ctx.config.defaultUserOrganization.value
    ensures ctx.config.defaultUserOrganization.None? ==> name == Register.DefaultOrganizationName
  {
    if ctx.config.defaultUserOrganization.Some? then ctx.config.defaultUserOrganization.value
    else Register.DefaultOrganizationName
  }

  /** `create_default_user`. `passwordHash` is the bcrypt hash of the
      configured password. An account that already has the address only gets
      the password back; a new one also gets an organization it owns. */
  method CreateDefaultUser(db: Database, ctx: Context, passwordHash: seq<bv8>, now: Time) returns (r: Result<()>)
    requires db.Valid()
    modifies db`users, db`nextUserId, db`organizations, db`nextOrganizationId, db`memberships
    ensures db.Valid()
    ensures !DefaultConfigured(ctx) ==> r.Ok? && unchanged(db)
    ensures DefaultConfigured(ctx) && Members.Registered(old(db.users), ctx.config.defaultUserEmail.value) ==>
              r.Ok? && db.organizations == old(db.organizations) && db.memberships == old(db.memberships) &&
              exists k :: k in old(db.users) && old(db.users)[k].email == ctx.config.defaultUserEmail.value &&
                db.users == old(db.users)[k := old(db.users)[k].(password := passwordHash)]
    ensures DefaultConfigured(ctx) && !Members.Registered(old(db.users), ctx.config.defaultUserEmail.value) ==>
              exists k: Id, o: Id :: k !in old(db.users) && o !in old(db.organizations) &&
                db.users == old(db.users)[k := DefaultUser(ctx, ctx.config.defaultUserEmail.value, passwordHash)] &&
                db.organizations == old(db.organizations)[o := Register.StartingOrganization(
                  DefaultOrganizationName(ctx), ctx.requestsLimit, now)] &&
                if (k, o) in old(db.memberships) then r == Err(Internal(DuplicateMembership)) && db.memberships == old(db.memberships)
                else r.Ok? && db.memberships == old(db.memberships)[(k, o) := Owner]
  {
    if !DefaultConfigured(ctx) {
      return Ok(());
    }
    var email := ctx.config.defaultUserEmail.value;
    var found := FindUser(db, (u: User) => u.email == email);
    if found.Some? {
      var k := found.value;
      db.users := db.users[k := db.users[k].(password := passwordHash)];
      return Ok(());
    }
    var k := db.InsertUser(DefaultUser(ctx, email, passwordHash));
    var o;
    r, o := Register.OwnOrganization(db, k, Register.StartingOrganization(DefaultOrganizationName(ctx), ctx.requestsLimit, now));
  }

  /** What sending one notification does: with a status, the users holding
      a settings row for the project are the recipients, each once; the
      deliveries planned for them and for the project's channels are
      attempted; and exactly the failed ones are logged, in order. */
  ghost predicate Handled(db: Database, ctx: Context, n: Notifications.Notification, reaches: Notifications.Delivery -> bool,
                          recipients: seq<Id>, attempted: seq<Notifications.Delivery>, logged: seq<Notifications.Delivery>)
    reads db
  {
    && (n.status.None? ==> recipients == [] && attempted == [] && logged == [])
    && (forall u :: u in recipients <==> n.status.Some? && u in db.users && (n.projectId, u) in db.settings)
    && (forall i, j :: 0 <= i < j < |recipients| ==> recipients[i] != recipients[j])
    && attempted == Notifications.Planned(ctx, n, Notifications.RecipientRows(db, n.projectId, recipients))
    && logged == Notifications.Failures(ctx, attempted, reaches)
  }

  /** One turn of the notification task: the notification is sent, and the
      deliveries that failed are logged. */
  method Handle(db: Database, ctx: Context, n: Notifications.Notification, reaches: Notifications.Delivery -> bool)
    returns (recipients: seq<Id>, attempted: seq<Notifications.Delivery>, logged: seq<Notifications.Delivery>)
    ensures n.status.None? ==> recipients == [] && attempted == [] && logged == []
    ensures forall u :: u in recipients <==> n.status.Some? && u in db.users && (n.projectId, u) in db.settings
    ensures forall i, j :: 0 <= i < j < |recipients| ==> recipients[i] != recipients[j]
    ensures attempted == Notifications.Planned(ctx, n, Notifications.RecipientRows(db, n.projectId, recipients))
    ensures logged == Notifications.Failures(ctx, attempted, reaches)
  {
    var answer;
    answer, recipients, attempted, logged := Notifications.Send(db, ctx, n, reaches);
  }

  /** The notification task: takes queued notifications oldest first and
      sends each, logging failures, until none is left to wait for. Returns
      the notifications in the order they were sent, and for each its
      recipients, the deliveries attempted and those logged as failed. */
  method Consume(db: Database, ctx: Context, queue: Notifications.Queue, reaches: Notifications.Delivery -> bool)
    returns (sent: seq<Notifications.Notification>, recipients: seq<seq<Id>>,
             attempted: seq<seq<Notifications.Delivery>>, logged: seq<seq<Notifications.Delivery>>)
    modifies queue
    ensures sent == old(queue.pending) && queue.pending == []
    ensures queue.closed == old(queue.closed)
    ensures |recipients| == |attempted| == |logged| == |sent|
    ensures forall i :: 0 <= i < |sent| ==> Handled(db, ctx, sent[i], reaches, recipients[i], attempted[i], logged[i])
  {
    sent, recipients, attempted, logged := [], [], [], [];
    while true
      invariant old(queue.pending) == sent + queue.pending
      invariant queue.closed == old(queue.closed)
      invariant |recipients| == |attempted| == |logged| == |sent|
      invariant forall i :: 0 <= i < |sent| ==> Handled(db, ctx, sent[i], reaches, recipients[i], attempted[i], logged[i])
      decreases |queue.pending|
    {
      var n := queue.Pop();
      if n.None? {
        break;
      }
      var rs, ds, fs := Handle(db, ctx, n.value, reaches);
      sent, recipients, attempted, logged := sent + [n.value], recipients + [rs], attempted + [ds], logged + [fs];
    }
  }
}
