/**
 * Registration (src/handlers/auth/register.rs). A new account either joins
 * every organization it was invited to, by its address or by the invitation
 * link it followed, or, when nothing invites it, gets an organization of its
 * own. Rows written before a failure stay written: the handler does not run
 * in a transaction.
 */
module Register {
  import opened Wrappers
  import opened Errors
  import opened Store
  import opened App
  import Ordering
  import Organizations
  import Members

  datatype RegistrationRequest = RegistrationRequest(
    email: string,
    password: string,
    name: Option<string>,
    company: Option<string>,
    timezone: Option<string>,
    inviteSlug: Option<string>)

  const RegistrationDisabled := "Registration is disabled"
  const AlreadyRegistered := "Account already exists. Please login instead."
  const DefaultOrganizationName := "Default Organization"
  const ConfirmSubject := "Please confirm your e-mail address"

  /** An optional text that counts as absent when it is empty. */
  function NonEmpty(s: Option<string>): (r: Option<string>)
    ensures r.Some? <==> s.Some? && s.value != ""
    ensures r.Some? ==> r == s
  {
    if s.Some? && s.value != "" then s else None
  }

  /** The timezone the account gets: the requested one when it names a
      timezone, otherwise the configured default. */
  function TimezoneFor(ctx: Context, requested: Option<string>): (tz: string)
    ensures requested.Some? && ctx.checks.isTimezone(requested.value) ==> tz == requested.value
    ensures !(requested.Some? && ctx.checks.isTimezone(requested.value)) ==> tz == ctx.config.defaultUserTimezone
  {
    if requested.Some? && ctx.checks.isTimezone(requested.value) then requested.value
    else ctx.config.defaultUserTimezone
  }

  /** The account row. `passwordHash` is the bcrypt hash of the password and
      `verificationHash` the random 64-character code of the confirmation
      link; both are made outside the model. */
  function NewUser(ctx: Context, form: RegistrationRequest, passwordHash: seq<bv8>, verificationHash: string, now: Time): (u: User)
    ensures u.email == form.email && u.password == passwordHash && u.name == NonEmpty(form.name)
    ensures u.timezone == TimezoneFor(ctx, form.timezone)
    ensures u.emailVerificationHash.Some? <==> ctx.config.requireEmailVerification
    ensures u.emailVerificationHashCreated.Some? <==> ctx.config.requireEmailVerification
    ensures ctx.config.requireEmailVerification ==>
              u.emailVerificationHash == Some(verificationHash) && u.emailVerificationHashCreated == Some(now)
    ensures u.passwordResetHash.None? && u.passwordResetHashCreated.None? && u.totpSecret.None? && u.pushoverUserKey.None?
  {
    var required := ctx.config.requireEmailVerification;
    Store.User(form.email, passwordHash, NonEmpty(form.name), None, None,
         if required then Some(verificationHash) else None,
         if required then Some(now) else None,
         None, TimezoneFor(ctx, form.timezone), None)
  }

  /** The organization a new account starts with: enabled, with the configured
      request limit, no request count yet, a counting period starting now
      exactly when there is a limit, and no alert threshold. */
  function StartingOrganization(name: string, requestsLimit: Option<nat>, now: Time): (o: Organization)
    ensures o.name == name && o.requestsLimit == requestsLimit && o.isEnabled == 1
    ensures o.requestsCountStart.Some? <==> requestsLimit.Some?
    ensures o.requestsCountStart.Some? ==> o.requestsCountStart.value == now
    ensures o.requestsCount.None? && o.requestsAlertThreshold.None?
  {
    Organization(name, requestsLimit, None, if requestsLimit.Some? then Some(now) else None, 1, None)
  }

  /** The name of the organization of an account nobody invited: the
      company given with the form, or a default name when none is given. */
  function OrganizationName(form: RegistrationRequest): (name: string)
    ensures name == if form.company.Some? && form.company.value != "" then form.company.value else DefaultOrganizationName
  {
    var company := NonEmpty(form.company);
    if company.Some? then company.value else DefaultOrganizationName
  }

  /** An invitation addressed to the new account, or the one whose link it followed. */
  predicate Invites(i: Invitation, form: RegistrationRequest)
  {
    i.email == form.email || (form.inviteSlug.Some? && i.slug == form.inviteSlug.value)
  }

  function MatchingInvitations(invitations: map<Id, Invitation>, form: RegistrationRequest): (s: set<Id>)
    ensures forall k :: k in s <==> k in invitations && Invites(invitations[k], form)
  {
    set k | k in invitations && Invites(invitations[k], form)
  }

  /** The ids of `s` in the order the model reads rows: ascending. */
  ghost function InOrder(s: set<Id>): (xs: seq<Id>)
    ensures forall x :: x in xs <==> x in s
  {
    Ordering.IdBeforeIsTotal();
    Ordering.ListingProperties(s, Ordering.IdBefore);
    Ordering.Ascending(s)
  }

  /** The state after accepting invitations. */
  datatype Acceptance = Acceptance(memberships: map<(Id, Id), string>, invitations: map<Id, Invitation>, ok: bool)

  /** Accepting the invitations `ids` (as read in `snapshot`) for `uid`, one
      after the other: each adds a membership with the invitation's role and
      deletes the invitation, until a membership for the same organization
      already exists, where accepting stops and fails. */
  function Accept(memberships: map<(Id, Id), string>, invitations: map<Id, Invitation>,
                  snapshot: map<Id, Invitation>, uid: Id, ids: seq<Id>): (a: Acceptance)
    requires forall x :: x in ids ==> x in snapshot
    decreases |ids|
  {
    if ids == [] then Acceptance(memberships, invitations, true)
    else
      var i := snapshot[ids[0]];
      if (uid, i.organizationId) in memberships then Acceptance(memberships, invitations, false)
      else Accept(memberships[(uid, i.organizationId) := i.role], invitations - {ids[0]}, snapshot, uid, ids[1..])
  }

  /** The memberships accepting `ids` for `uid` would add. */
  function Joined(snapshot: map<Id, Invitation>, uid: Id, ids: seq<Id>): set<(Id, Id)>
    requires forall x :: x in ids ==> x in snapshot
  {
    set x | x in ids :: (uid, snapshot[x].organizationId)
  }

  /** Accepting never takes back a membership or brings back an invitation. */
  lemma {:induction false} AcceptKeeps(memberships: map<(Id, Id), string>, invitations: map<Id, Invitation>,
                                       snapshot: map<Id, Invitation>, uid: Id, ids: seq<Id>)
    requires forall x :: x in ids ==> x in snapshot
    ensures var a := Accept(memberships, invitations, snapshot, uid, ids);
            (forall k :: k in memberships ==> k in a.memberships && a.memberships[k] == memberships[k]) &&
            a.invitations.Keys <= invitations.Keys
    decreases |ids|
  {
    if ids != [] {
      var i := snapshot[ids[0]];
      if (uid, i.organizationId) !in memberships {
        AcceptKeeps(memberships[(uid, i.organizationId) := i.role], invitations - {ids[0]}, snapshot, uid, ids[1..]);
      }
    }
  }

  /** Invitations to distinct organizations the account is not yet in are
      all accepted: each becomes a membership with its role and is deleted,
      and nothing else changes. */
  lemma {:induction false} AcceptDistinct(memberships: map<(Id, Id), string>, invitations: map<Id, Invitation>,
                                          snapshot: map<Id, Invitation>, uid: Id, ids: seq<Id>)
    requires forall x :: x in ids ==> x in snapshot
    requires forall j, k :: 0 <= j < k < |ids| ==> snapshot[ids[j]].organizationId != snapshot[ids[k]].organizationId
    requires forall x :: x in ids ==> (uid, snapshot[x].organizationId) !in memberships
    ensures var a := Accept(memberships, invitations, snapshot, uid, ids);
            a.ok &&
            a.invitations == invitations - (set x | x in ids) &&
            a.memberships.Keys == memberships.Keys + Joined(snapshot, uid, ids) &&
            (forall x :: x in ids ==> a.memberships[(uid, snapshot[x].organizationId)] == snapshot[x].role) &&
            (forall k :: k in memberships ==> a.memberships[k] == memberships[k])
    decreases |ids|
  {
    var a := Accept(memberships, invitations, snapshot, uid, ids);
    if ids != [] {
      var i := snapshot[ids[0]];
      var m' := memberships[(uid, i.organizationId) := i.role];
      var rest := ids[1..];
      forall x | x in rest ensures (uid, snapshot[x].organizationId) !in m' {
        var k :| 0 <= k < |rest| && rest[k] == x;
        assert rest[k] == ids[k + 1];
      }
      forall j, k | 0 <= j < k < |rest|
        ensures snapshot[rest[j]].organizationId != snapshot[rest[k]].organizationId
      {
        assert rest[j] == ids[j + 1] && rest[k] == ids[k + 1];
      }
      AcceptDistinct(m', invitations - {ids[0]}, snapshot, uid, rest);
      SplitFirst(snapshot, uid, ids);
      forall x | x in ids
        ensures a.memberships[(uid, snapshot[x].organizationId)] == snapshot[x].role
      {
        if x != ids[0] {
          assert x in rest;
        }
      }
    }
  }

  /** The ids of a sequence, and the memberships they add, are those of its
      first element and those of the rest. */
  lemma SplitFirst(snapshot: map<Id, Invitation>, uid: Id, ids: seq<Id>)
    requires ids != [] && forall x :: x in ids ==> x in snapshot
    ensures (set x | x in ids) == {ids[0]} + (set x | x in ids[1..])
    ensures Joined(snapshot, uid, ids) == {(uid, snapshot[ids[0]].organizationId)} + Joined(snapshot, uid, ids[1..])
  {
    assert ids == [ids[0]] + ids[1..];
  }

  /** Two invitations to the same organization cannot both be accepted:
      accepting fails. */
  lemma {:induction false} AcceptRepeatFails(memberships: map<(Id, Id), string>, invitations: map<Id, Invitation>,
                                             snapshot: map<Id, Invitation>, uid: Id, ids: seq<Id>, j: nat, k: nat)
    requires forall x :: x in ids ==> x in snapshot
    requires j < k < |ids| && snapshot[ids[j]].organizationId == snapshot[ids[k]].organizationId
    ensures !Accept(memberships, invitations, snapshot, uid, ids).ok
    decreases |ids|
  {
    var i := snapshot[ids[0]];
    if (uid, i.organizationId) !in memberships {
      var m' := memberships[(uid, i.organizationId) := i.role];
      var rest := ids[1..];
      if j == 0 {
        assert rest[k - 1] == ids[k];
        AcceptStopsAt(m', invitations - {ids[0]}, snapshot, uid, rest, k - 1);
      } else {
        assert rest[j - 1] == ids[j] && rest[k - 1] == ids[k];
        AcceptRepeatFails(m', invitations - {ids[0]}, snapshot, uid, rest, j - 1, k - 1);
      }
    }
  }

  /** Accepting fails when a later invitation is for an organization the
      account is already in. */
  lemma {:induction false} AcceptStopsAt(memberships: map<(Id, Id), string>, invitations: map<Id, Invitation>,
                                         snapshot: map<Id, Invitation>, uid: Id, ids: seq<Id>, k: nat)
    requires forall x :: x in ids ==> x in snapshot
    requires k < |ids| && (uid, snapshot[ids[k]].organizationId) in memberships
    ensures !Accept(memberships, invitations, snapshot, uid, ids).ok
    decreases |ids|
  {
    var i := snapshot[ids[0]];
    if k > 0 && (uid, i.organizationId) !in memberships {
      var rest := ids[1..];
      assert rest[k - 1] == ids[k];
      AcceptStopsAt(memberships[(uid, i.organizationId) := i.role], invitations - {ids[0]}, snapshot, uid, rest, k - 1);
    }
  }

  /** The acceptance loop of `create_user`. */
  method AcceptInvitations(db: Database, uid: Id, snapshot: map<Id, Invitation>, ids: seq<Id>) returns (r: Result<()>)
    requires db.Valid()
    requires forall x :: x in ids ==> x in snapshot
    modifies db`memberships, db`invitations
    ensures db.Valid()
    ensures var a := Accept(old(db.memberships), old(db.invitations), snapshot, uid, ids);
            db.memberships == a.memberships && db.invitations == a.invitations &&
            (r.Ok? <==> a.ok) && (r.Err? ==> r.error == Internal(DuplicateMembership))
  {
    var i := 0;
    while i < |ids|
      invariant 0 <= i <= |ids|
      invariant db.Valid()
      invariant Accept(old(db.memberships), old(db.invitations), snapshot, uid, ids) ==
                Accept(db.memberships, db.invitations, snapshot, uid, ids[i..])
    {
      var invitation := snapshot[ids[i]];
      assert ids[i..][0] == ids[i] && ids[i..][1..] == ids[i + 1..];
      r := db.InsertMembership(uid, invitation.organizationId, invitation.role);
      if r.Err? {
        return;
      }
      db.invitations := db.invitations - {ids[i]};
      i := i + 1;
    }
    r := Ok(());
  }

  /** The organization a new account owns when nothing invites it. */
  method OwnOrganization(db: Database, uid: Id, o: Organization) returns (r: Result<()>, id: Id)
    requires db.Valid()
    modifies db`organizations, db`nextOrganizationId, db`memberships
    ensures db.Valid()
    ensures id !in old(db.organizations) && db.organizations == old(db.organizations)[id := o]
    ensures (uid, id) in old(db.memberships) ==> r == Err(Internal(DuplicateMembership)) && db.memberships == old(db.memberships)
    ensures (uid, id) !in old(db.memberships) ==> r.Ok? && db.memberships == old(db.memberships)[(uid, id) := Owner]
    ensures Organizations.MembershipsResolve(old(db.memberships), old(db.nextOrganizationId)) ==> r.Ok?
  {
    id := db.InsertOrganization(o);
    r := db.InsertMembership(uid, id, Owner);
  }

  /** What `create_user` does to organizations, memberships and invitations
      once account `uid` is inserted (`0` before, `1` after). Without a
      matching invitation the account owns a new organization; otherwise its
      invitations are accepted in id order. `ok` is false when a membership
      insert met an existing row. */
  ghost predicate Settled(ctx: Context, form: RegistrationRequest, now: Time, uid: Id,
                         orgs0: map<Id, Organization>, mems0: map<(Id, Id), string>, invs0: map<Id, Invitation>,
                         orgs1: map<Id, Organization>, mems1: map<(Id, Id), string>, invs1: map<Id, Invitation>,
                         ok: bool)
  {
    var matching := MatchingInvitations(invs0, form);
    if matching == {} then
      invs1 == invs0 &&
      exists o: Id :: o !in orgs0 &&
        orgs1 == orgs0[o := StartingOrganization(OrganizationName(form), ctx.requestsLimit, now)] &&
        if (uid, o) in mems0 then !ok && mems1 == mems0 else ok && mems1 == mems0[(uid, o) := Owner]
    else
      var a := Accept(mems0, invs0, invs0, uid, InOrder(matching));
      orgs1 == orgs0 && mems1 == a.memberships && invs1 == a.invitations && ok == a.ok
  }

  /** `create_user`: inserts the account, then either accepts its invitations
      (in id order) or gives it an organization it owns, then mails the
      confirmation link when addresses must be confirmed. Returns the new
      account's id and the mail it attempted. */
  method CreateUser(db: Database, ctx: Context, form: RegistrationRequest,
                    passwordHash: seq<bv8>, verificationHash: string, now: Time)
    returns (r: Result<()>, uid: Id, mail: Option<Mail>, ghost joined: bool)
    requires db.Valid()
    modifies db`users, db`nextUserId, db`organizations, db`nextOrganizationId, db`memberships, db`invitations
    ensures db.Valid()
    ensures uid !in old(db.users) && db.users == old(db.users)[uid := NewUser(ctx, form, passwordHash, verificationHash, now)]
    // Its own organization or its invitations; `joined` is false when a
    // membership insert met a duplicate, which stops the registration.
    ensures Settled(ctx, form, now, uid, old(db.organizations), old(db.memberships), old(db.invitations),
                   db.organizations, db.memberships, db.invitations, joined)
    ensures !joined ==> r == Err(Internal(DuplicateMembership)) && mail.None?
    ensures Organizations.MembershipsResolve(old(db.memberships), old(db.nextOrganizationId)) ==>
              MatchingInvitations(old(db.invitations), form) == {} ==> r != Err(Internal(DuplicateMembership))
    // The confirmation mail, once the memberships are written.
    ensures mail.Some? ==> ctx.config.requireEmailVerification && r == SendOrRefuse(ctx, mail.value) &&
                           mail.value == Mail(form.email, ConfirmSubject, "email/confirmation")
    ensures mail.None? && r.Ok? ==> !ctx.config.requireEmailVerification
  {
    mail, joined := None, true;
    uid := db.InsertUser(NewUser(ctx, form, passwordHash, verificationHash, now));
    var matching := MatchingInvitations(db.invitations, form);
    var ids := Ordering.SortIds(matching);
    if matching == {} {
      var o;
      r, o := OwnOrganization(db, uid, StartingOrganization(OrganizationName(form), ctx.requestsLimit, now));
      if r.Err? {
        joined := false;
        return;
      }
    } else {
      var invitations := db.invitations;
      r := AcceptInvitations(db, uid, invitations, ids);
      if r.Err? {
        joined := false;
        return;
      }
    }
    if ctx.config.requireEmailVerification {
      mail := Some(Mail(form.email, ConfirmSubject, "email/confirmation"));
      r := SendOrRefuse(ctx, mail.value);
    }
  }

  /** How `register` reports a failure of `create_user`: as a user error
      carrying the failure's text, where a database or transport failure's
      text is the cause the model records for it. */
  function Reported(e: Error): (r: Error)
    ensures r.User? && r.user.kind.None?
    ensures e.User? ==> r.user.message == e.user.message
    ensures e.Internal? ==> r.user.message == e.cause
  {
    match e
    case Internal(cause) => New(cause)
    case _ => New(Display(e))
  }

  /** `register`. On success answers whether the address must be confirmed. */
  method Register(db: Database, ctx: Context, form: RegistrationRequest,
                  passwordHash: seq<bv8>, verificationHash: string, now: Time)
    returns (r: Result<bool>, mail: Option<Mail>)
    requires db.Valid()
    modifies db`users, db`nextUserId, db`organizations, db`nextOrganizationId, db`memberships, db`invitations
    ensures db.Valid()
    ensures !ctx.config.registrationEnabled ==> r == Err(New(RegistrationDisabled)) && unchanged(db) && mail.None?
    ensures ctx.config.registrationEnabled && CredentialErrors(ctx, form.email, form.password) != map[] ==>
              r == Err(FromValidation(CredentialErrors(ctx, form.email, form.password))) && unchanged(db) && mail.None?
    ensures ctx.config.registrationEnabled && CredentialErrors(ctx, form.email, form.password) == map[] &&
            Members.Registered(old(db.users), form.email) ==>
              r == Err(New(AlreadyRegistered)) && unchanged(db) && mail.None?
    ensures ctx.config.registrationEnabled && CredentialErrors(ctx, form.email, form.password) == map[] &&
            !Members.Registered(old(db.users), form.email) ==>
              // The account exists whether or not a later step failed.
              (exists uid: Id, ok: bool :: uid !in old(db.users) &&
                 db.users == old(db.users)[uid := NewUser(ctx, form, passwordHash, verificationHash, now)] &&
                 Settled(ctx, form, now, uid, old(db.organizations), old(db.memberships), old(db.invitations),
                        db.organizations, db.memberships, db.invitations, ok) &&
                 (!ok ==> r.Err? && mail.None?)) &&
              (r.Ok? ==> r.value == ctx.config.requireEmailVerification) &&
              (r.Err? ==> r.error.User?)
    ensures r.Ok? ==> ctx.config.registrationEnabled && CredentialErrors(ctx, form.email, form.password) == map[] &&
                      !Members.Registered(old(db.users), form.email)
  {
    mail := None;
    if !ctx.config.registrationEnabled {
      return Err(New(RegistrationDisabled)), mail;
    }
    var errors := CredentialErrors(ctx, form.email, form.password);
    if errors != map[] {
      return Err(FromValidation(errors)), mail;
    }
    var existing := FindUser(db, (u: User) => u.email == form.email);
    if existing.Some? {
      return Err(New(AlreadyRegistered)), mail;
    }
    assert !Members.Registered(db.users, form.email);
    var created, uid; ghost var joined;
    created, uid, mail, joined := CreateUser(db, ctx, form, passwordHash, verificationHash, now);
    if created.Err? {
      return Err(Reported(created.error)), mail;
    }
    r := Ok(ctx.config.requireEmailVerification);
  }
}
