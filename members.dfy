/**
 * Organization membership (src/handlers/organizations/members.rs): who may
 * grant which role, changing a member's role, removing a member, and
 * inviting by email — directly as a member when the address belongs to a
 * registered user, otherwise as a pending invitation with a random slug.
 */
module Members {
  import opened Wrappers
  import opened Errors
  import opened Store
  import opened App

  /** `validate_role_choice`: whether a caller with role `userRole` may give
      someone the role `role`. A member may give no role, an administrator
      may give member or admin, an owner any of the three. */
  function ValidateRoleChoice(role: string, userRole: string): (r: Option<ValidationError>)
    ensures r.None? <==>
      (userRole == Admin && (role == Member || role == Admin)) ||
      (userRole == Owner && (role == Member || role == Admin || role == Owner))
    ensures r.Some? ==> r.value.code == "forbidden" && r.value.message.Some?
  {
    var forbidden := (message: string) => Some(ValidationError("forbidden", Some(message)));
    if userRole == Member then forbidden("Only admins and owners can set roles")
    else if userRole == Admin then
      if role == Member || role == Admin then None
      else if role == Owner then forbidden("Only owners set other owners")
      else forbidden("Unknown role")
    else if userRole == Owner then
      if role == Member || role == Admin || role == Owner then None
      else forbidden("Unknown role")
    else forbidden("Unknown role")
  }

  /** Only an owner may make someone an owner, and whoever may set a role at
      all may set the member role, so an administrator may demote an owner. */
  lemma OwnersMakeOwners(userRole: string)
    ensures ValidateRoleChoice(Owner, userRole).None? <==> userRole == Owner
    ensures ValidateRoleChoice(Member, userRole).None? <==> IsManager(userRole)
    ensures ValidateRoleChoice(Admin, userRole).None? <==> IsManager(userRole)
  {
  }

  /** The validation errors of the `role` field. */
  function RoleErrors(role: string, userRole: string): (v: ValidationErrors)
    ensures v == map[] <==> ValidateRoleChoice(role, userRole).None?
  {
    match ValidateRoleChoice(role, userRole)
    case None => map[]
    case Some(e) =>
      var v := map["role" := [e]];
      assert "role" in v;
      v
  }

  /** `OrganizationMember`, without the date the member was added. */
  datatype MemberView = MemberView(userId: Id, organizationId: Id, email: string, name: Option<string>, role: string)

  const OwnRole := "You cannot change your own role"

  /** `manage`: sets another member's role. The new role is checked against
      the caller's role; the member's current role is not consulted. */
  method Manage(db: Database, uid: Id, org: Id, target: Id, role: string) returns (r: Result<MemberView>)
    modifies db`memberships
    ensures r.Err? ==> db.memberships == old(db.memberships)
    ensures old(CallerRole(db, uid, org)).Err? ==> r == Err(LoginRequired)
    ensures old(CallerRole(db, uid, org)).Ok? && target == uid ==> r == Err(Field("role", OwnRole))
    ensures (old(CallerRole(db, uid, org)).Ok? && target != uid &&
             (target !in old(db.users) || (target, org) !in old(db.memberships))) ==> r == Err(NotFound)
    ensures old(CallerRole(db, uid, org)).Ok? && target != uid &&
            target in old(db.users) && (target, org) in old(db.memberships) ==>
              r == (if ValidateRoleChoice(role, old(db.memberships)[(uid, org)]).Some?
                    then Err(FromValidation(RoleErrors(role, old(db.memberships)[(uid, org)])))
                    else Ok(MemberView(target, org, old(db.users)[target].email, old(db.users)[target].name, role)))
    ensures r.Ok? ==> db.memberships == old(db.memberships)[(target, org) := role]
  {
    var userRole :- CallerRole(db, uid, org);
    if target == uid {
      return Err(Field("role", OwnRole));
    }
    if target !in db.users || (target, org) !in db.memberships {
      return Err(NotFound);
    }
    var member := db.users[target];
    var errors := RoleErrors(role, userRole);
    if errors != map[] {
      return Err(FromValidation(errors));
    }
    db.memberships := db.memberships[(target, org) := role];
    r := Ok(MemberView(target, org, member.email, member.name, role));
  }

  const PermissionDenied := "Permission denied"
  const RemoveSelf := "You cannot remove yourself from an organization."

  /** `delete`: an administrator or owner removes another member; an
      administrator cannot remove an owner. A caller without those roles
      gets `Ok` and nothing changes. */
  method Delete(db: Database, uid: Id, org: Id, target: Id) returns (r: Result<()>)
    modifies db`memberships
    ensures r.Err? ==> db.memberships == old(db.memberships)
    ensures old(CallerRole(db, uid, org)).Ok? && !IsManager(old(db.memberships)[(uid, org)]) ==>
              db.memberships == old(db.memberships)
    ensures old(CallerRole(db, uid, org)).Err? ==> r == Err(LoginRequired)
    ensures old(CallerRole(db, uid, org)).Ok? ==>
              var userRole := old(db.memberships)[(uid, org)];
              r == if !IsManager(userRole) then Ok(())
                   else if (target, org) !in old(db.memberships) then Err(NotFound)
                   else if old(db.memberships)[(target, org)] == Owner && userRole == Admin then Err(New(PermissionDenied))
                   else if target == uid then Err(New(RemoveSelf))
                   else Ok(())
    ensures r.Ok? && IsManager(old(db.memberships)[(uid, org)]) ==>
              db.memberships == old(db.memberships) - {(target, org)}
  {
    var userRole :- CallerRole(db, uid, org);
    if IsManager(userRole) {
      if (target, org) !in db.memberships {
        return Err(NotFound);
      }
      if db.memberships[(target, org)] == Owner && userRole == Admin {
        return Err(New(PermissionDenied));
      }
      if target == uid {
        return Err(New(RemoveSelf));
      }
      db.memberships := db.memberships - {(target, org)};
    }
    r := Ok(());
  }

  datatype InviteInput = InviteInput(email: string, role: string)

  /** The validation errors of the invitation form: a valid address of at
      most 320 characters, and a role the caller may give. */
  function InviteErrors(ctx: Context, input: InviteInput, userRole: string): (v: ValidationErrors)
    ensures v == map[] <==>
      ctx.checks.isEmail(input.email) && |input.email| <= 320 && ValidateRoleChoice(input.role, userRole).None?
    ensures "email" in v <==> !ctx.checks.isEmail(input.email) || |input.email| > 320
  {
    var v: ValidationErrors := RoleErrors(input.role, userRole);
    var v := if ctx.checks.isEmail(input.email) then v
      else AddError(v, "email", ValidationError("email", Some("A valid email address is required")));
    if |input.email| <= 320 then v
    else AddError(v, "email", ValidationError("length", Some("Must be less than 320 chars")))
  }

  const Product := " organization in Don't Panic"

  /** Subject of the invitation mail, naming the inviter when they have a name. */
  function InvitationSubject(inviter: User, organization: Organization): string
  {
    if inviter.name.Some? then inviter.name.value + " has invited you to join the " + organization.name + Product
    else "You have been invited to the " + organization.name + Product
  }

  const AlreadyMember := "User is already a member of this organization"
  const AlreadyInvited := "Email already invited"

  /** The registered user with this address, if any. */
  ghost predicate Registered(users: map<Id, User>, email: string)
  {
    exists k :: k in users && users[k].email == email
  }

  /** An invitation of the organization to this address exists. */
  ghost predicate Invited(invitations: map<Id, Invitation>, org: Id, email: string)
  {
    exists k :: k in invitations && invitations[k].organizationId == org && invitations[k].email == email
  }

  /** `invite`. A registered address becomes a member at once and is told so
      (the mail is skipped without a mailer); any other address gets an
      invitation carrying `slug`, the random 64-character code of the
      invitation link, which a release build refuses to create without a
      mailer. Returns the mail that was attempted, if any. */
  method Invite(db: Database, ctx: Context, uid: Id, org: Id, input: InviteInput, slug: string)
    returns (r: Result<()>, mail: Option<Mail>)
    requires db.Valid()
    modifies db`memberships, db`invitations, db`nextInvitationId
    ensures db.Valid()
    ensures old(CallerRole(db, uid, org)).Err? ==> r == Err(LoginRequired) && unchanged(db) && mail.None?
    ensures old(CallerRole(db, uid, org)).Ok? && org !in old(db.organizations) ==> r == Err(NotFound) && unchanged(db) && mail.None?
    ensures old(CallerRole(db, uid, org)).Ok? && org in old(db.organizations) &&
            InviteErrors(ctx, input, old(db.memberships)[(uid, org)]) != map[] ==>
              r == Err(FromValidation(InviteErrors(ctx, input, old(db.memberships)[(uid, org)]))) && unchanged(db) && mail.None?
    // A registered address.
    ensures old(CallerRole(db, uid, org)).Ok? && org in old(db.organizations) &&
            InviteErrors(ctx, input, old(db.memberships)[(uid, org)]) == map[] &&
            Registered(old(db.users), input.email) ==>
              db.invitations == old(db.invitations) &&
              exists k :: k in old(db.users) && old(db.users)[k].email == input.email &&
                if (k, org) in old(db.memberships)
                then r == Err(Field("email", AlreadyMember)) && db.memberships == old(db.memberships) && mail.None?
                else db.memberships == old(db.memberships)[(k, org) := input.role] &&
                     mail == Some(Mail(input.email, "You have been added to the " +
                                       old(db.organizations)[org].name + Product, "email/org_member_added")) &&
                     r == SendMail(ctx, mail.value, false)
    // An unregistered address.
    ensures old(CallerRole(db, uid, org)).Ok? && org in old(db.organizations) &&
            InviteErrors(ctx, input, old(db.memberships)[(uid, org)]) == map[] &&
            !Registered(old(db.users), input.email) ==>
              db.memberships == old(db.memberships) &&
              if Invited(old(db.invitations), org, input.email) then
                r == Err(Field("email", AlreadyInvited)) && db.invitations == old(db.invitations) && mail.None?
              else if exists k :: k in old(db.invitations) && old(db.invitations)[k].slug == slug then
                r.Err? && r.error.Internal? && db.invitations == old(db.invitations) && mail.None?
              else
                exists k: Id :: k !in old(db.invitations) &&
                  db.invitations == old(db.invitations)[k := Invitation(org, input.email, input.role, slug)] &&
                  mail == Some(Mail(input.email, InvitationSubject(old(db.users)[uid], old(db.organizations)[org]),
                                    "email/org_invitation")) &&
                  r == SendMail(ctx, mail.value, true)
  {
    mail := None;
    var userRole :- CallerRole(db, uid, org);
    if org !in db.organizations {
      return Err(NotFound), mail;
    }
    var organization := db.organizations[org];
    var errors := InviteErrors(ctx, input, userRole);
    if errors != map[] {
      return Err(FromValidation(errors)), mail;
    }
    var registered := set k | k in db.users && db.users[k].email == input.email;
    assert forall k :: k in db.users && db.users[k].email == input.email ==> k in registered;
    if registered != {} {
      var member :| member in registered;
      if (member, org) in db.memberships {
        return Err(Field("email", AlreadyMember)), mail;
      }
      db.memberships := db.memberships[(member, org) := input.role];
      mail := Some(Mail(input.email, "You have been added to the " + organization.name + Product, "email/org_member_added"));
      r := SendMail(ctx, mail.value, false);
    } else {
      var invited := set k | k in db.invitations && db.invitations[k].organizationId == org && db.invitations[k].email == input.email;
      assert forall k :: (k in db.invitations && db.invitations[k].organizationId == org &&
                          db.invitations[k].email == input.email) ==> k in invited;
      if invited != {} {
        return Err(Field("email", AlreadyInvited)), mail;
      }
      var clashing := set k | k in db.invitations && db.invitations[k].slug == slug;
      assert forall k :: k in db.invitations && db.invitations[k].slug == slug ==> k in clashing;
      if clashing != {} {
        return Err(Internal("duplicate invitation slug")), mail;
      }
      var _ := db.InsertInvitation(Invitation(org, input.email, input.role, slug));
      mail := Some(Mail(input.email, InvitationSubject(db.users[uid], organization), "email/org_invitation"));
      r := SendMail(ctx, mail.value, true);
    }
  }

  const OnlyManagersDeleteInvites := "Only admins and owners can delete invites"

  /** `delete_invite`: an administrator or owner withdraws an invitation of
      the organization. */
  method DeleteInvite(db: Database, uid: Id, org: Id, invitation: Id) returns (r: Result<()>)
    modifies db`invitations
    ensures r.Err? ==> db.invitations == old(db.invitations)
    ensures r == match old(CallerRole(db, uid, org))
                 case Err(e) => Err(e)
                 case Ok(userRole) =>
                   if !IsManager(userRole) then Err(New(OnlyManagersDeleteInvites))
                   else if invitation !in old(db.invitations) || old(db.invitations)[invitation].organizationId != org
                   then Err(NotFound)
                   else Ok(())
    ensures r.Ok? ==> db.invitations == old(db.invitations) - {invitation}
  {
    var userRole :- CallerRole(db, uid, org);
    if !IsManager(userRole) {
      return Err(New(OnlyManagersDeleteInvites));
    }
    if invitation !in db.invitations || db.invitations[invitation].organizationId != org {
      return Err(NotFound);
    }
    db.invitations := db.invitations - {invitation};
    r := Ok(());
  }

  /** `resend_invite`: mails the organization's invitation to `email` again.
      The organization is looked up before the caller. Nothing is written. */
  method ResendInvite(db: Database, ctx: Context, uid: Id, org: Id, email: string)
    returns (r: Result<()>, mail: Option<Mail>)
    ensures org !in db.organizations ==> r == Err(NotFound) && mail.None?
    ensures org in db.organizations && CallerRole(db, uid, org).Err? ==> r == Err(LoginRequired) && mail.None?
    ensures org in db.organizations && CallerRole(db, uid, org).Ok? ==>
              if Invited(db.invitations, org, email)
              then mail == Some(Mail(email, InvitationSubject(db.users[uid], db.organizations[org]), "email/org_invitation")) &&
                   r == SendMail(ctx, mail.value, true)
              else r == Err(NotFound) && mail.None?
  {
    mail := None;
    if org !in db.organizations {
      return Err(NotFound), mail;
    }
    var organization := db.organizations[org];
    var _ :- CallerRole(db, uid, org);
    var user := db.users[uid];
    var invited := set k | k in db.invitations && db.invitations[k].organizationId == org && db.invitations[k].email == email;
    assert forall k :: (k in db.invitations && db.invitations[k].organizationId == org &&
                        db.invitations[k].email == email) ==> k in invited;
    if invited == {} {
      return Err(NotFound), mail;
    }
    var k :| k in invited;
    mail := Some(Mail(db.invitations[k].email, InvitationSubject(user, organization), "email/org_invitation"));
    r := SendMail(ctx, mail.value, true);
  }
}
