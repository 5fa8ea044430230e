/**
 * Organizations (src/handlers/organizations.rs): listing the caller's
 * organizations with their projects and members, creating one, editing its
 * name and alert threshold, and deleting it. Creation refuses a name
 * already used by one of the creator's organizations, and editing a name
 * used by any other organization; memberships added by invitations are not
 * checked against names.
 */
module Organizations {
  import opened Wrappers
  import opened Errors
  import opened Store
  import opened App
  import Text
  import Ordering
  import Projects
  import Members

  /** No two organizations `u` belongs to share a name. */
  ghost predicate UniqueNamesFor(organizations: map<Id, Organization>, memberships: map<(Id, Id), string>, u: Id)
  {
    forall a, b :: (a in organizations && b in organizations && (u, a) in memberships && (u, b) in memberships &&
                    organizations[a].name == organizations[b].name) ==> a == b
  }

  /** The foreign key of organization_users: every membership names an
      organization id already handed out. */
  ghost predicate MembershipsResolve(memberships: map<(Id, Id), string>, nextOrganizationId: Id)
  {
    forall k :: k in memberships ==> k.1 < nextOrganizationId
  }

  const NameRequired := "Organization name is required"
  const NameInUse := "An organization with the same name already exists."

  /** One of `uid`'s organizations is named `name`. */
  predicate NameTakenFor(organizations: map<Id, Organization>, memberships: map<(Id, Id), string>, uid: Id, name: string)
  {
    exists o :: o in organizations && (uid, o) in memberships && organizations[o].name == name
  }

  /** A new organization: the configured request limit, a request count of
      zero whose period starts now when there is a limit, enabled, no alert
      threshold. */
  function Fresh(name: string, requestsLimit: Option<nat>, now: Time): Organization
  {
    Organization(name, requestsLimit, Some(0), if requestsLimit.Some? then Some(now) else None, 1, None)
  }

  /** `create`: the name is validated before it is trimmed, and the caller's
      account is not looked up. The caller becomes the organization's owner. */
  method Create(db: Database, ctx: Context, uid: Id, name: string, now: Time) returns (r: Result<Id>)
    requires db.Valid()
    modifies db`organizations, db`nextOrganizationId, db`memberships
    ensures db.Valid()
    ensures MembershipsResolve(old(db.memberships), old(db.nextOrganizationId)) ==>
              MembershipsResolve(db.memberships, db.nextOrganizationId) &&
              forall u: Id :: UniqueNamesFor(old(db.organizations), old(db.memberships), u) ==>
                              UniqueNamesFor(db.organizations, db.memberships, u)
    ensures LengthErrors("name", name, 1, 80, NameRequired) != map[] ==>
              r == Err(FromValidation(LengthErrors("name", name, 1, 80, NameRequired)))
    ensures LengthErrors("name", name, 1, 80, NameRequired) == map[] ==>
              if NameTakenFor(old(db.organizations), old(db.memberships), uid, Text.Trim(name)) then
                r == Err(Field("name", NameInUse))
              else
                exists id: Id :: id !in old(db.organizations) &&
                  db.organizations == old(db.organizations)[id := Fresh(Text.Trim(name), ctx.requestsLimit, now)] &&
                  if (uid, id) in old(db.memberships) then
                    r == Err(Internal(DuplicateMembership)) && db.memberships == old(db.memberships)
                  else
                    r == Ok(id) && db.memberships == old(db.memberships)[(uid, id) := Owner]
    ensures MembershipsResolve(old(db.memberships), old(db.nextOrganizationId)) ==> r != Err(Internal(DuplicateMembership))
    ensures r.Err? && r != Err(Internal(DuplicateMembership)) ==>
              db.organizations == old(db.organizations) && db.memberships == old(db.memberships)
  {
    var errors := LengthErrors("name", name, 1, 80, NameRequired);
    if errors != map[] {
      return Err(FromValidation(errors));
    }
    var trimmed := Text.Trim(name);
    var taken := set o | o in db.organizations && (uid, o) in db.memberships && db.organizations[o].name == trimmed;
    assert forall o :: o in db.organizations && (uid, o) in db.memberships && db.organizations[o].name == trimmed ==> o in taken;
    if taken != {} {
      return Err(Field("name", NameInUse));
    }
    ghost var orgs, members := db.organizations, db.memberships;
    var id := db.InsertOrganization(Fresh(trimmed, ctx.requestsLimit, now));
    var inserted := db.InsertMembership(uid, id, Owner);
    if inserted.Err? {
      return Err(inserted.error);
    }
    r := Ok(id);
    if MembershipsResolve(members, old(db.nextOrganizationId)) {
      NewOrganizationKeepsNamesUnique(orgs, members, db.organizations, db.memberships, uid, id);
    }
  }

  /** Adding an organization named apart from its creator's organizations,
      with the creator as its only member, keeps every user's names apart. */
  lemma NewOrganizationKeepsNamesUnique(orgs: map<Id, Organization>, members: map<(Id, Id), string>,
                                        orgs': map<Id, Organization>, members': map<(Id, Id), string>, uid: Id, id: Id)
    requires id !in orgs && id in orgs' && (forall k :: k in members ==> k.1 != id)
    requires !NameTakenFor(orgs, members, uid, orgs'[id].name)
    requires orgs' == orgs[id := orgs'[id]] && members' == members[(uid, id) := Owner]
    ensures forall u: Id :: UniqueNamesFor(orgs, members, u) ==> UniqueNamesFor(orgs', members', u)
  {
    forall u: Id | UniqueNamesFor(orgs, members, u)
      ensures UniqueNamesFor(orgs', members', u)
    {
      forall a, b | (a in orgs' && b in orgs' && (u, a) in members' && (u, b) in members' &&
                     orgs'[a].name == orgs'[b].name)
        ensures a == b
      {
        if a != id && b != id {
          assert orgs[a] == orgs'[a] && orgs[b] == orgs'[b];
          assert (u, a) in members && (u, b) in members;
        }
      }
    }
  }

  datatype EditInput = EditInput(name: string, requestsAlertThreshold: Option<nat>)

  const ThresholdTooLow := "Requests limit must be at least 1"

  /** The validation errors of the edit form: the name's length, and an
      alert threshold, when given, of at least 1. */
  function EditErrors(input: EditInput): (v: ValidationErrors)
    ensures v == map[] <==> 1 <= |input.name| <= 80 && input.requestsAlertThreshold != Some(0)
    ensures "requests_alert_threshold" in v <==> input.requestsAlertThreshold == Some(0)
  {
    var v := LengthErrors("name", input.name, 1, 80, NameRequired);
    if input.requestsAlertThreshold == Some(0) then
      AddError(v, "requests_alert_threshold", ValidationError("range", Some(ThresholdTooLow)))
    else v
  }

  /** `Option::filter(|&x| x > 0)`. */
  function Positive(t: Option<nat>): (p: Option<nat>)
    ensures p.Some? <==> t.Some? && t.value > 0
    ensures p.Some? ==> p == t
  {
    if t.Some? && t.value > 0 then t else None
  }

  const OnlyOwnersManage := "Only owners can manage an organization"

  /** Another organization, of any user, is named `name`. */
  predicate NameTakenElsewhere(organizations: map<Id, Organization>, org: Id, name: string)
  {
    exists o :: o in organizations && o != org && organizations[o].name == name
  }

  /** `edit`: an owner renames the organization (to the name as given,
      untrimmed) and sets its daily alert threshold. */
  method Edit(db: Database, uid: Id, org: Id, input: EditInput) returns (r: Result<()>)
    modifies db`organizations
    ensures forall u: Id :: UniqueNamesFor(old(db.organizations), db.memberships, u) ==>
                        UniqueNamesFor(db.organizations, db.memberships, u)
    ensures r.Ok? ==> !NameTakenElsewhere(db.organizations, org, input.name)
    ensures r == if EditErrors(input) != map[] then Err(FromValidation(EditErrors(input)))
                 else if old(CallerRole(db, uid, org)).Err? then Err(LoginRequired)
                 else if old(db.memberships)[(uid, org)] != Owner then Err(New(OnlyOwnersManage))
                 else if org !in old(db.organizations) then Err(NotFound)
                 else if NameTakenElsewhere(old(db.organizations), org, input.name) then Err(Field("name", NameInUse))
                 else Ok(())
    ensures db.organizations ==
              if r.Err? then old(db.organizations)
              else old(db.organizations)[org := old(db.organizations)[org].(
                     name := input.name, requestsAlertThreshold := Positive(input.requestsAlertThreshold))]
  {
    var errors := EditErrors(input);
    if errors != map[] {
      return Err(FromValidation(errors));
    }
    var role :- CallerRole(db, uid, org);
    if role != Owner {
      return Err(New(OnlyOwnersManage));
    }
    if org !in db.organizations {
      return Err(NotFound);
    }
    var named := set o | o in db.organizations && o != org && db.organizations[o].name == input.name;
    assert forall o :: o in db.organizations && o != org && db.organizations[o].name == input.name ==> o in named;
    if named != {} {
      return Err(Field("name", NameInUse));
    }
    ghost var orgs := db.organizations;
    db.organizations := db.organizations[org := db.organizations[org].(
                          name := input.name, requestsAlertThreshold := Positive(input.requestsAlertThreshold))];
    r := Ok(());
    forall u: Id | UniqueNamesFor(orgs, db.memberships, u)
      ensures UniqueNamesFor(db.organizations, db.memberships, u)
    {
      forall a, b | (a in db.organizations && b in db.organizations && (u, a) in db.memberships && (u, b) in db.memberships &&
                     db.organizations[a].name == db.organizations[b].name)
        ensures a == b
      {
        if a != org && b != org {
          assert orgs[a] == db.organizations[a] && orgs[b] == db.organizations[b];
        }
      }
    }
  }

  const OnlyOwnersDelete := "Only owners can delete an organization"

  /** `delete`: an owner deletes the organization, its memberships and its
      projects. */
  method Delete(db: Database, uid: Id, org: Id) returns (r: Result<()>)
    requires db.Valid()
    modifies db`memberships, db`projects, db`organizations
    ensures db.Valid()
    ensures old(CallerRole(db, uid, org)).Err? ==> r == Err(LoginRequired)
    ensures old(CallerRole(db, uid, org)).Ok? && old(db.memberships)[(uid, org)] != Owner ==>
              r == Err(New(OnlyOwnersDelete))
    ensures old(CallerRole(db, uid, org)) == Ok(Owner) ==>
              if org in old(db.organizations) then
                r.Ok? &&
                db.memberships == MembershipsOutside(old(db.memberships), org) &&
                db.projects == ProjectsOutside(old(db.projects), org) &&
                db.organizations == old(db.organizations) - {org}
              else r == Err(Internal("Organization not found"))
    ensures r.Err? ==> db.memberships == old(db.memberships) && db.projects == old(db.projects) &&
                       db.organizations == old(db.organizations)
  {
    var role :- CallerRole(db, uid, org);
    if role != Owner {
      return Err(New(OnlyOwnersDelete));
    }
    r := DeleteOrganization(db, org);
  }

  /** One organization as `list` returns it. */
  datatype OrganizationView = OrganizationView(
    organizationId: Id,
    organization: Organization,
    projects: seq<Projects.ProjectView>,
    members: seq<Members.MemberView>)

  /** The users belonging to an organization. */
  function MembersOf(db: Database, org: Id): set<Id>
    reads db
  {
    set u | u in db.users && (u, org) in db.memberships
  }

  /** The member rows of an organization, one per listed user. */
  function MemberViews(users: map<Id, User>, memberships: map<(Id, Id), string>, org: Id, ids: seq<Id>): (vs: seq<Members.MemberView>)
    requires forall u :: u in ids ==> u in users && (u, org) in memberships
    ensures |vs| == |ids|
    ensures forall k :: 0 <= k < |ids| ==>
              vs[k] == Members.MemberView(ids[k], org, users[ids[k]].email, users[ids[k]].name, memberships[(ids[k], org)])
  {
    if ids == [] then []
    else [Members.MemberView(ids[0], org, users[ids[0]].email, users[ids[0]].name, memberships[(ids[0], org)])] +
         MemberViews(users, memberships, org, ids[1..])
  }

  /** The listing of one organization: its row, its projects and its
      members, both in id order. */
  ghost function ViewOf(db: Database, org: Id): OrganizationView
    reads db
    requires org in db.organizations
  {
    var projects := Ordering.Ascending(Projects.ProjectsOf(db.projects, org));
    var members := Ordering.Ascending(MembersOf(db, org));
    Ordering.IdBeforeIsTotal();
    Ordering.ListingProperties(Projects.ProjectsOf(db.projects, org), Ordering.IdBefore);
    Ordering.ListingProperties(MembersOf(db, org), Ordering.IdBefore);
    OrganizationView(org, db.organizations[org], Projects.Views(db.projects, projects),
                     MemberViews(db.users, db.memberships, org, members))
  }

  /** The organizations the user belongs to. */
  function OrganizationsOf(db: Database, uid: Id): set<Id>
    reads db
  {
    set o | o in db.organizations && (uid, o) in db.memberships
  }

  /** One organization as `list` shows it, its projects and members fetched
      in id order. */
  method View(db: Database, org: Id) returns (view: OrganizationView)
    requires org in db.organizations
    ensures view == ViewOf(db, org)
  {
    var projectIds := Ordering.SortIds(Projects.ProjectsOf(db.projects, org));
    var memberIds := Ordering.SortIds(MembersOf(db, org));
    view := OrganizationView(org, db.organizations[org], Projects.Views(db.projects, projectIds),
                             MemberViews(db.users, db.memberships, org, memberIds));
  }

  /** `list`: the caller's organizations, in id order, each with its
      projects and members. */
  method List(db: Database, uid: Id) returns (r: Result<seq<OrganizationView>>)
    ensures uid !in db.users ==> r == Err(LoginRequired)
    ensures uid in db.users ==>
              var orgs := Ordering.Ascending(OrganizationsOf(db, uid));
              r.Ok? && |r.value| == |orgs| &&
              forall k :: 0 <= k < |orgs| ==> orgs[k] in db.organizations && r.value[k] == ViewOf(db, orgs[k])
  {
    var _ :- CurrentUser(db, uid);
    var orgs := Ordering.SortIds(OrganizationsOf(db, uid));
    assert forall o :: o in orgs ==> o in db.organizations;
    var response := [];
    var i := 0;
    while i < |orgs|
      invariant 0 <= i <= |orgs| && |response| == i
      invariant forall o :: o in orgs ==> o in db.organizations
      invariant forall k :: 0 <= k < i ==> response[k] == ViewOf(db, orgs[k])
    {
      var view := View(db, orgs[i]);
      response := response + [view];
      i := i + 1;
    }
    r := Ok(response);
  }
}
