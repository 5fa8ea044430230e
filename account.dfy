/**
 * The signed-in user's own account (src/handlers/account.rs): reading it,
 * renaming it, changing the password (a handler that does nothing yet) and
 * deleting it together with every organization the user was alone in.
 */
module Account {
  import opened Wrappers
  import opened Errors
  import opened Store
  import Ordering
  import Sessions

  /** `AccountResponse`, without the creation date. */
  datatype AccountView = AccountView(userId: Id, email: string, name: Option<string>, timezone: string)

  function ViewOf(uid: Id, u: User): AccountView
  {
    AccountView(uid, u.email, u.name, u.timezone)
  }

  /** `get`: the caller's account. */
  function Get(db: Database, uid: Id): (r: Result<AccountView>)
    reads db
    ensures r.Ok? <==> uid in db.users
    ensures r.Ok? ==> r.value.userId == uid && r.value.email == db.users[uid].email &&
                      r.value.name == db.users[uid].name && r.value.timezone == db.users[uid].timezone
    ensures r.Err? ==> r.error == LoginRequired
  {
    var user :- CurrentUser(db, uid);
    Ok(ViewOf(uid, user))
  }

  /** `update`: replaces the caller's name, and nothing else. */
  method Update(db: Database, uid: Id, name: Option<string>) returns (r: Result<AccountView>)
    modifies db`users
    ensures uid !in old(db.users) ==> r == Err(LoginRequired) && db.users == old(db.users)
    ensures uid in old(db.users) ==>
              db.users == old(db.users)[uid := old(db.users)[uid].(name := name)] &&
              r == Ok(ViewOf(uid, db.users[uid]))
  {
    var user :- CurrentUser(db, uid);
    db.users := db.users[uid := user.(name := name)];
    r := Ok(ViewOf(uid, db.users[uid]));
  }

  /** `update_password`: accepts the request and changes nothing. */
  method UpdatePassword(db: Database, uid: Id) returns (r: Result<()>)
    ensures r.Ok?
  {
    r := Ok(());
  }

  /** The number of members an organization has. */
  function MemberCount(memberships: map<(Id, Id), string>, org: Id): nat
  {
    |set k | k in memberships && k.1 == org|
  }

  /** The organizations `uid` belongs to. */
  function MembershipOrganizations(memberships: map<(Id, Id), string>, uid: Id): set<Id>
  {
    set k | k in memberships && k.0 == uid :: k.1
  }

  /** The organizations whose only member is `uid`. */
  function SoleOrganizations(memberships: map<(Id, Id), string>, uid: Id): set<Id>
  {
    set k | k in memberships && k.0 == uid && MemberCount(memberships, k.1) == 1 :: k.1
  }

  /** The memberships, less those of `uid` in the organizations `done`. */
  function Without(memberships: map<(Id, Id), string>, uid: Id, done: set<Id>): map<(Id, Id), string>
  {
    map k | k in memberships && !(k.0 == uid && k.1 in done) :: memberships[k]
  }

  /** The memberships of users other than `uid`. */
  function MembershipsOfOthers(memberships: map<(Id, Id), string>, uid: Id): map<(Id, Id), string>
  {
    map k | k in memberships && k.0 != uid :: memberships[k]
  }

  /** The projects outside the organizations `orgs`. */
  function ProjectsOutsideAll(projects: map<Id, Project>, orgs: set<Id>): map<Id, Project>
  {
    map k | k in projects && projects[k].organizationId !in orgs :: projects[k]
  }

  const OrganizationNotFound := "Organization not found"

  /** `delete`: removes each of the caller's memberships and, where the caller
      was the organization's only member (counted before the membership is
      removed), the organization with its projects; then the user row, and
      the session is purged. An organization the caller was alone in that no
      longer exists stops the deletion with an internal error. Organizations
      with other members keep them. */
  method Delete(db: Database, session: Sessions.Session, uid: Id) returns (r: Result<()>)
    requires db.Valid()
    modifies db`memberships, db`projects, db`organizations, db`users, session
    ensures db.Valid()
    ensures uid !in old(db.users) ==> r == Err(LoginRequired) && unchanged(db) && unchanged(session)
    ensures uid in old(db.users) ==>
              var sole := SoleOrganizations(old(db.memberships), uid);
              if sole <= old(db.organizations).Keys then
                r.Ok? &&
                db.memberships == MembershipsOfOthers(old(db.memberships), uid) &&
                db.organizations == old(db.organizations) - sole &&
                db.projects == ProjectsOutsideAll(old(db.projects), sole) &&
                db.users == old(db.users) - {uid} &&
                session.uid == None && session.seen == {}
              else
                r == Err(Internal(OrganizationNotFound)) && db.users == old(db.users) && unchanged(session)
  {
    var _ :- CurrentUser(db, uid);
    r := LeaveAll(db, uid);
    if r.Err? {
      return;
    }
    db.users := db.users - {uid};
    session.Purge();
  }

  /** `delete`'s loop over the caller's memberships, in id order. */
  method LeaveAll(db: Database, uid: Id) returns (r: Result<()>)
    requires db.Valid()
    modifies db`memberships, db`projects, db`organizations
    ensures db.Valid()
    ensures r.Ok? <==> SoleOrganizations(old(db.memberships), uid) <= old(db.organizations).Keys
    ensures r.Err? ==> r == Err(Internal(OrganizationNotFound))
    ensures r.Ok? ==> Left(old(db.memberships), old(db.organizations), old(db.projects),
                           db.memberships, db.organizations, db.projects, uid)
  {
    ghost var m0, o0, p0 := db.memberships, db.organizations, db.projects;
    var orgs := Ordering.SortIds(MembershipOrganizations(db.memberships, uid));
    var i := 0;
    while i < |orgs|
      invariant 0 <= i <= |orgs| && db.Valid()
      invariant Progress(db.memberships, db.organizations, db.projects, m0, o0, p0, uid, set k | 0 <= k < i :: orgs[k])
    {
      var org := orgs[i];
      ghost var done := set k | 0 <= k < i :: orgs[k];
      assert org !in done;
      assert org in MembershipOrganizations(m0, uid);
      r := LeaveOrganization(db, m0, o0, p0, SoleOrganizations(m0, uid), uid, done, org);
      if r.Err? {
        return;
      }
      assert (set k | 0 <= k < i + 1 :: orgs[k]) == done + {org};
      i := i + 1;
    }
    ProgressDone(db.memberships, db.organizations, db.projects, m0, o0, p0, uid, set k | 0 <= k < i :: orgs[k]);
    r := Ok(());
  }

  /** The tables after `uid` has left all its organizations: the other
      users' memberships remain, the organizations `uid` was alone in are
      gone with their projects. */
  ghost predicate Left(m0: map<(Id, Id), string>, o0: map<Id, Organization>, p0: map<Id, Project>,
                       memberships: map<(Id, Id), string>, organizations: map<Id, Organization>, projects: map<Id, Project>,
                       uid: Id)
  {
    var sole := SoleOrganizations(m0, uid);
    memberships == MembershipsOfOthers(m0, uid) &&
    organizations == o0 - sole &&
    projects == ProjectsOutsideAll(p0, sole)
  }

  /** The state after the caller has left the organizations `done`. */
  ghost predicate Progress(memberships: map<(Id, Id), string>, organizations: map<Id, Organization>, projects: map<Id, Project>,
                           m0: map<(Id, Id), string>, o0: map<Id, Organization>, p0: map<Id, Project>, uid: Id, done: set<Id>)
  {
    var sole := SoleOrganizations(m0, uid);
    memberships == Without(m0, uid, done) &&
    organizations == o0 - (sole * done) &&
    projects == ProjectsOutsideAll(p0, sole * done) &&
    sole * done <= o0.Keys
  }

  /** Having left every organization, the caller has no memberships left and
      the organizations the caller was alone in are gone. */
  lemma ProgressDone(memberships: map<(Id, Id), string>, organizations: map<Id, Organization>, projects: map<Id, Project>,
                     m0: map<(Id, Id), string>, o0: map<Id, Organization>, p0: map<Id, Project>, uid: Id, done: set<Id>)
    requires Progress(memberships, organizations, projects, m0, o0, p0, uid, done)
    requires done == MembershipOrganizations(m0, uid)
    ensures SoleOrganizations(m0, uid) <= o0.Keys
    ensures Left(m0, o0, p0, memberships, organizations, projects, uid)
  {
    var sole := SoleOrganizations(m0, uid);
    assert sole <= done;
    assert sole * done == sole;
    forall k | k in m0 && k.0 == uid
      ensures k.1 in done
    {
    }
  }

  /** One turn of `delete`'s loop: the caller leaves `org`, which is deleted
      when the caller was its only member. */
  method LeaveOrganization(db: Database, ghost m0: map<(Id, Id), string>, ghost o0: map<Id, Organization>,
                           ghost p0: map<Id, Project>, ghost sole: set<Id>, uid: Id, ghost done: set<Id>, org: Id)
    returns (r: Result<()>)
    requires db.Valid() && sole == SoleOrganizations(m0, uid)
    requires org !in done && org in MembershipOrganizations(m0, uid)
    requires Progress(db.memberships, db.organizations, db.projects, m0, o0, p0, uid, done)
    modifies db`memberships, db`projects, db`organizations
    ensures db.Valid()
    ensures r.Err? ==> r == Err(Internal(OrganizationNotFound)) && org in sole && org !in o0
    ensures r.Ok? ==> Progress(db.memberships, db.organizations, db.projects, m0, o0, p0, uid, done + {org})
  {
    var count := |set k | k in db.memberships && k.1 == org|;
    CountUntouched(m0, uid, done, org);
    assert (uid, org) in m0;
    db.memberships := db.memberships - {(uid, org)};
    WithoutStep(m0, uid, done, org);
    if count == 1 {
      assert org in sole;
      SoleIsAlone(m0, uid, done, org);
      r := DeleteOrganization(db, org);
      if r.Err? {
        return;
      }
      ProjectsStep(p0, sole * done, org);
      assert sole * (done + {org}) == sole * done + {org};
    } else {
      assert org !in sole;
      assert sole * (done + {org}) == sole * done;
      r := Ok(());
    }
  }

  /** Removing the caller's memberships elsewhere leaves an organization's
      member count as it was. */
  lemma CountUntouched(m0: map<(Id, Id), string>, uid: Id, done: set<Id>, org: Id)
    requires org !in done
    ensures (set k | k in Without(m0, uid, done) && k.1 == org) == (set k | k in m0 && k.1 == org)
  {
  }

  lemma WithoutStep(m0: map<(Id, Id), string>, uid: Id, done: set<Id>, org: Id)
    ensures Without(m0, uid, done) - {(uid, org)} == Without(m0, uid, done + {org})
  {
  }

  /** Once its only member's row is gone, an organization has no
      memberships left to remove. */
  lemma SoleIsAlone(m0: map<(Id, Id), string>, uid: Id, done: set<Id>, org: Id)
    requires (uid, org) in m0 && MemberCount(m0, org) == 1
    ensures MembershipsOutside(Without(m0, uid, done + {org}), org) == Without(m0, uid, done + {org})
  {
    var members := set k | k in m0 && k.1 == org;
    assert (uid, org) in members;
    forall k | k in m0 && k.1 == org
      ensures k == (uid, org)
    {
      if k != (uid, org) {
        assert {k, (uid, org)} <= members;
        assert |{k, (uid, org)}| == 2;
        SubsetCard({k, (uid, org)}, members);
      }
    }
  }

  lemma SubsetCard(a: set<(Id, Id)>, b: set<(Id, Id)>)
    requires a <= b
    ensures |a| <= |b|
  {
    if a != {} {
      var x :| x in a;
      SubsetCard(a - {x}, b - {x});
    }
  }

  lemma ProjectsStep(p0: map<Id, Project>, removed: set<Id>, org: Id)
    ensures ProjectsOutside(ProjectsOutsideAll(p0, removed), org) == ProjectsOutsideAll(p0, removed + {org})
  {
  }
}
