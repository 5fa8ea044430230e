/**
 * The projects of an organization (src/handlers/organizations/projects.rs):
 * listing them, creating or renaming one, reading one and deleting one.
 * Project names are unique within an organization.
 */
module Projects {
  import opened Wrappers
  import opened Errors
  import opened Store
  import Ordering

  /** `OrganizationProject`, without the creation date. */
  datatype ProjectView = ProjectView(projectId: Id, organizationId: Id, name: string, apiKey: string)

  function ViewOf(id: Id, p: Project): ProjectView
  {
    ProjectView(id, p.organizationId, p.name, p.apiKey)
  }

  /** The organization exists and `uid` is one of its members: the join
      every handler here starts with. */
  predicate MemberOf(db: Database, uid: Id, org: Id)
    reads db
  {
    org in db.organizations && (uid, org) in db.memberships
  }

  /** The projects of an organization. */
  function ProjectsOf(projects: map<Id, Project>, org: Id): set<Id>
  {
    set p | p in projects && projects[p].organizationId == org
  }

  /** No two projects of one organization share a name. */
  ghost predicate UniqueNames(projects: map<Id, Project>)
  {
    forall p, q :: (p in projects && q in projects && projects[p].organizationId == projects[q].organizationId &&
                    projects[p].name == projects[q].name) ==> p == q
  }

  /** Another project of the organization (not `except`) is named `name`. */
  predicate NameTaken(projects: map<Id, Project>, org: Id, name: string, except: Option<Id>)
  {
    exists p :: p in projects && projects[p].organizationId == org && projects[p].name == name &&
                (except.Some? ==> p != except.value)
  }

  /** The views of the listed projects, in order. */
  function Views(projects: map<Id, Project>, ids: seq<Id>): (vs: seq<ProjectView>)
    requires forall i :: i in ids ==> i in projects
    ensures |vs| == |ids| && forall k :: 0 <= k < |ids| ==> vs[k] == ViewOf(ids[k], projects[ids[k]])
  {
    if ids == [] then [] else [ViewOf(ids[0], projects[ids[0]])] + Views(projects, ids[1..])
  }

  /** `list`: the organization's projects, for its members, in id order. */
  method List(db: Database, uid: Id, org: Id) returns (r: Result<seq<ProjectView>>)
    ensures uid !in db.users ==> r == Err(LoginRequired)
    ensures uid in db.users && !MemberOf(db, uid, org) ==> r == Err(NotFound)
    ensures uid in db.users && MemberOf(db, uid, org) ==>
              var ids := Ordering.Ascending(ProjectsOf(db.projects, org));
              (forall i :: i in ids ==> i in db.projects) && r == Ok(Views(db.projects, ids))
  {
    var _ :- CurrentUser(db, uid);
    if !MemberOf(db, uid, org) {
      return Err(NotFound);
    }
    var ids := Ordering.SortIds(ProjectsOf(db.projects, org));
    r := Ok(Views(db.projects, ids));
  }

  datatype ProjectInput = ProjectInput(projectId: Option<Id>, name: string)

  const NameRequired := "Project name is required"
  const NameInUse := "A project with the same name already exists"

  function InputErrors(input: ProjectInput): ValidationErrors
  {
    LengthErrors("name", input.name, 1, 80, NameRequired)
  }

  /** The row a new project starts as: only the organization, the name and
      the API key are set. */
  function NewProject(org: Id, name: string, apiKey: string): Project
  {
    Project(org, name, apiKey, None, None, None, None, None)
  }

  /** The rename branch of `manage`: the project keeps its organization and
      its API key. */
  method Rename(db: Database, org: Id, id: Id, name: string) returns (r: Result<ProjectView>)
    requires db.Valid()
    requires UniqueNames(db.projects) ==> !NameTaken(db.projects, org, name, Some(id))
    modifies db`projects
    ensures db.Valid()
    ensures UniqueNames(old(db.projects)) ==> UniqueNames(db.projects)
    ensures if id !in old(db.projects) || old(db.projects)[id].organizationId != org then
              r == Err(NotFound) && db.projects == old(db.projects)
            else
              r == Ok(ProjectView(id, org, name, old(db.projects)[id].apiKey)) &&
              db.projects == old(db.projects)[id := old(db.projects)[id].(name := name)]
  {
    if id !in db.projects || db.projects[id].organizationId != org {
      return Err(NotFound);
    }
    ghost var before := db.projects;
    db.projects := db.projects[id := db.projects[id].(name := name)];
    r := Ok(ViewOf(id, db.projects[id]));
    if UniqueNames(before) {
      forall p, q | p in db.projects && q in db.projects && db.projects[p].organizationId == db.projects[q].organizationId &&
                    db.projects[p].name == db.projects[q].name
        ensures p == q
      {
        if p != id && q != id {
          assert before[p] == db.projects[p] && before[q] == db.projects[q];
        }
      }
    }
  }

  /** The create branch of `manage`: a new project and the creator's
      settings row. */
  method Create(db: Database, uid: Id, pushover: bool, org: Id, name: string, apiKey: string) returns (r: Result<ProjectView>)
    requires db.Valid()
    requires UniqueNames(db.projects) ==> !NameTaken(db.projects, org, name, None)
    modifies db`projects, db`nextProjectId, db`settings
    ensures db.Valid()
    ensures UniqueNames(old(db.projects)) ==> UniqueNames(db.projects)
    ensures if exists p :: p in old(db.projects) && old(db.projects)[p].apiKey == apiKey then
              r.Err? && r.error.Internal? && db.projects == old(db.projects) && db.settings == old(db.settings)
            else
              r.Ok? && r.value.projectId !in old(db.projects) &&
              r.value == ProjectView(r.value.projectId, org, name, apiKey) &&
              db.projects == old(db.projects)[r.value.projectId := NewProject(org, name, apiKey)] &&
              db.settings == old(db.settings)[(r.value.projectId, uid) := UserSettings(1, if pushover then 1 else 0)]
  {
    var keyed := set p | p in db.projects && db.projects[p].apiKey == apiKey;
    assert forall p :: p in db.projects && db.projects[p].apiKey == apiKey ==> p in keyed;
    if keyed != {} {
      return Err(Internal("duplicate API key"));
    }
    ghost var before := db.projects;
    var id := db.InsertProject(NewProject(org, name, apiKey));
    db.settings := db.settings[(id, uid) := UserSettings(1, if pushover then 1 else 0)];
    r := Ok(ViewOf(id, db.projects[id]));
    if UniqueNames(before) {
      forall p, q | p in db.projects && q in db.projects && db.projects[p].organizationId == db.projects[q].organizationId &&
                    db.projects[p].name == db.projects[q].name
        ensures p == q
      {
        if p != id && q != id {
          assert before[p] == db.projects[p] && before[q] == db.projects[q];
        }
      }
    }
  }

  /** `manage`: creates a project (when no id is given) or renames one of the
      organization's projects. The name check runs before the project is
      looked up. `apiKey` is the random 32-character alphanumeric key a new
      project gets; the unique index on API keys refuses one that is taken.
      The creator of a new project gets a settings row: mail notifications
      on, Pushover on when the creator has a Pushover key. */
  method Manage(db: Database, uid: Id, org: Id, input: ProjectInput, apiKey: string) returns (r: Result<ProjectView>)
    requires db.Valid()
    modifies db`projects, db`nextProjectId, db`settings
    ensures db.Valid()
    ensures UniqueNames(old(db.projects)) ==> UniqueNames(db.projects)
    ensures r.Err? ==> db.projects == old(db.projects) && db.settings == old(db.settings)
    ensures InputErrors(input) != map[] ==> r == Err(FromValidation(InputErrors(input)))
    ensures InputErrors(input) == map[] && uid !in old(db.users) ==> r == Err(LoginRequired)
    ensures InputErrors(input) == map[] && uid in old(db.users) && !old(MemberOf(db, uid, org)) ==> r == Err(NotFound)
    ensures InputErrors(input) == map[] && uid in old(db.users) && old(MemberOf(db, uid, org)) ==>
              if NameTaken(old(db.projects), org, input.name, input.projectId) then
                r == Err(Field("name", NameInUse))
              else if input.projectId.Some? then
                var id := input.projectId.value;
                if id !in old(db.projects) || old(db.projects)[id].organizationId != org then r == Err(NotFound)
                else r == Ok(ProjectView(id, org, input.name, old(db.projects)[id].apiKey)) &&
                     db.projects == old(db.projects)[id := old(db.projects)[id].(name := input.name)] &&
                     db.settings == old(db.settings)
              else if exists p :: p in old(db.projects) && old(db.projects)[p].apiKey == apiKey then
                r.Err? && r.error.Internal?
              else
                r.Ok? && r.value.projectId !in old(db.projects) &&
                r.value == ProjectView(r.value.projectId, org, input.name, apiKey) &&
                db.projects == old(db.projects)[r.value.projectId := NewProject(org, input.name, apiKey)] &&
                db.settings == old(db.settings)[(r.value.projectId, uid) :=
                  UserSettings(1, if old(db.users)[uid].pushoverUserKey.Some? then 1 else 0)]
  {
    var errors := InputErrors(input);
    if errors != map[] {
      return Err(FromValidation(errors));
    }
    var user :- CurrentUser(db, uid);
    if !MemberOf(db, uid, org) {
      return Err(NotFound);
    }
    var clashing := set p | p in db.projects && db.projects[p].organizationId == org && db.projects[p].name == input.name &&
                            (input.projectId.Some? ==> p != input.projectId.value);
    assert forall p :: (p in db.projects && db.projects[p].organizationId == org && db.projects[p].name == input.name &&
                        (input.projectId.Some? ==> p != input.projectId.value)) ==> p in clashing;
    if clashing != {} {
      return Err(Field("name", NameInUse));
    }
    if input.projectId.Some? {
      r := Rename(db, org, input.projectId.value, input.name);
    } else {
      r := Create(db, uid, user.pushoverUserKey.Some?, org, input.name, apiKey);
    }
  }

  /** `get_single`: one project of an organization the caller belongs to. */
  function GetSingle(db: Database, uid: Id, org: Id, id: Id): (r: Result<ProjectView>)
    reads db
    ensures r.Ok? <==> uid in db.users && MemberOf(db, uid, org) && id in db.projects &&
                       db.projects[id].organizationId == org
    ensures r.Ok? ==> r.value == ViewOf(id, db.projects[id])
    ensures r.Err? ==> r.error == (if uid !in db.users then LoginRequired else NotFound)
  {
    var _ :- CurrentUser(db, uid);
    if !MemberOf(db, uid, org) then Err(NotFound)
    else if id !in db.projects || db.projects[id].organizationId != org then Err(NotFound)
    else Ok(ViewOf(id, db.projects[id]))
  }

  const NoPermission := "You do not have permission to delete projects in this organization"

  /** `delete`: an administrator or owner deletes one of the organization's
      projects. */
  method Delete(db: Database, uid: Id, org: Id, id: Id) returns (r: Result<()>)
    requires db.Valid()
    modifies db`projects
    ensures db.Valid()
    ensures r == match old(CallerRole(db, uid, org))
                 case Err(e) => Err(e)
                 case Ok(role) =>
                   if !IsManager(role) then Err(New(NoPermission))
                   else if id !in old(db.projects) || old(db.projects)[id].organizationId != org then Err(NotFound)
                   else Ok(())
    ensures db.projects == if r.Ok? then old(db.projects) - {id} else old(db.projects)
  {
    var role :- CallerRole(db, uid, org);
    if !IsManager(role) {
      return Err(New(NoPermission));
    }
    if id !in db.projects || db.projects[id].organizationId != org {
      return Err(NotFound);
    }
    db.projects := db.projects - {id};
    r := Ok(());
  }
}
