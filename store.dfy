/**
 * The relational store the handlers read and write through sea-orm, as one
 * object holding a map per table, keyed by primary key. Auto-increment keys
 * come from one counter per table, so every inserted row gets a key larger
 * than every key the table has ever held. Schema constraints the handlers
 * rely on (the unique API key, the event chain of each report) are stated
 * in `Valid`.
 */
module Store {
  import opened Wrappers
  import opened Errors

  type Id = nat

  /** A UTC timestamp in seconds (`NaiveDateTime`). */
  type Time = int

  const Owner := "owner"
  const Admin := "admin"
  const Member := "member"

  const DuplicateMembership := "duplicate key value violates unique constraint on organization_users"

  datatype User = User(
    email: string,
    password: seq<bv8>,
    name: Option<string>,
    passwordResetHash: Option<string>,
    passwordResetHashCreated: Option<Time>,
    emailVerificationHash: Option<string>,
    emailVerificationHashCreated: Option<Time>,
    totpSecret: Option<string>,
    timezone: string,
    pushoverUserKey: Option<string>)

  datatype Organization = Organization(
    name: string,
    requestsLimit: Option<nat>,
    requestsCount: Option<nat>,
    requestsCountStart: Option<Time>,
    isEnabled: int,
    requestsAlertThreshold: Option<nat>)

  datatype Project = Project(
    organizationId: Id,
    name: string,
    apiKey: string,
    slackBotToken: Option<string>,
    slackChannel: Option<string>,
    slackWebhook: Option<string>,
    teamsWebhook: Option<string>,
    webhook: Option<string>)

  datatype Environment = Environment(projectId: Id, name: string, slackWebhook: Option<string>)

  datatype Report = Report(
    projectId: Id,
    environmentId: Option<Id>,
    title: string,
    lastSeen: Time,
    isSeen: int,
    isResolved: int)

  /** One occurrence of a report; `prevEventId`/`nextEventId` link the
      occurrences of the same report. */
  datatype Event = Event(
    reportId: Id,
    prevEventId: Option<Id>,
    nextEventId: Option<Id>,
    eventData: Option<string>,
    backtrace: Option<string>,
    log: Option<string>)

  /** A row of project_user_settings, keyed by (project id, user id). */
  datatype UserSettings = UserSettings(notifyEmail: int, notifyPushover: int)

  datatype Invitation = Invitation(organizationId: Id, email: string, role: string, slug: string)

  /** Hourly per-report counter (project_report_stats). */
  datatype ReportStat = ReportStat(
    reportId: Id, category: string, name: string, count: nat, date: Time, spiking: bool)

  /** Daily per-organization counter (organization_stats). */
  datatype OrganizationStat = OrganizationStat(
    organizationId: Id, category: string, name: string, count: nat, date: Time,
    isOverAlertThreshold: bool)

  ghost predicate KeysBelow<V>(m: map<Id, V>, bound: Id)
  {
    forall k :: k in m ==> k < bound
  }

  /** The `ApiKey` unique index of the projects table. */
  ghost predicate ApiKeysUnique(projects: map<Id, Project>)
  {
    forall p, q :: p in projects && q in projects && projects[p].apiKey == projects[q].apiKey ==> p == q
  }

  /** `p` is the event of `report` with the largest id below `bound`, or
      `None` when the report has no event below `bound`. */
  ghost predicate LatestBefore(events: map<Id, Event>, report: Id, bound: Id, p: Option<Id>)
  {
    match p
    case None => forall j :: j in events && events[j].reportId == report ==> bound <= j
    case Some(q) =>
      q in events && events[q].reportId == report && q < bound &&
      forall j :: j in events && events[j].reportId == report && j < bound ==> j <= q
  }

  /** `n` is the event of `report` with the smallest id above `bound`, or
      `None` when the report has no event above `bound`. */
  ghost predicate EarliestAfter(events: map<Id, Event>, report: Id, bound: Id, n: Option<Id>)
  {
    match n
    case None => forall j :: j in events && events[j].reportId == report ==> j <= bound
    case Some(q) =>
      q in events && events[q].reportId == report && bound < q &&
      forall j :: j in events && events[j].reportId == report && bound < j ==> q <= j
  }

  /** Event `i`, if present, points back to its report's previous event and
      forward to its report's next event. */
  ghost predicate LinkedAt(events: map<Id, Event>, i: Id)
  {
    i in events ==>
      LatestBefore(events, events[i].reportId, i, events[i].prevEventId) &&
      EarliestAfter(events, events[i].reportId, i, events[i].nextEventId)
  }

  /** The events of each report form one doubly linked chain in id order. */
  ghost predicate EventChain(events: map<Id, Event>)
  {
    forall i :: LinkedAt(events, i)
  }

  /** The chain's links agree: following `next` and then `prev` returns to
      the same event. */
  lemma NextThenPrev(events: map<Id, Event>, i: Id)
    requires EventChain(events) && i in events && events[i].nextEventId.Some?
    ensures events[i].nextEventId.value in events
    ensures events[events[i].nextEventId.value].prevEventId == Some(i)
  {
    var k := events[i].nextEventId.value;
    var r := events[i].reportId;
    assert LinkedAt(events, i);
    assert LinkedAt(events, k);
    assert LatestBefore(events, r, k, events[k].prevEventId);
    match events[k].prevEventId
    case None =>
      assert false;
    case Some(q) =>
      assert i <= q;
  }

  /** And following `prev` and then `next` returns to the same event. */
  lemma PrevThenNext(events: map<Id, Event>, i: Id)
    requires EventChain(events) && i in events && events[i].prevEventId.Some?
    ensures events[i].prevEventId.value in events
    ensures events[events[i].prevEventId.value].nextEventId == Some(i)
  {
    var p := events[i].prevEventId.value;
    var r := events[i].reportId;
    assert LinkedAt(events, i);
    assert LinkedAt(events, p);
    assert EarliestAfter(events, r, p, events[p].nextEventId);
    match events[p].nextEventId
    case None =>
      assert false;
    case Some(q) =>
      assert q <= i;
  }

  /** The largest element of a finite non-empty set of ids. */
  lemma MaxExists(s: set<Id>)
    requires s != {}
    ensures exists m :: m in s && forall j :: j in s ==> j <= m
  {
    var m := Largest(s);
  }

  /** The largest element of a finite non-empty set of ids, found by
      removing one element at a time. */
  lemma {:induction false} Largest(s: set<Id>) returns (m: Id)
    requires s != {}
    ensures m in s && forall j :: j in s ==> j <= m
    decreases |s|
  {
    var x :| x in s;
    var rest := s - {x};
    if rest == {} {
      m := x;
      forall j | j in s ensures j <= m {
        assert j in rest || j == x;
      }
    } else {
      var below := Largest(rest);
      m := if below < x then x else below;
      forall j | j in s ensures j <= m {
        if j != x { assert j in rest; }
      }
    }
  }

  class Database {
    var users: map<Id, User>
    var organizations: map<Id, Organization>
    /** organization_users, keyed by (user id, organization id), holding the role. */
    var memberships: map<(Id, Id), string>
    var projects: map<Id, Project>
    var environments: map<Id, Environment>
    var reports: map<Id, Report>
    var events: map<Id, Event>
    var settings: map<(Id, Id), UserSettings>
    var invitations: map<Id, Invitation>
    var reportStats: map<Id, ReportStat>
    var organizationStats: map<Id, OrganizationStat>

    var nextUserId: Id
    var nextOrganizationId: Id
    var nextProjectId: Id
    var nextEnvironmentId: Id
    var nextReportId: Id
    var nextEventId: Id
    var nextInvitationId: Id

    ghost predicate Valid()
      reads this
    {
      KeysBelow(users, nextUserId) &&
      KeysBelow(organizations, nextOrganizationId) &&
      KeysBelow(projects, nextProjectId) &&
      KeysBelow(environments, nextEnvironmentId) &&
      KeysBelow(reports, nextReportId) &&
      KeysBelow(events, nextEventId) &&
      KeysBelow(invitations, nextInvitationId) &&
      ApiKeysUnique(projects) &&
      EventChain(events)
    }

    constructor Empty()
      ensures Valid()
      ensures users == map[] && organizations == map[] && memberships == map[]
      ensures projects == map[] && environments == map[] && reports == map[]
      ensures events == map[] && settings == map[] && invitations == map[]
      ensures reportStats == map[] && organizationStats == map[]
    {
      users, organizations, memberships := map[], map[], map[];
      projects, environments, reports, events := map[], map[], map[], map[];
      settings, invitations, reportStats, organizationStats := map[], map[], map[], map[];
      nextUserId, nextOrganizationId, nextProjectId, nextEnvironmentId := 0, 0, 0, 0;
      nextReportId, nextEventId, nextInvitationId := 0, 0, 0;
    }

    method InsertUser(u: User) returns (id: Id)
      requires KeysBelow(users, nextUserId)
      modifies this`users, this`nextUserId
      ensures id !in old(users) && forall k :: k in old(users) ==> k < id
      ensures users == old(users)[id := u] && KeysBelow(users, nextUserId)
    {
      id := nextUserId;
      users := users[id := u];
      nextUserId := nextUserId + 1;
    }

    method InsertOrganization(o: Organization) returns (id: Id)
      requires KeysBelow(organizations, nextOrganizationId)
      modifies this`organizations, this`nextOrganizationId
      ensures id == old(nextOrganizationId) && nextOrganizationId == id + 1
      ensures id !in old(organizations) && forall k :: k in old(organizations) ==> k < id
      ensures organizations == old(organizations)[id := o] && KeysBelow(organizations, nextOrganizationId)
    {
      id := nextOrganizationId;
      organizations := organizations[id := o];
      nextOrganizationId := nextOrganizationId + 1;
    }

    method InsertProject(p: Project) returns (id: Id)
      requires KeysBelow(projects, nextProjectId)
      modifies this`projects, this`nextProjectId
      ensures id !in old(projects) && forall k :: k in old(projects) ==> k < id
      ensures projects == old(projects)[id := p] && KeysBelow(projects, nextProjectId)
    {
      id := nextProjectId;
      projects := projects[id := p];
      nextProjectId := nextProjectId + 1;
    }

    /** Inserting an organization_users row; its primary key is the pair
        (user, organization), so a second row for the pair is refused. */
    method InsertMembership(user: Id, org: Id, role: string) returns (r: Result<()>)
      modifies this`memberships
      ensures r.Ok? <==> (user, org) !in old(memberships)
      ensures r.Ok? ==> memberships == old(memberships)[(user, org) := role]
      ensures r.Err? ==> memberships == old(memberships) && r.error == Internal(DuplicateMembership)
    {
      if (user, org) in memberships {
        return Err(Internal(DuplicateMembership));
      }
      memberships := memberships[(user, org) := role];
      r := Ok(());
    }

    /** Saving an edited project row; the API key is not among the edits. */
    method UpdateProject(id: Id, p: Project)
      requires Valid() && id in projects && p.apiKey == projects[id].apiKey
      modifies this`projects
      ensures Valid() && projects == old(projects)[id := p]
    {
      projects := projects[id := p];
    }

    method InsertEnvironment(e: Environment) returns (id: Id)
      requires KeysBelow(environments, nextEnvironmentId)
      modifies this`environments, this`nextEnvironmentId
      ensures id !in old(environments) && forall k :: k in old(environments) ==> k < id
      ensures environments == old(environments)[id := e] && KeysBelow(environments, nextEnvironmentId)
    {
      id := nextEnvironmentId;
      environments := environments[id := e];
      nextEnvironmentId := nextEnvironmentId + 1;
    }

    method InsertReport(r: Report) returns (id: Id)
      requires KeysBelow(reports, nextReportId)
      modifies this`reports, this`nextReportId
      ensures id !in old(reports) && forall k :: k in old(reports) ==> k < id
      ensures reports == old(reports)[id := r] && KeysBelow(reports, nextReportId)
    {
      id := nextReportId;
      reports := reports[id := r];
      nextReportId := nextReportId + 1;
    }

    method InsertInvitation(i: Invitation) returns (id: Id)
      requires KeysBelow(invitations, nextInvitationId)
      modifies this`invitations, this`nextInvitationId
      ensures id !in old(invitations) && forall k :: k in old(invitations) ==> k < id
      ensures invitations == old(invitations)[id := i] && KeysBelow(invitations, nextInvitationId)
    {
      id := nextInvitationId;
      invitations := invitations[id := i];
      nextInvitationId := nextInvitationId + 1;
    }
  }

  /** `Identity::user`: the signed-in user's row, or `LoginRequired` when the
      session names a user that no longer exists. */
  function CurrentUser(db: Database, uid: Id): (r: Result<User>)
    reads db
    ensures r.Ok? <==> uid in db.users
    ensures r.Ok? ==> r.value == db.users[uid]
    ensures r.Err? ==> r.error == LoginRequired
  {
    if uid in db.users then Ok(db.users[uid]) else Err(LoginRequired)
  }

  /** `Users::find().filter(..).one()`: some user the filter keeps, or none
      when it keeps nobody. Which of several the database returns is not
      fixed. */
  method FindUser(db: Database, keeps: User -> bool) returns (found: Option<Id>)
    ensures found.None? <==> forall k :: k in db.users ==> !keeps(db.users[k])
    ensures found.Some? ==> found.value in db.users && keeps(db.users[found.value])
  {
    var matching := set k | k in db.users && keeps(db.users[k]);
    assert forall k :: k in db.users && keeps(db.users[k]) ==> k in matching;
    if matching == {} {
      return None;
    }
    var k :| k in matching;
    found := Some(k);
  }

  /** `users::Model::role`: the user's role in the organization, if the user
      belongs to it. */
  function Role(db: Database, uid: Id, org: Id): (r: Option<string>)
    reads db
    ensures r.Some? <==> (uid, org) in db.memberships
    ensures r.Some? ==> r.value == db.memberships[(uid, org)]
  {
    if (uid, org) in db.memberships then Some(db.memberships[(uid, org)]) else None
  }

  /** `id.user(&ctx)?` followed by `user.role(&ctx.db, org)?.ok_or(LoginRequired)?`:
      the caller's role in the organization, or `LoginRequired`. */
  function CallerRole(db: Database, uid: Id, org: Id): (r: Result<string>)
    reads db
    ensures r.Ok? <==> uid in db.users && (uid, org) in db.memberships
    ensures r.Ok? ==> r.value == db.memberships[(uid, org)]
    ensures r.Err? ==> r.error == LoginRequired
  {
    var _ :- CurrentUser(db, uid);
    if (uid, org) in db.memberships then Ok(db.memberships[(uid, org)]) else Err(LoginRequired)
  }

  /** The lookup the notification handlers start with: the project, or
      `NotFound`; then the caller's role in its organization, or
      `LoginRequired`. */
  function ProjectFor(db: Database, uid: Id, pid: Id): (r: Result<Project>)
    reads db
    ensures r.Ok? <==> pid in db.projects && uid in db.users && (uid, db.projects[pid].organizationId) in db.memberships
    ensures r.Ok? ==> r.value == db.projects[pid]
    ensures r.Err? ==> r.error == if pid !in db.projects then NotFound else LoginRequired
  {
    if pid !in db.projects then Err(NotFound)
    else
      var _ :- CallerRole(db, uid, db.projects[pid].organizationId);
      Ok(db.projects[pid])
  }

  /** The user is an administrator or the owner of the organization. */
  predicate IsManager(role: string)
  {
    role == Admin || role == Owner
  }

  function MembershipsOutside(m: map<(Id, Id), string>, org: Id): map<(Id, Id), string>
  {
    map k | k in m && k.1 != org :: m[k]
  }

  function ProjectsOutside(m: map<Id, Project>, org: Id): map<Id, Project>
  {
    map k | k in m && m[k].organizationId != org :: m[k]
  }

  /** `Organizations::delete`: removes the organization with its memberships
      and projects, or fails when it does not exist. */
  method DeleteOrganization(db: Database, org: Id) returns (r: Result<()>)
    requires db.Valid()
    modifies db`memberships, db`projects, db`organizations
    ensures db.Valid()
    ensures org !in old(db.organizations) ==>
              r == Err(Internal("Organization not found")) && unchanged(db)
    ensures org in old(db.organizations) ==>
              r.Ok? &&
              db.memberships == MembershipsOutside(old(db.memberships), org) &&
              db.projects == ProjectsOutside(old(db.projects), org) &&
              db.organizations == old(db.organizations) - {org}
  {
    if org !in db.organizations {
      return Err(Internal("Organization not found"));
    }
    db.memberships := MembershipsOutside(db.memberships, org);
    db.projects := ProjectsOutside(db.projects, org);
    db.organizations := db.organizations - {org};
    r := Ok(());
  }
}
