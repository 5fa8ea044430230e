/**
 * Per-user notification settings of a project
 * (src/handlers/notifications.rs): the table of the organization's members
 * with their settings for the project, saving a new table in place of the
 * old one, and the project with its environments.
 */
module NotificationSettings {
  import opened Wrappers
  import opened Errors
  import opened Store
  import Ordering

  /** One line of the table: a member, the member's role, and the flags of
      the member's settings row for the project when there is one. */
  datatype SettingsLine = SettingsLine(
    userId: Id, email: string, role: string, name: Option<string>,
    notifyEmail: Option<bool>, notifyPushover: Option<bool>)

  /** The members of an organization. */
  function MembersOf(db: Database, org: Id): set<Id>
    reads db
  {
    set u | u in db.users && (u, org) in db.memberships
  }

  /** The table's lines for the listed members: users joined with their
      membership and, left-joined, with their settings row for `pid`. */
  function Lines(users: map<Id, User>, memberships: map<(Id, Id), string>, settings: map<(Id, Id), UserSettings>,
                 org: Id, pid: Id, ids: seq<Id>): (ls: seq<SettingsLine>)
    requires forall u :: u in ids ==> u in users && (u, org) in memberships
    ensures |ls| == |ids|
    ensures forall k :: 0 <= k < |ids| ==>
              ls[k].userId == ids[k] && ls[k].role == memberships[(ids[k], org)] &&
              ls[k].email == users[ids[k]].email && ls[k].name == users[ids[k]].name &&
              (ls[k].notifyEmail.Some? <==> (pid, ids[k]) in settings) &&
              (ls[k].notifyEmail.Some? ==> ls[k].notifyEmail.value == (settings[(pid, ids[k])].notifyEmail != 0)) &&
              (ls[k].notifyPushover.Some? <==> (pid, ids[k]) in settings) &&
              (ls[k].notifyPushover.Some? ==> ls[k].notifyPushover.value == (settings[(pid, ids[k])].notifyPushover != 0))
  {
    if ids == [] then []
    else
      var u := ids[0];
      var s := if (pid, u) in settings then Some(settings[(pid, u)]) else None;
      [SettingsLine(u, users[u].email, memberships[(u, org)], users[u].name,
                    if s.Some? then Some(s.value.notifyEmail != 0) else None,
                    if s.Some? then Some(s.value.notifyPushover != 0) else None)] +
      Lines(users, memberships, settings, org, pid, ids[1..])
  }

  /** `per_user_notifications`: the organization id and one line per member
      of the project's organization, in user id order. */
  method PerUserNotifications(db: Database, uid: Id, pid: Id) returns (r: Result<(Id, seq<SettingsLine>)>)
    ensures ProjectFor(db, uid, pid).Err? ==> r == Err(ProjectFor(db, uid, pid).error)
    ensures ProjectFor(db, uid, pid).Ok? ==>
              var org := db.projects[pid].organizationId;
              var ids := Ordering.Ascending(MembersOf(db, org));
              r.Ok? && r.value.0 == org && |r.value.1| == |ids| &&
              forall k :: 0 <= k < |ids| ==> r.value.1[k].userId == ids[k] && ids[k] in MembersOf(db, org)
    ensures r.Ok? ==> forall u :: u in MembersOf(db, r.value.0) <==> exists k :: 0 <= k < |r.value.1| && r.value.1[k].userId == u
    ensures r.Ok? ==>
              r.value.1 == Lines(db.users, db.memberships, db.settings, r.value.0, pid, Ordering.Ascending(MembersOf(db, r.value.0)))
  {
    var project :- ProjectFor(db, uid, pid);
    var org := project.organizationId;
    var ids := Ordering.SortIds(MembersOf(db, org));
    var lines := Lines(db.users, db.memberships, db.settings, org, pid, ids);
    assert forall u :: u in ids ==> exists k :: 0 <= k < |ids| && ids[k] == u;
    r := Ok((org, lines));
  }

  /** One submitted line; a missing flag counts as off. */
  datatype Entry = Entry(userId: Id, notifyEmail: Option<bool>, notifyPushover: Option<bool>)

  function Flag(b: Option<bool>): int
  {
    if b == Some(true) then 1 else 0
  }

  function RowOf(e: Entry): UserSettings
  {
    UserSettings(Flag(e.notifyEmail), Flag(e.notifyPushover))
  }

  /** The settings of other projects. */
  function OtherProjects(settings: map<(Id, Id), UserSettings>, pid: Id): map<(Id, Id), UserSettings>
  {
    map k | k in settings && k.0 != pid :: settings[k]
  }

  /** The settings after inserting the entries one by one: an entry whose
      user is not a member is skipped, and a second row for the same user
      breaks the table's primary key (`None`). */
  function Inserted(settings: map<(Id, Id), UserSettings>, members: set<Id>, pid: Id, entries: seq<Entry>)
    : Option<map<(Id, Id), UserSettings>>
  {
    if entries == [] then Some(settings)
    else match Inserted(settings, members, pid, entries[..|entries| - 1])
      case None => None
      case Some(m) =>
        var e := entries[|entries| - 1];
        if e.userId !in members then Some(m)
        else if (pid, e.userId) in m then None
        else Some(m[(pid, e.userId) := RowOf(e)])
  }

  /** The organization's members, by membership row. */
  function MemberIds(memberships: map<(Id, Id), string>, org: Id): set<Id>
  {
    set k | k in memberships && k.1 == org :: k.0
  }

  const DuplicateRow := "duplicate settings row"

  /** `per_user_save`: every settings row of the project is deleted, then
      each submitted line of a member of the project's organization is
      inserted; lines of non-members are skipped. A user submitted twice
      fails on the second insert, after the rows before it were written. */
  method PerUserSave(db: Database, uid: Id, pid: Id, entries: seq<Entry>) returns (r: Result<()>)
    modifies db`settings
    ensures old(ProjectFor(db, uid, pid)).Err? ==> r == Err(old(ProjectFor(db, uid, pid)).error) && db.settings == old(db.settings)
    ensures old(ProjectFor(db, uid, pid)).Ok? ==>
              var saved := Inserted(OtherProjects(old(db.settings), pid),
                                    MemberIds(db.memberships, db.projects[pid].organizationId), pid, entries);
              if saved.None? then r == Err(Internal(DuplicateRow))
              else r == Ok(()) && db.settings == saved.value
  {
    var project :- ProjectFor(db, uid, pid);
    ghost var members := MemberIds(db.memberships, project.organizationId);
    db.settings := OtherProjects(db.settings, pid);
    ghost var start := db.settings;
    var i := 0;
    while i < |entries|
      invariant 0 <= i <= |entries|
      invariant Inserted(start, members, pid, entries[..i]) == Some(db.settings)
    {
      var e := entries[i];
      assert entries[..i + 1][..i] == entries[..i];
      if (e.userId, project.organizationId) in db.memberships {
        assert e.userId in members;
        if (pid, e.userId) in db.settings {
          assert Inserted(start, members, pid, entries[..i + 1]).None?;
          NoneStaysNone(start, members, pid, entries, i + 1);
          return Err(Internal(DuplicateRow));
        }
        db.settings := db.settings[(pid, e.userId) := RowOf(e)];
      } else {
        assert e.userId !in members;
      }
      i := i + 1;
    }
    assert entries[..i] == entries;
    r := Ok(());
  }

  /** Once an insert has failed, later lines do not matter. */
  lemma {:induction false} NoneStaysNone(settings: map<(Id, Id), UserSettings>, members: set<Id>, pid: Id,
                                         entries: seq<Entry>, n: nat)
    requires n <= |entries| && Inserted(settings, members, pid, entries[..n]).None?
    ensures Inserted(settings, members, pid, entries).None?
    decreases |entries| - n
  {
    if n < |entries| {
      assert entries[..n + 1][..n] == entries[..n];
      NoneStaysNone(settings, members, pid, entries, n + 1);
    } else {
      assert entries[..n] == entries;
    }
  }

  /** The user ids of the entries are pairwise different. */
  predicate DistinctUsers(entries: seq<Entry>)
  {
    forall i, j :: 0 <= i < j < |entries| ==> entries[i].userId != entries[j].userId
  }

  /** Saving a table without repeated users replaces the project's settings
      by exactly the members' lines: other projects' rows are kept, and a
      user has a row for the project iff a line names a member. */
  lemma {:induction false} SaveReplaces(settings: map<(Id, Id), UserSettings>, members: set<Id>, pid: Id, entries: seq<Entry>)
    requires DistinctUsers(entries)
    ensures var saved := Inserted(OtherProjects(settings, pid), members, pid, entries);
            saved.Some? &&
            (forall k :: k in saved.value && k.0 != pid <==> k in settings && k.0 != pid) &&
            (forall k :: k in saved.value && k.0 != pid ==> saved.value[k] == settings[k]) &&
            (forall u :: (pid, u) in saved.value <==> u in members && exists i :: 0 <= i < |entries| && entries[i].userId == u) &&
            (forall i :: 0 <= i < |entries| && entries[i].userId in members ==>
                         saved.value[(pid, entries[i].userId)] == RowOf(entries[i]))
    decreases |entries|
  {
    if entries != [] {
      var init := entries[..|entries| - 1];
      var e := entries[|entries| - 1];
      assert DistinctUsers(init);
      SaveReplaces(settings, members, pid, init);
      var before := Inserted(OtherProjects(settings, pid), members, pid, init).value;
      assert (pid, e.userId) !in before;
      forall u | u in members && exists i :: 0 <= i < |entries| && entries[i].userId == u
        ensures (pid, u) in Inserted(OtherProjects(settings, pid), members, pid, entries).value
      {
        var i :| 0 <= i < |entries| && entries[i].userId == u;
        if i < |init| {
          assert init[i].userId == u;
        }
      }
      forall u | (pid, u) in Inserted(OtherProjects(settings, pid), members, pid, entries).value
        ensures u in members && exists i :: 0 <= i < |entries| && entries[i].userId == u
      {
        if (pid, u) in before {
          var i :| 0 <= i < |init| && init[i].userId == u;
          assert entries[i].userId == u;
        } else {
          assert entries[|entries| - 1].userId == u;
        }
      }
      forall i | 0 <= i < |entries| && entries[i].userId in members
        ensures Inserted(OtherProjects(settings, pid), members, pid, entries).value[(pid, entries[i].userId)] == RowOf(entries[i])
      {
        if i < |init| {
          assert init[i] == entries[i];
          assert entries[i].userId != e.userId;
        }
      }
    }
  }

  /** A project with its environments, in id order. */
  datatype ProjectDetails = ProjectDetails(projectId: Id, project: Project, environments: seq<(Id, Environment)>)

  function EnvironmentsOf(environments: map<Id, Environment>, pid: Id): set<Id>
  {
    set e | e in environments && environments[e].projectId == pid
  }

  /** `get_project`: the project and all its environments. */
  method GetProject(db: Database, uid: Id, pid: Id) returns (r: Result<ProjectDetails>)
    ensures ProjectFor(db, uid, pid).Err? ==> r == Err(ProjectFor(db, uid, pid).error)
    ensures ProjectFor(db, uid, pid).Ok? ==>
              r.Ok? && r.value.projectId == pid && r.value.project == db.projects[pid] &&
              (forall e :: e in db.environments && db.environments[e].projectId == pid <==>
                           exists k :: 0 <= k < |r.value.environments| && r.value.environments[k].0 == e) &&
              (forall k :: 0 <= k < |r.value.environments| ==>
                           r.value.environments[k].0 in db.environments &&
                           r.value.environments[k].1 == db.environments[r.value.environments[k].0])
  {
    var project :- ProjectFor(db, uid, pid);
    var ids := Ordering.SortIds(EnvironmentsOf(db.environments, pid));
    var environments := db.environments;
    assert forall k :: 0 <= k < |ids| ==> ids[k] in EnvironmentsOf(environments, pid);
    var envs := seq(|ids|, k requires 0 <= k < |ids| => (ids[k], environments[ids[k]]));
    forall e | e in environments && environments[e].projectId == pid
      ensures exists k :: 0 <= k < |envs| && envs[k].0 == e
    {
      assert e in EnvironmentsOf(environments, pid);
      var k :| 0 <= k < |ids| && ids[k] == e;
      assert envs[k].0 == e;
    }
    r := Ok(ProjectDetails(pid, project, envs));
  }
}
