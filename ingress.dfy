/**
 * The ingestion endpoint (src/handlers/ingress.rs): a client posts an event
 * with its project's API key, an optional environment name and the report
 * title. The handler finds or creates the environment, upserts the report
 * (new, regressed or merely seen again), appends the event to the report's
 * chain of events and, when the report's status changed, queues a
 * notification.
 */
module Ingress {
  import opened Wrappers
  import opened Errors
  import opened Store
  import opened Notifications

  /** The posted JSON body; `data` is the event payload already serialised. */
  datatype Submission = Submission(apiKey: string, envIdent: Option<string>, name: string, data: string)

  const UnknownKey := "API key not found or organization disabled"

  /** The status the upsert gives the report: `New` when no report has the
      title, `Regressed` when the existing one was resolved, none otherwise. */
  function UpsertStatus(existing: Option<Report>): (s: Option<ReportStatus>)
    ensures s == Some(New) <==> existing.None?
    ensures s == Some(Regressed) <==> existing.Some? && existing.value.isResolved > 0
    ensures s.None? <==> existing.Some? && existing.value.isResolved <= 0
  {
    match existing
    case None => Some(New)
    case Some(r) => if r.isResolved > 0 then Some(Regressed) else None
  }

  /** The existing report seen again: only `last_seen` and `is_resolved` change. */
  function Seen(r: Report, now: Time): (s: Report)
    ensures s.projectId == r.projectId && s.environmentId == r.environmentId && s.title == r.title
    ensures s.isSeen == r.isSeen && s.lastSeen == now && s.isResolved == 0
  {
    r.(lastSeen := now, isResolved := 0)
  }

  /** The row a first occurrence creates; the column defaults give it
      `last_seen` = now and leave it unseen and unresolved. */
  function Fresh(projectId: Id, title: string, envId: Option<Id>, now: Time): Report
  {
    Report(projectId, envId, title, now, 0, 0)
  }

  /** The events table after inserting event `id` of `report`, whose
      previous event is `prev`, and pointing `prev` forward to it. */
  function Appended(events: map<Id, Event>, id: Id, report: Id, prev: Option<Id>, data: string): map<Id, Event>
  {
    var added := events[id := Event(report, prev, None, Some(data), None, None)];
    if prev.Some? && prev.value in added then
      added[prev.value := added[prev.value].(nextEventId := Some(id))]
    else added
  }

  /** Appending an event with an id above every existing one, linked to its
      report's latest event, keeps every report's events one chain. */
  lemma AppendKeepsChain(events: map<Id, Event>, id: Id, report: Id, prev: Option<Id>, data: string)
    requires EventChain(events)
    requires forall k :: k in events ==> k < id
    requires LatestBefore(events, report, id, prev)
    ensures EventChain(Appended(events, id, report, prev, data))
  {
    var after := Appended(events, id, report, prev, data);
    forall i
      ensures LinkedAt(after, i)
    {
      if i in after {
        if i == id {
          NewEventLinked(events, id, report, prev, data);
        } else if prev == Some(i) {
          PrevEventLinked(events, id, report, i, data);
        } else {
          OtherEventLinked(events, id, report, prev, data, i);
        }
      }
    }
  }

  lemma NewEventLinked(events: map<Id, Event>, id: Id, report: Id, prev: Option<Id>, data: string)
    requires forall k :: k in events ==> k < id
    requires LatestBefore(events, report, id, prev)
    ensures LinkedAt(Appended(events, id, report, prev, data), id)
  {
    var after := Appended(events, id, report, prev, data);
    assert after[id].reportId == report && after[id].prevEventId == prev;
    forall j | j in after && after[j].reportId == report && j < id
      ensures j in events && events[j].reportId == report
    {
    }
    assert LatestBefore(after, report, id, prev);
  }

  lemma PrevEventLinked(events: map<Id, Event>, id: Id, report: Id, p: Id, data: string)
    requires EventChain(events)
    requires forall k :: k in events ==> k < id
    requires LatestBefore(events, report, id, Some(p))
    ensures LinkedAt(Appended(events, id, report, Some(p), data), p)
  {
    var after := Appended(events, id, report, Some(p), data);
    assert LinkedAt(events, p);
    assert after[p] == events[p].(nextEventId := Some(id));
    forall j | j in after && after[j].reportId == report && j < p
      ensures j in events && events[j].reportId == report
    {
    }
    assert LatestBefore(after, report, p, after[p].prevEventId);
    forall j | j in after && after[j].reportId == report && p < j
      ensures id <= j
    {
    }
    assert EarliestAfter(after, report, p, Some(id));
  }

  lemma OtherEventLinked(events: map<Id, Event>, id: Id, report: Id, prev: Option<Id>, data: string, i: Id)
    requires EventChain(events)
    requires forall k :: k in events ==> k < id
    requires LatestBefore(events, report, id, prev)
    requires i in events && prev != Some(i)
    ensures LinkedAt(Appended(events, id, report, prev, data), i)
  {
    var after := Appended(events, id, report, prev, data);
    var r := events[i].reportId;
    assert LinkedAt(events, i);
    assert after[i] == events[i];
    forall j | j in after && after[j].reportId == r && j != id
      ensures j in events && events[j].reportId == r
    {
    }
    assert LatestBefore(after, r, i, after[i].prevEventId);
    if r == report {
      match prev
      case None =>
        assert false;
      case Some(p) =>
        assert i < p;
        match events[i].nextEventId
        case None =>
          assert false;
        case Some(q) =>
          assert q <= p;
    }
    assert EarliestAfter(after, r, i, after[i].nextEventId);
  }

  /** Some project holds the API key. */
  ghost predicate KnownKey(projects: map<Id, Project>, key: string)
  {
    exists p :: p in projects && projects[p].apiKey == key
  }

  /** The project holding a known API key (one at most, by the unique index). */
  ghost function KeyProject(projects: map<Id, Project>, key: string): (p: Id)
    requires KnownKey(projects, key)
    ensures p in projects && projects[p].apiKey == key
  {
    var p :| p in projects && projects[p].apiKey == key; p
  }

  /** The status the upsert of report `id` gives, from the reports before it. */
  function PriorStatus(reports: map<Id, Report>, id: Id): Option<ReportStatus>
  {
    UpsertStatus(if id in reports then Some(reports[id]) else None)
  }

  /** The queued notification describes the upserted report and its new event,
      without an environment. */
  predicate Announces(n: Notification, status: Option<ReportStatus>, projectId: Id,
                      reportId: Id, report: Report, eventId: Id, event: Event)
  {
    n.status == status && n.projectId == projectId && n.reportId == reportId &&
    n.report == report && n.eventId == eventId && n.event == event && n.environment.None?
  }

  /** The environment step: `envId` is the environment named `name` in any
      project, or a new one created in project `projectId`. */
  ghost predicate EnvironmentStep(before: map<Id, Environment>, after: map<Id, Environment>,
                                  projectId: Id, name: string, envId: Id)
  {
    if exists e :: e in before && before[e].name == name
    then envId in before && before[envId].name == name && after == before
    else envId !in before && after == before[envId := Environment(projectId, name, None)]
  }

  /** The report step: `reportId` is a report titled `title`, seen again, or
      a new report of project `projectId`. */
  ghost predicate ReportStep(before: map<Id, Report>, after: map<Id, Report>,
                             projectId: Id, title: string, envId: Option<Id>, now: Time, reportId: Id)
  {
    if exists k :: k in before && before[k].title == title
    then reportId in before && before[reportId].title == title &&
         after == before[reportId := Seen(before[reportId], now)]
    else reportId !in before && after == before[reportId := Fresh(projectId, title, envId, now)]
  }

  /** The event step: event `eventId`, new, follows the latest event of report
      `reportId`, which now points forward to it. */
  ghost predicate EventStep(before: map<Id, Event>, after: map<Id, Event>, reportId: Id, eventId: Id, data: string)
  {
    eventId !in before &&
    exists prev :: LatestBefore(before, reportId, eventId, prev) &&
      after == Appended(before, eventId, reportId, prev, data)
  }

  /** Finds the environment named `name` in any project, or creates it in
      project `projectId`. */
  method FindOrCreateEnvironment(db: Database, projectId: Id, name: string) returns (envId: Id)
    requires db.Valid()
    modifies db`environments, db`nextEnvironmentId
    ensures db.Valid()
    ensures EnvironmentStep(old(db.environments), db.environments, projectId, name, envId)
  {
    var named := set e | e in db.environments && db.environments[e].name == name;
    assert forall e :: e in db.environments && db.environments[e].name == name ==> e in named;
    if named != {} {
      envId :| envId in named;
    } else {
      envId := db.InsertEnvironment(Environment(projectId, name, None));
    }
  }

  /** Upserts the report titled `title` and gives the status of the upsert. */
  method UpsertReport(db: Database, projectId: Id, title: string, envId: Option<Id>, now: Time)
    returns (reportId: Id, status: Option<ReportStatus>)
    requires db.Valid()
    modifies db`reports, db`nextReportId
    ensures db.Valid()
    ensures status == PriorStatus(old(db.reports), reportId)
    ensures reportId in db.reports
    ensures ReportStep(old(db.reports), db.reports, projectId, title, envId, now, reportId)
  {
    var titled := set k | k in db.reports && db.reports[k].title == title;
    assert forall k :: k in db.reports && db.reports[k].title == title ==> k in titled;
    if titled != {} {
      reportId :| reportId in titled;
      status := UpsertStatus(Some(db.reports[reportId]));
      db.reports := db.reports[reportId := Seen(db.reports[reportId], now)];
    } else {
      status := UpsertStatus(None);
      reportId := db.InsertReport(Fresh(projectId, title, envId, now));
    }
  }

  /** Inserts the next event of report `reportId` after its latest event,
      then points that event forward to the new one. */
  method AppendEvent(db: Database, reportId: Id, data: string) returns (eventId: Id)
    requires db.Valid()
    modifies db`events, db`nextEventId
    ensures db.Valid()
    ensures eventId in db.events
    ensures EventStep(old(db.events), db.events, reportId, eventId, data)
  {
    var mine := set k | k in db.events && db.events[k].reportId == reportId;
    assert forall j :: j in db.events && db.events[j].reportId == reportId ==> j in mine;
    var prev: Option<Id> := None;
    if mine != {} {
      MaxExists(mine);
      var latest :| latest in mine && forall j :: j in mine ==> j <= latest;
      prev := Some(latest);
    }
    eventId := db.nextEventId;
    assert LatestBefore(db.events, reportId, eventId, prev);
    AppendKeepsChain(db.events, eventId, reportId, prev, data);
    ghost var expected := Appended(db.events, eventId, reportId, prev, data);
    db.events := db.events[eventId := Event(reportId, prev, None, Some(data), None, None)];
    db.nextEventId := eventId + 1;
    if prev.Some? {
      db.events := db.events[prev.value := db.events[prev.value].(nextEventId := Some(eventId))];
    }
    assert db.events == expected;
  }

  /** `ingress`. Returns, besides the response, the environment, report and
      event the submission went to (meaningful when `r` is `Ok`). */
  method Ingress(db: Database, queue: Queue, sub: Submission, now: Time)
    returns (r: Result<()>, envId: Option<Id>, reportId: Id, eventId: Id)
    requires db.Valid()
    modifies db`environments, db`nextEnvironmentId, db`reports, db`nextReportId
    modifies db`events, db`nextEventId, queue
    ensures db.Valid()
    // An unknown key is refused and nothing is written.
    ensures (forall p :: p in old(db.projects) ==> old(db.projects)[p].apiKey != sub.apiKey) ==>
              r == Err(Errors.New(UnknownKey)) && unchanged(db) && unchanged(queue)
    ensures KnownKey(old(db.projects), sub.apiKey) ==> reportId in db.reports && eventId in db.events
    // The environment is looked up by name in every project, else created in this one.
    ensures KnownKey(old(db.projects), sub.apiKey) && sub.envIdent.None? ==>
              envId.None? && db.environments == old(db.environments)
    ensures KnownKey(old(db.projects), sub.apiKey) && sub.envIdent.Some? ==>
              envId.Some? &&
              EnvironmentStep(old(db.environments), db.environments,
                              KeyProject(old(db.projects), sub.apiKey), sub.envIdent.value, envId.value)
    // The report is matched on its exact title alone.
    ensures KnownKey(old(db.projects), sub.apiKey) ==>
              ReportStep(old(db.reports), db.reports,
                         KeyProject(old(db.projects), sub.apiKey), sub.name, envId, now, reportId)
    // The event goes after the report's latest one.
    ensures KnownKey(old(db.projects), sub.apiKey) ==>
              EventStep(old(db.events), db.events, reportId, eventId, sub.data)
    // A notification is queued exactly when the status changed.
    ensures KnownKey(old(db.projects), sub.apiKey) && PriorStatus(old(db.reports), reportId).None? ==>
              r == Ok(()) && unchanged(queue)
    ensures KnownKey(old(db.projects), sub.apiKey) && PriorStatus(old(db.reports), reportId).Some? ==>
              queue.closed == old(queue.closed) &&
              (old(queue.closed) ==> r.Err? && r.error.Internal? && queue.pending == old(queue.pending)) &&
              (!old(queue.closed) ==>
                 r == Ok(()) && |queue.pending| == |old(queue.pending)| + 1 &&
                 queue.pending[..|old(queue.pending)|] == old(queue.pending) &&
                 Announces(queue.pending[|old(queue.pending)|], PriorStatus(old(db.reports), reportId),
                           KeyProject(old(db.projects), sub.apiKey), reportId, db.reports[reportId],
                           eventId, db.events[eventId]))
  {
    envId, reportId, eventId := None, 0, 0;
    var matching := set p | p in db.projects && db.projects[p].apiKey == sub.apiKey;
    assert forall p :: p in db.projects && db.projects[p].apiKey == sub.apiKey ==> p in matching;
    if matching == {} {
      return Err(Errors.New(UnknownKey)), envId, reportId, eventId;
    }
    var projectId :| projectId in matching;
    var project := db.projects[projectId];
    assert projectId == KeyProject(db.projects, sub.apiKey);
    if sub.envIdent.Some? {
      var e := FindOrCreateEnvironment(db, projectId, sub.envIdent.value);
      envId := Some(e);
    }
    var status;
    reportId, status := UpsertReport(db, projectId, sub.name, envId, now);
    eventId := AppendEvent(db, reportId, sub.data);
    r := Ok(());
    if status.Some? {
      r := queue.Push(Notification(status, projectId, project, eventId, db.events[eventId], reportId, db.reports[reportId], None));
    }
  }
}
