/**
 * Scheduled jobs (src/cron.rs): the spike alert, which compares each
 * report's counter for the current hour with a counter of the previous hour
 * and announces a spiking report once, and the daily alert that tells the
 * owners of an organization that its requests passed its alert threshold.
 */
module Cron {
  import opened Wrappers
  import opened Errors
  import opened Store
  import opened App
  import Ordering
  import Reports
  import opened Notifications

  const UnknownCommand := "Unknown command"
  const U32Max: nat := 0xFFFF_FFFF

  /** The start of the hour holding `t`: the minutes and seconds set to zero. */
  function HourStart(t: Time): (h: Time)
    ensures h <= t < h + 3600 && h % 3600 == 0
  {
    t - t % 3600
  }

  /** The start of the day holding `t`. */
  function DayStart(t: Time): (d: Time)
    ensures d <= t < d + 86400 && d % 86400 == 0
  {
    t - t % 86400
  }

  // ---------------------------------------------------------------------
  // notify_spiking_reports
  // ---------------------------------------------------------------------

  /** The query of `notify_spiking_reports`: unflagged event totals dated
      from the start of the previous hour on. */
  predicate Fetched(s: ReportStat, now: Time)
  {
    s.category == "event" && s.name == "total_count" && s.date >= HourStart(now - 3600) && !s.spiking
  }

  /** The fetched rows of the current hour: the ones that may spike. */
  function Candidates(stats: map<Id, ReportStat>, now: Time): set<Id>
  {
    set k | k in stats && Fetched(stats[k], now) && stats[k].date == HourStart(now)
  }

  /** The fetched rows of the previous hour: any of them, whatever its
      report, is the comparison base. */
  function Bases(stats: map<Id, ReportStat>, now: Time): set<Id>
  {
    set k | k in stats && Fetched(stats[k], now) && stats[k].date == HourStart(now - 3600)
  }

  /** `u32::saturating_sub`. */
  function SaturatingSub(a: nat, b: nat): nat
  {
    if a > b then a - b else 0
  }

  /** `diff as f64 / base as f64 * 100.0 > 50.0`. Dividing by a zero base
      gives infinity for a positive difference, and NaN, which is not
      greater than anything, for a zero one. */
  predicate Spikes(diff: nat, base: nat)
  {
    if base == 0 then diff > 0 else (diff as real / base as real) * 100.0 > 50.0
  }

  /** The spike rule is exactly "the increase is more than half the base",
      a zero base included. */
  lemma SpikeRuleExact(diff: nat, base: nat)
    ensures Spikes(diff, base) <==> 2 * diff > base
  {
    if base > 0 {
      var q := diff as real / base as real;
      var b := base as real;
      assert q * b == diff as real;
      var x := q * 100.0 - 50.0;
      assert x * b == diff as real * 100.0 - 50.0 * b;
      SignOfProduct(x, b);
    }
  }

  lemma SignOfProduct(x: real, b: real)
    requires b > 0.0
    ensures x > 0.0 <==> x * b > 0.0
  {
  }

  /** `diff_percent.round() as u32`: the percentage rounded half up (it is
      never negative), saturating at `u32::MAX`; the infinite percentage of
      a zero base saturates too, and NaN converts to 0. */
  function Percentage(diff: nat, base: nat): nat
  {
    if base == 0 then (if diff > 0 then U32Max else 0)
    else
      var p := (200 * diff + base) / (2 * base);
      if p < U32Max then p else U32Max
  }

  /** Below the saturation point, the percentage is within one half of
      `100 * diff / base`. */
  lemma PercentageRounds(diff: nat, base: nat)
    requires base > 0 && Percentage(diff, base) < U32Max
    ensures var p := Percentage(diff, base);
      base * (2 * p - 1) <= 200 * diff < base * (2 * p + 1)
  {
    var n, d := 200 * diff + base, 2 * base;
    var p := n / d;
    assert n == d * p + n % d && 0 <= n % d < d;
    assert d * p == base * (2 * p);
  }

  /** Stat `k` spikes against stat `base`. */
  predicate SpikesAt(stats: map<Id, ReportStat>, base: Id, k: Id)
  {
    k in stats && base in stats &&
    Spikes(SaturatingSub(stats[k].count, stats[base].count), stats[base].count)
  }

  /** The rows of `ks` that spike against `base`, in the order of `ks`. */
  function SpikingRows(stats: map<Id, ReportStat>, base: Id, ks: seq<Id>): (r: seq<Id>)
    ensures forall k :: k in r <==> k in ks && SpikesAt(stats, base, k)
  {
    if ks == [] then []
    else
      var last := ks[|ks| - 1];
      SpikingRows(stats, base, ks[..|ks| - 1]) + (if SpikesAt(stats, base, last) then [last] else [])
  }

  /** The stats table with the rows `ids` flagged as spiking. */
  function FlagSpiking(stats: map<Id, ReportStat>, ids: set<Id>): map<Id, ReportStat>
  {
    map k | k in stats :: if k in ids then stats[k].(spiking := true) else stats[k]
  }

  /** `e` is the event of `report` with the largest id. */
  ghost predicate IsLatestEvent(events: map<Id, Event>, report: Id, e: Id)
  {
    e in events && events[e].reportId == report &&
    forall j :: j in events && events[j].reportId == report ==> j <= e
  }

  /** The alert can be built: the stat's report, its project and an event of
      the report exist. */
  ghost predicate Alertable(db: Database, stats: map<Id, ReportStat>, k: Id)
    reads db`reports, db`projects, db`events
  {
    k in stats && stats[k].reportId in db.reports &&
    db.reports[stats[k].reportId].projectId in db.projects &&
    exists e :: e in db.events && db.events[e].reportId == stats[k].reportId
  }

  ghost function AlertableOf(db: Database, stats: map<Id, ReportStat>, ks: seq<Id>): (r: seq<Id>)
    reads db`reports, db`projects, db`events
  {
    if ks == [] then []
    else
      var last := ks[|ks| - 1];
      AlertableOf(db, stats, ks[..|ks| - 1]) + (if Alertable(db, stats, last) then [last] else [])
  }

  /** The stats alerted for are exactly the flagged ones that can be alerted for. */
  lemma {:induction false} AlertableOfMembers(db: Database, stats: map<Id, ReportStat>, ks: seq<Id>)
    ensures forall k :: k in AlertableOf(db, stats, ks) <==> k in ks && Alertable(db, stats, k)
    decreases |ks|
  {
    if ks != [] {
      var init := ks[..|ks| - 1];
      AlertableOfMembers(db, stats, init);
      assert ks == init + [ks[|ks| - 1]];
    }
  }

  /** `n` is the spike alert for stat `k` against stat `base`: a `Spiking`
      notification with the rounded percentage, about the stat's report, its
      project, its environment and its latest event. */
  ghost predicate IsSpikeAlert(db: Database, stats: map<Id, ReportStat>, base: Id, k: Id, n: Notification)
    reads db`reports, db`projects, db`events, db`environments
    requires base in stats && k in stats
  {
    var s := stats[k];
    var b := stats[base].count;
    n.status == Some(Spiking(Percentage(SaturatingSub(s.count, b), b))) &&
    n.reportId == s.reportId && n.reportId in db.reports && n.report == db.reports[n.reportId] &&
    n.projectId == n.report.projectId && n.projectId in db.projects && n.project == db.projects[n.projectId] &&
    IsLatestEvent(db.events, n.reportId, n.eventId) && n.event == db.events[n.eventId] &&
    n.environment == Reports.EnvironmentOf(db, n.report)
  }

  /** The latest event of a report, if it has one. */
  method LatestEvent(db: Database, report: Id) returns (e: Option<Id>)
    ensures e.None? <==> forall j :: j in db.events ==> db.events[j].reportId != report
    ensures e.Some? ==> IsLatestEvent(db.events, report, e.value)
  {
    var mine := set k | k in db.events && db.events[k].reportId == report;
    assert forall j :: j in db.events && db.events[j].reportId == report ==> j in mine;
    if mine == {} {
      return None;
    }
    MaxExists(mine);
    var latest :| latest in mine && forall j :: j in mine ==> j <= latest;
    e := Some(latest);
  }

  /** Builds and queues the alert for a spiking stat, if it can be built.
      A failed send is only logged. */
  method AlertOne(db: Database, queue: Queue, stats: map<Id, ReportStat>, base: Id, k: Id)
    returns (alerted: bool)
    requires base in stats && k in stats
    modifies queue
    ensures alerted == Alertable(db, stats, k)
    ensures queue.closed == old(queue.closed)
    ensures !alerted || old(queue.closed) ==> queue.pending == old(queue.pending)
    ensures alerted && !old(queue.closed) ==>
              |queue.pending| == |old(queue.pending)| + 1 &&
              queue.pending[..|old(queue.pending)|] == old(queue.pending) &&
              IsSpikeAlert(db, stats, base, k, queue.pending[|old(queue.pending)|])
  {
    var s := stats[k];
    alerted := false;
    if s.reportId !in db.reports {
      return;
    }
    var report := db.reports[s.reportId];
    if report.projectId !in db.projects {
      return;
    }
    var latest := LatestEvent(db, s.reportId);
    if latest.None? {
      return;
    }
    alerted := true;
    var b := stats[base].count;
    var n := Notification(Some(Spiking(Percentage(SaturatingSub(s.count, b), b))),
                          report.projectId, db.projects[report.projectId],
                          latest.value, db.events[latest.value],
                          s.reportId, report, Reports.EnvironmentOf(db, report));
    var _ := queue.Push(n);
  }

  /** `notify_spiking_reports`. Returns, besides the result, the base it
      compared against, the stats it flagged and those it sent an alert
      for. The fetched rows of the current hour are taken in id order. */
  method NotifySpiking(db: Database, queue: Queue, now: Time)
    returns (r: Result<()>, base: Option<Id>, spiked: seq<Id>, alerted: seq<Id>)
    modifies db`reportStats, queue
    ensures r == Ok(())
    ensures base.None? <==> Bases(old(db.reportStats), now) == {}
    ensures base.Some? ==> base.value in Bases(old(db.reportStats), now)
    ensures base.None? ==> spiked == [] && unchanged(db) && unchanged(queue)
    ensures base.Some? ==>
              spiked == SpikingRows(old(db.reportStats), base.value, Ordering.Ascending(Candidates(old(db.reportStats), now)))
    ensures db.reportStats == FlagSpiking(old(db.reportStats), set k | k in spiked)
    ensures alerted == AlertableOf(db, old(db.reportStats), spiked)
    ensures queue.closed == old(queue.closed)
    ensures base.Some? ==>
              base.value in old(db.reportStats) &&
              Announced(db, old(db.reportStats), base.value, alerted, old(queue.pending), queue.pending, queue.closed)
  {
    r, spiked, alerted := Ok(()), [], [];
    var stats := db.reportStats;
    var bases := Bases(stats, now);
    if bases == {} {
      return r, None, spiked, alerted;
    }
    var b :| b in bases;
    base := Some(b);
    var candidates := Ordering.SortIds(Candidates(stats, now));
    assert forall x :: x in candidates ==> x in stats;
    ghost var start := queue.pending;
    for i := 0 to |candidates|
      invariant db.reportStats == FlagSpiking(stats, set k | k in spiked)
      invariant spiked == SpikingRows(stats, b, candidates[..i])
      invariant forall x :: x in spiked ==> x in candidates[..i]
      invariant alerted == AlertableOf(db, stats, spiked)
      invariant queue.closed == old(queue.closed)
      invariant Announced(db, stats, b, alerted, start, queue.pending, queue.closed)
    {
      var k := candidates[i];
      SpikingSnoc(stats, b, candidates, i);
      spiked, alerted := Consider(db, queue, stats, b, k, start, spiked, alerted);
    }
    assert candidates[..|candidates|] == candidates;
  }

  /** The alerts queued after `start` are those for the rows `alerted`, in
      order, unless the queue is closed. */
  ghost predicate Announced(db: Database, stats: map<Id, ReportStat>, base: Id, alerted: seq<Id>,
                            start: seq<Notification>, pending: seq<Notification>, closed: bool)
    reads db`reports, db`projects, db`events, db`environments
    requires base in stats
  {
    (closed ==> pending == start) &&
    (!closed ==>
       |pending| == |start| + |alerted| && pending[..|start|] == start &&
       forall j :: 0 <= j < |alerted| ==>
         alerted[j] in stats && IsSpikeAlert(db, stats, base, alerted[j], pending[|start| + j]))
  }

  /** One iteration of `notify_spiking_reports`: flags stat `k` and queues
      its alert when it spikes. */
  method Consider(db: Database, queue: Queue, stats: map<Id, ReportStat>, b: Id, k: Id,
                  ghost start: seq<Notification>, spiked: seq<Id>, alerted: seq<Id>)
    returns (spiked': seq<Id>, alerted': seq<Id>)
    requires b in stats && k in stats && k !in spiked
    requires db.reportStats == FlagSpiking(stats, set x | x in spiked)
    requires alerted == AlertableOf(db, stats, spiked)
    requires Announced(db, stats, b, alerted, start, queue.pending, queue.closed)
    modifies db`reportStats, queue
    ensures spiked' == spiked + (if SpikesAt(stats, b, k) then [k] else [])
    ensures db.reportStats == FlagSpiking(stats, set x | x in spiked')
    ensures alerted' == AlertableOf(db, stats, spiked')
    ensures queue.closed == old(queue.closed)
    ensures Announced(db, stats, b, alerted', start, queue.pending, queue.closed)
  {
    spiked', alerted' := spiked, alerted;
    var s := stats[k];
    var diff := SaturatingSub(s.count, stats[b].count);
    if Spikes(diff, stats[b].count) {
      AlertableSnoc(db, stats, spiked, k);
      Flag(db, stats, spiked, k);
      spiked' := spiked + [k];
      ghost var before := queue.pending;
      var sent := AlertOne(db, queue, stats, b, k);
      if sent {
        alerted' := alerted + [k];
        AnnouncedStep(db, stats, b, alerted, k, start, before, queue.pending, queue.closed);
      }
    }
  }

  /** Marks stat `k` as spiking, next to those already flagged. */
  method Flag(db: Database, stats: map<Id, ReportStat>, spiked: seq<Id>, k: Id)
    requires k in stats
    requires db.reportStats == FlagSpiking(stats, set x | x in spiked)
    modifies db`reportStats
    ensures db.reportStats == FlagSpiking(stats, set x | x in spiked + [k])
  {
    FlagStep(stats, spiked, k);
    db.reportStats := db.reportStats[k := stats[k].(spiking := true)];
  }

  lemma SpikingSnoc(stats: map<Id, ReportStat>, b: Id, xs: seq<Id>, i: nat)
    requires i < |xs|
    requires forall p, q :: 0 <= p < q < |xs| ==> xs[p] < xs[q]
    ensures xs[i] !in xs[..i]
    ensures SpikingRows(stats, b, xs[..i + 1]) ==
            SpikingRows(stats, b, xs[..i]) + (if SpikesAt(stats, b, xs[i]) then [xs[i]] else [])
  {
    assert xs[..i + 1][..i] == xs[..i];
  }

  lemma FlagStep(stats: map<Id, ReportStat>, spiked: seq<Id>, k: Id)
    requires k in stats
    ensures FlagSpiking(stats, set x | x in spiked + [k]) ==
            FlagSpiking(stats, set x | x in spiked)[k := stats[k].(spiking := true)]
  {
    assert (set x | x in spiked + [k]) == (set x | x in spiked) + {k};
  }

  lemma AlertableSnoc(db: Database, stats: map<Id, ReportStat>, xs: seq<Id>, k: Id)
    ensures AlertableOf(db, stats, xs + [k]) == AlertableOf(db, stats, xs) + (if Alertable(db, stats, k) then [k] else [])
  {
    assert (xs + [k])[..|xs|] == xs;
  }

  lemma AnnouncedStep(db: Database, stats: map<Id, ReportStat>, b: Id, alerted: seq<Id>, k: Id,
                      start: seq<Notification>, before: seq<Notification>, after: seq<Notification>, closed: bool)
    requires b in stats && k in stats
    requires Announced(db, stats, b, alerted, start, before, closed)
    requires closed ==> after == before
    requires !closed ==>
               |after| == |before| + 1 && after[..|before|] == before &&
               IsSpikeAlert(db, stats, b, k, after[|before|])
    ensures Announced(db, stats, b, alerted + [k], start, after, closed)
  {
    if !closed {
      assert after[..|start|] == before[..|start|];
      forall j | 0 <= j < |alerted| + 1
        ensures (alerted + [k])[j] in stats && IsSpikeAlert(db, stats, b, (alerted + [k])[j], after[|start| + j])
      {
        if j < |alerted| {
          assert after[|start| + j] == before[|start| + j];
        }
      }
    }
  }

  /** A flagged row is no longer fetched by any later run: each stat raises
      at most one spike alert. */
  lemma FlaggedNotRefetched(stats: map<Id, ReportStat>, ids: set<Id>, k: Id, later: Time)
    requires k in ids && k in stats
    ensures k !in Candidates(FlagSpiking(stats, ids), later)
    ensures k !in Bases(FlagSpiking(stats, ids), later)
  {
    assert FlagSpiking(stats, ids)[k].spiking;
  }

  // ---------------------------------------------------------------------
  // notify_organization_limits
  // ---------------------------------------------------------------------

  /** `s` is the organization's event total of day `day`. */
  predicate DayTotal(s: OrganizationStat, org: Id, day: Time)
  {
    s.organizationId == org && s.category == "event" && s.name == "total_count" && s.date == day
  }

  /** Stat `s` is an unflagged day total of organization `o` that reaches
      the organization's alert threshold, if it has one. */
  predicate Reaches(orgs: map<Id, Organization>, s: OrganizationStat, o: Id, day: Time)
  {
    o in orgs && DayTotal(s, o, day) && !s.isOverAlertThreshold &&
    orgs[o].requestsAlertThreshold.Some? && s.count >= orgs[o].requestsAlertThreshold.value
  }

  /** The organizations the limit query returns for day `day`. */
  function OverThreshold(orgs: map<Id, Organization>, stats: map<Id, OrganizationStat>, day: Time): (r: set<Id>)
    ensures forall o :: o in r ==> o in orgs && exists s :: s in stats && DayTotal(stats[s], o, day)
  {
    set o | o in orgs && exists s :: s in stats && Reaches(orgs, stats[s], o, day)
  }

  function LimitSubject(name: string): string
  {
    "Don't Panic: Your organization \"" + name + "\" has exceeded the daily requests alert threshold"
  }

  const LimitTemplate := "email/org_requests_alert"

  /** The owners of an organization. */
  function Owners(db: Database, org: Id): set<Id>
    reads db`users, db`memberships
  {
    set u | u in db.users && (u, org) in db.memberships && db.memberships[(u, org)] == Owner
  }

  /** One alert mail per listed user. */
  function MailsTo(users: map<Id, User>, ids: seq<Id>, subject: string): (mails: seq<Mail>)
    ensures |mails| == |ids|
    ensures forall i :: 0 <= i < |ids| ==>
              mails[i].subject == subject && mails[i].template == LimitTemplate &&
              (ids[i] in users ==> mails[i].to == users[ids[i]].email)
  {
    if ids == [] then []
    else [Mail(if ids[0] in users then users[ids[0]].email else "", subject, LimitTemplate)] + MailsTo(users, ids[1..], subject)
  }

  /** The alert mails of one organization, one per owner, in the order of
      the owners' ids. */
  ghost function OwnerMails(db: Database, org: Id): seq<Mail>
    reads db`users, db`memberships, db`organizations
    requires org in db.organizations
  {
    MailsTo(db.users, Ordering.Ascending(Owners(db, org)), LimitSubject(db.organizations[org].name))
  }

  /** The alert mails of the organizations `orgs`, in order. */
  ghost function LimitMails(db: Database, orgs: seq<Id>): seq<Mail>
    reads db`users, db`memberships, db`organizations
    requires forall o :: o in orgs ==> o in db.organizations
  {
    if orgs == [] then []
    else LimitMails(db, orgs[..|orgs| - 1]) + OwnerMails(db, orgs[|orgs| - 1])
  }

  lemma {:induction false} LimitMailsPrefix(db: Database, orgs: seq<Id>, i: nat)
    requires forall o :: o in orgs ==> o in db.organizations
    requires i <= |orgs|
    ensures |LimitMails(db, orgs[..i])| <= |LimitMails(db, orgs)|
    ensures LimitMails(db, orgs[..i]) == LimitMails(db, orgs)[..|LimitMails(db, orgs[..i])|]
    decreases |orgs|
  {
    if i < |orgs| {
      var init := orgs[..|orgs| - 1];
      assert init[..i] == orgs[..i];
      LimitMailsPrefix(db, init, i);
    } else {
      assert orgs[..i] == orgs;
    }
  }

  /** The stats table with the rows `ids` marked over the threshold. */
  function FlagOver(stats: map<Id, OrganizationStat>, ids: set<Id>): map<Id, OrganizationStat>
  {
    map k | k in stats :: if k in ids then stats[k].(isOverAlertThreshold := true) else stats[k]
  }

  /** Sends `mails` in order, stopping at the first that fails. Returns how
      many were attempted. */
  method SendAll(ctx: Context, mails: seq<Mail>) returns (r: Result<()>, attempted: nat)
    requires ctx.mailer.Some?
    ensures attempted <= |mails|
    ensures SentInOrder(ctx, mails, mails[..attempted], r.Ok?)
    ensures r.Err? ==> r.error.Internal?
  {
    attempted := 0;
    while attempted < |mails|
      invariant attempted <= |mails|
      invariant forall j :: 0 <= j < attempted ==> Delivered(ctx, mails[j])
    {
      var sent := SendMail(ctx, mails[attempted], false);
      attempted := attempted + 1;
      if sent.Err? {
        return Err(sent.error), attempted;
      }
    }
    assert mails[..attempted] == mails;
    r := Ok(());
  }

  /** The mails of one organization, in the order of its owners' ids. */
  method MailsOf(db: Database, org: Id) returns (mails: seq<Mail>)
    requires org in db.organizations
    ensures mails == OwnerMails(db, org)
  {
    var owners := Ordering.SortIds(Owners(db, org));
    mails := MailsTo(db.users, owners, LimitSubject(db.organizations[org].name));
  }

  /** The rows flagged so far are day totals of the first organizations,
      one each. */
  ghost predicate FlaggedFor(stats: map<Id, OrganizationStat>, orgs: seq<Id>, flagged: seq<Id>, day: Time)
  {
    |flagged| <= |orgs| &&
    forall i :: 0 <= i < |flagged| ==> flagged[i] in stats && DayTotal(stats[flagged[i]], orgs[i], day)
  }

  /** `mails` went out in order, all delivered but possibly the last;
      complete when `done`, and otherwise ended by a failure. */
  ghost predicate SentInOrder(ctx: Context, planned: seq<Mail>, mails: seq<Mail>, done: bool)
  {
    |mails| <= |planned| && mails == planned[..|mails|] &&
    (forall j :: 0 <= j < |mails| - 1 ==> Delivered(ctx, mails[j])) &&
    (done ==> mails == planned && forall j :: 0 <= j < |mails| ==> Delivered(ctx, mails[j])) &&
    (!done ==> mails != [] && !Delivered(ctx, mails[|mails| - 1]))
  }

  /** `notify_organization_limits`, for the day holding `now`. Returns,
      besides the result, the stats rows it flagged (one per organization it
      reached, in the order of the organizations' ids) and the mails it
      attempted. Without a mailer it does nothing; the first mail that
      fails ends the job with an internal error. */
  method NotifyLimits(db: Database, ctx: Context, now: Time)
    returns (r: Result<()>, flagged: seq<Id>, mails: seq<Mail>)
    modifies db`organizationStats
    ensures ctx.mailer.None? ==> r == Ok(()) && flagged == [] && mails == [] && unchanged(db)
    ensures ctx.mailer.Some? ==>
      var orgs := Ordering.Ascending(OverThreshold(db.organizations, old(db.organizationStats), DayStart(now)));
      && (forall o :: o in orgs ==> o in db.organizations)
      && FlaggedFor(old(db.organizationStats), orgs, flagged, DayStart(now))
      && (r.Ok? ==> |flagged| == |orgs|)
      && db.organizationStats == FlagOver(old(db.organizationStats), set k | k in flagged)
      && SentInOrder(ctx, LimitMails(db, orgs[..|flagged|]), mails, r.Ok?)
      && (r.Ok? ==> mails == LimitMails(db, orgs))
      && (r.Err? ==> r.error.Internal?)
  {
    r, flagged, mails := Ok(()), [], [];
    var stats := db.organizationStats;
    var day := DayStart(now);
    var orgs := Ordering.SortIds(OverThreshold(db.organizations, stats, day));
    if ctx.mailer.None? {
      return;
    }
    assert forall o :: o in orgs ==> o in db.organizations && exists s :: s in stats && DayTotal(stats[s], o, day);
    r, flagged, mails := AlertAll(db, ctx, stats, orgs, day);
  }

  /** The loop of `notify_organization_limits` over the organizations
      `orgs`, with `stats` the stats table before it. */
  method AlertAll(db: Database, ctx: Context, stats: map<Id, OrganizationStat>, orgs: seq<Id>, day: Time)
    returns (r: Result<()>, flagged: seq<Id>, mails: seq<Mail>)
    requires ctx.mailer.Some? && db.organizationStats == stats
    requires forall o :: o in orgs ==> o in db.organizations && exists s :: s in stats && DayTotal(stats[s], o, day)
    modifies db`organizationStats
    ensures FlaggedFor(stats, orgs, flagged, day)
    ensures r.Ok? ==> |flagged| == |orgs|
    ensures db.organizationStats == FlagOver(stats, set k | k in flagged)
    ensures SentInOrder(ctx, LimitMails(db, orgs[..|flagged|]), mails, r.Ok?)
    ensures r.Ok? ==> mails == LimitMails(db, orgs)
    ensures r.Err? ==> r.error.Internal?
  {
    r, flagged, mails := Ok(()), [], [];
    for i := 0 to |orgs|
      invariant FlaggedFor(stats, orgs, flagged, day) && |flagged| == i
      invariant db.organizationStats == FlagOver(stats, set k | k in flagged)
      invariant SentInOrder(ctx, LimitMails(db, orgs[..i]), mails, true)
    {
      var sent;
      sent, flagged, mails := AlertNext(db, ctx, stats, orgs, day, i, flagged, mails);
      if sent.Err? {
        return Err(sent.error), flagged, mails;
      }
    }
    assert orgs[..|orgs|] == orgs;
  }

  /** One turn of the loop of `notify_organization_limits`: organization
      `orgs[i]` is flagged and its owners mailed. */
  method AlertNext(db: Database, ctx: Context, stats: map<Id, OrganizationStat>, orgs: seq<Id>, day: Time,
                   i: nat, flagged: seq<Id>, mails: seq<Mail>)
    returns (sent: Result<()>, flagged': seq<Id>, mails': seq<Mail>)
    requires ctx.mailer.Some? && i < |orgs|
    requires forall o :: o in orgs ==> o in db.organizations && exists s :: s in stats && DayTotal(stats[s], o, day)
    requires FlaggedFor(stats, orgs, flagged, day) && |flagged| == i
    requires db.organizationStats == FlagOver(stats, set k | k in flagged)
    requires SentInOrder(ctx, LimitMails(db, orgs[..i]), mails, true)
    modifies db`organizationStats
    ensures FlaggedFor(stats, orgs, flagged', day) && |flagged'| == i + 1
    ensures db.organizationStats == FlagOver(stats, set k | k in flagged')
    ensures SentInOrder(ctx, LimitMails(db, orgs[..i + 1]), mails', sent.Ok?)
    ensures sent.Err? ==> sent.error.Internal?
  {
    var s, mine;
    s, sent, mine := AlertOrganization(db, ctx, stats, orgs[i], day);
    FlagOverStep(stats, flagged, s);
    LimitsStep(db, ctx, stats, orgs, day, i, flagged, mails, s, mine, sent.Ok?);
    flagged' := flagged + [s];
    mails' := mails + mine;
  }

  /** One organization of `notify_organization_limits`: flags its day total
      and mails its owners, stopping at the first failure. */
  method AlertOrganization(db: Database, ctx: Context, stats: map<Id, OrganizationStat>, o: Id, day: Time)
    returns (s: Id, sent: Result<()>, mails: seq<Mail>)
    requires ctx.mailer.Some? && o in db.organizations
    requires exists s :: s in stats && DayTotal(stats[s], o, day)
    modifies db`organizationStats
    ensures s in stats && DayTotal(stats[s], o, day)
    ensures db.organizationStats == old(db.organizationStats)[s := stats[s].(isOverAlertThreshold := true)]
    ensures SentInOrder(ctx, OwnerMails(db, o), mails, sent.Ok?)
    ensures sent.Err? ==> sent.error.Internal?
  {
    var rows := set k | k in stats && DayTotal(stats[k], o, day);
    ghost var w :| w in stats && DayTotal(stats[w], o, day);
    assert w in rows;
    s :| s in rows;
    db.organizationStats := db.organizationStats[s := stats[s].(isOverAlertThreshold := true)];
    var planned := MailsOf(db, o);
    var attempted;
    sent, attempted := SendAll(ctx, planned);
    mails := planned[..attempted];
  }

  lemma LimitsStep(db: Database, ctx: Context, stats: map<Id, OrganizationStat>, orgs: seq<Id>, day: Time,
                    i: nat, flagged: seq<Id>, mails: seq<Mail>, s: Id, mine: seq<Mail>, ok: bool)
    requires forall o :: o in orgs ==> o in db.organizations
    requires FlaggedFor(stats, orgs, flagged, day) && |flagged| == i < |orgs|
    requires SentInOrder(ctx, LimitMails(db, orgs[..i]), mails, true)
    requires s in stats && DayTotal(stats[s], orgs[i], day)
    requires SentInOrder(ctx, OwnerMails(db, orgs[i]), mine, ok)
    ensures FlaggedFor(stats, orgs, flagged + [s], day)
    ensures SentInOrder(ctx, LimitMails(db, orgs[..i + 1]), mails + mine, ok)
  {
    FlaggedStep(stats, orgs, flagged, s, day);
    LimitMailsSnoc(db, orgs, i);
    SentConcat(ctx, LimitMails(db, orgs[..i]), OwnerMails(db, orgs[i]), mine, ok);
  }

  lemma FlaggedStep(stats: map<Id, OrganizationStat>, orgs: seq<Id>, flagged: seq<Id>, s: Id, day: Time)
    requires FlaggedFor(stats, orgs, flagged, day) && |flagged| < |orgs|
    requires s in stats && DayTotal(stats[s], orgs[|flagged|], day)
    ensures FlaggedFor(stats, orgs, flagged + [s], day)
  {
  }

  lemma SentConcat(ctx: Context, done: seq<Mail>, planned: seq<Mail>, mails: seq<Mail>, ok: bool)
    requires SentInOrder(ctx, done, done, true)
    requires SentInOrder(ctx, planned, mails, ok)
    ensures SentInOrder(ctx, done + planned, done + mails, ok)
  {
    assert (done + planned)[..|done + mails|] == done + planned[..|mails|];
    if !ok {
      assert (done + mails)[|done + mails| - 1] == mails[|mails| - 1];
    }
  }

  lemma FlagOverStep(stats: map<Id, OrganizationStat>, flagged: seq<Id>, s: Id)
    requires s in stats
    ensures FlagOver(stats, set x | x in flagged + [s]) ==
            FlagOver(stats, set x | x in flagged)[s := stats[s].(isOverAlertThreshold := true)]
  {
    assert (set x | x in flagged + [s]) == (set x | x in flagged) + {s};
  }

  lemma LimitMailsSnoc(db: Database, orgs: seq<Id>, i: nat)
    requires i < |orgs| && forall o :: o in orgs ==> o in db.organizations
    ensures LimitMails(db, orgs[..i + 1]) == LimitMails(db, orgs[..i]) + OwnerMails(db, orgs[i])
  {
    assert orgs[..i + 1][..i] == orgs[..i];
  }

  // ---------------------------------------------------------------------
  // run_command
  // ---------------------------------------------------------------------

  /** `run_command`: runs one of the two jobs by name. */
  method RunCommand(db: Database, queue: Queue, ctx: Context, cmd: string, now: Time) returns (r: Result<()>)
    modifies db`reportStats, db`organizationStats, queue
    ensures cmd != "notify-spiking" && cmd != "notify-limits" ==>
              r == Err(Internal(UnknownCommand)) && unchanged(db) && unchanged(queue)
    ensures cmd == "notify-spiking" ==>
              r == Ok(()) && db.organizationStats == old(db.organizationStats) && queue.closed == old(queue.closed)
    ensures cmd == "notify-spiking" && Bases(old(db.reportStats), now) == {} ==>
              db.reportStats == old(db.reportStats) && queue.pending == old(queue.pending)
    ensures cmd == "notify-spiking" && Bases(old(db.reportStats), now) != {} ==>
              exists b :: b in Bases(old(db.reportStats), now) &&
                var spiked := SpikingRows(old(db.reportStats), b, Ordering.Ascending(Candidates(old(db.reportStats), now)));
                db.reportStats == FlagSpiking(old(db.reportStats), set k | k in spiked) &&
                Announced(db, old(db.reportStats), b, AlertableOf(db, old(db.reportStats), spiked),
                          old(queue.pending), queue.pending, queue.closed)
    ensures cmd == "notify-limits" ==> db.reportStats == old(db.reportStats) && unchanged(queue)
    ensures cmd == "notify-limits" && ctx.mailer.None? ==>
              r == Ok(()) && db.organizationStats == old(db.organizationStats)
    ensures cmd == "notify-limits" && ctx.mailer.Some? ==>
              var orgs := Ordering.Ascending(OverThreshold(db.organizations, old(db.organizationStats), DayStart(now)));
              (r.Err? ==> r.error.Internal?) &&
              (forall o :: o in orgs ==> o in db.organizations) &&
              exists flagged: seq<Id>, mails: seq<Mail> ::
                FlaggedFor(old(db.organizationStats), orgs, flagged, DayStart(now)) &&
                (r.Ok? ==> |flagged| == |orgs| && mails == LimitMails(db, orgs)) &&
                db.organizationStats == FlagOver(old(db.organizationStats), set k | k in flagged) &&
                SentInOrder(ctx, LimitMails(db, orgs[..|flagged|]), mails, r.Ok?)
  {
    if cmd == "notify-spiking" {
      var base, spiked, alerted;
      r, base, spiked, alerted := NotifySpiking(db, queue, now);
    } else if cmd == "notify-limits" {
      var flagged, mails;
      r, flagged, mails := NotifyLimits(db, ctx, now);
    } else {
      r := Err(Internal(UnknownCommand));
    }
  }
}
