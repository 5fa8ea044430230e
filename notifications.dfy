/**
 * Notification dispatch (src/notifications.rs): for a new or regressed
 * report, every opted-in user of the project gets an email and a Pushover
 * message, and every integration the project has configured (Slack app,
 * Slack webhook, Teams webhook, generic webhook) gets a message. A failing
 * delivery is logged and does not stop the others.
 */
module Notifications {
  import opened Wrappers
  import opened Errors
  import opened Store
  import opened App
  import Text
  import Ordering

  /** `ReportStatus`, with the `Spiking` variant src/cron.rs constructs. */
  datatype ReportStatus = New | Regressed | Spiking(percentage: nat)

  datatype Notification = Notification(
    status: Option<ReportStatus>,
    projectId: Id,
    project: Project,
    eventId: Id,
    event: Event,
    reportId: Id,
    report: Report,
    environment: Option<Environment>)

  /** The Slack message of `get_slack_blocks`: plain-text title, markdown
      section and the button's link. */
  datatype SlackMessage = SlackMessage(text: string, markdown: string, buttonUrl: string)

  datatype WebhookPayload = WebhookPayload(
    status: Option<ReportStatus>,
    title: string,
    project: string,
    environment: Option<string>,
    backtrace: Option<string>,
    log: Option<string>,
    url: string)

  /** One message the dispatcher tries to send. */
  datatype Delivery =
    | Email(mail: Mail)
    | Pushover(token: string, userKey: string, message: string, url: string)
    | SlackApp(token: string, channel: string, slack: SlackMessage)
    | SlackWebhook(webhook: string, slack: SlackMessage, username: string, iconUrl: string)
    | TeamsCard(webhook: string, title: string, reportTitle: string, environment: string, url: string)
    | Webhook(webhook: string, payload: WebhookPayload)

  predicate IsNew(n: Notification)
  {
    n.status == Some(New)
  }

  /** `{scheme}://{base_url}/view-report/{report id}`. */
  function ReportUrl(ctx: Context, reportId: Id): (url: string)
    ensures |url| >= |ctx.config.scheme| + 3 && url[..|ctx.config.scheme| + 3] == ctx.config.scheme + "://"
  {
    ctx.config.scheme + "://" + ctx.config.baseUrl + "/view-report/" + Text.NatToString(reportId)
  }

  /** Different reports get different links. */
  lemma ReportUrlInjective(ctx: Context, a: Id, b: Id)
    requires a != b
    ensures ReportUrl(ctx, a) != ReportUrl(ctx, b)
  {
    var prefix := ctx.config.scheme + "://" + ctx.config.baseUrl + "/view-report/";
    assert ReportUrl(ctx, a) == prefix + Text.NatToString(a);
    assert ReportUrl(ctx, b) == prefix + Text.NatToString(b);
    assert ReportUrl(ctx, a)[|prefix|..] == Text.NatToString(a);
    assert ReportUrl(ctx, b)[|prefix|..] == Text.NatToString(b);
    Text.NatToStringInjective(a, b);
  }

  function EnvironmentSuffix(n: Notification): string
  {
    if n.environment.Some? then " in " + n.environment.value.name else ""
  }

  /** The words before the project's name in the subject. */
  function SubjectLead(n: Notification): string
  {
    if IsNew(n) then "New report on " else "Resolved report on "
  }

  /** The words between the project's name and the report's title. */
  function SubjectMiddle(n: Notification): string
  {
    if IsNew(n) then " received '" else " reappeared: '"
  }

  /** The subject of the report email, which is also the Pushover message. */
  function Subject(n: Notification): string
  {
    SubjectLead(n) + n.project.name + SubjectMiddle(n) + n.report.title + "'" + EnvironmentSuffix(n)
  }

  /** A string's first `k` characters, when it has that many, are those of
      any string it opens. */
  lemma PrefixOfConcat(a: string, b: string, k: nat)
    requires k <= |a|
    ensures (a + b)[..k] == a[..k]
  {
    assert forall i :: 0 <= i < k ==> (a + b)[i] == a[i];
  }

  /** The subject tells a new report from a reappearing one by its first word. */
  lemma SubjectTellsStatus(n: Notification)
    ensures |Subject(n)| >= 4 && (Subject(n)[..4] == "New " <==> IsNew(n))
  {
    var lead := SubjectLead(n);
    var rest := n.project.name + SubjectMiddle(n) + n.report.title + "'" + EnvironmentSuffix(n);
    assert Subject(n) == lead + rest;
    PrefixOfConcat(lead, rest, 4);
    if IsNew(n) {
      assert lead[..4] == "New ";
    } else {
      assert lead[..4][0] == 'R';
    }
  }

  /** In `a + p + b + t + c`, both `p` and `t` occur. */
  lemma PiecesOccur(a: string, p: string, b: string, t: string, c: string)
    ensures Text.Contains(a + p + b + t + c, p)
    ensures Text.Contains(a + p + b + t + c, t)
  {
    assert a + p + b + t + c == a + p + (b + t + c);
    Text.ContainsPiece(a, p, b + t + c);
    Text.ContainsPiece(a + p + b, t, c);
  }

  /** The subject names the project, the report and, when known, the environment. */
  lemma SubjectMentions(n: Notification)
    ensures Text.Contains(Subject(n), n.project.name)
    ensures Text.Contains(Subject(n), n.report.title)
    ensures n.environment.Some? ==> Text.Contains(Subject(n), n.environment.value.name)
  {
    var e := EnvironmentSuffix(n);
    PiecesOccur(SubjectLead(n), n.project.name, SubjectMiddle(n), n.report.title, "'" + e);
    assert Subject(n) == SubjectLead(n) + n.project.name + SubjectMiddle(n) + n.report.title + ("'" + e);
    if n.environment.Some? {
      var body := SubjectLead(n) + n.project.name + SubjectMiddle(n) + n.report.title + "'";
      assert Subject(n) == (body + " in ") + n.environment.value.name + "";
      Text.ContainsPiece(body + " in ", n.environment.value.name, "");
    }
  }

  /** `get_slack_blocks`: a new report's title opens with the `:boom:` emoji. */
  function SlackMessageFor(n: Notification, url: string): (m: SlackMessage)
    ensures m.buttonUrl == url
    ensures |m.text| >= 6 && (m.text[..6] == ":boom:" <==> IsNew(n))
  {
    var envTitle := if n.environment.Some? then " in " + n.environment.value.name else "";
    var envMarkdown := if n.environment.Some? then " in *" + n.environment.value.name + "*" else "";
    if IsNew(n) then
      var boom := ":boom:";
      var text := boom + (" New report on " + n.project.name + " received " + n.report.title + envTitle);
      assert text[..6] == boom;
      SlackMessage(
        text,
        ":boom: New report on *" + n.project.name + "* received " + n.report.title + envMarkdown,
        url)
    else
      var head := "Resolv";
      var text := head + ("ed report on " + n.project.name + " reappeared: " + n.report.title + envTitle);
      assert text[..6] == head;
      SlackMessage(
        text,
        "Resolved report on *" + n.project.name + "* reappeared: " + n.report.title + envMarkdown,
        url)
  }

  /** `send_email`: composed for every opted-in user, sent only when a mailer
      is configured. */
  function EmailFor(ctx: Context, n: Notification, user: User): seq<Delivery>
  {
    if ctx.mailer.None? then []
    else [Email(Mail(user.email, Subject(n), if IsNew(n) then "email/new_report" else "email/regressed_report"))]
  }

  /** `send_pushover`: needs both the application token and the user's key. */
  function PushoverFor(ctx: Context, n: Notification, user: User, url: string): seq<Delivery>
  {
    if ctx.pushoverAppToken.Some? && user.pushoverUserKey.Some? then
      [Pushover(ctx.pushoverAppToken.value, user.pushoverUserKey.value, Subject(n), url)]
    else []
  }

  /** The deliveries one recipient's settings ask for, email first. */
  function UserDeliveries(ctx: Context, n: Notification, user: User, s: UserSettings, url: string): seq<Delivery>
  {
    (if s.notifyEmail > 0 then EmailFor(ctx, n, user) else []) +
    (if s.notifyPushover > 0 then PushoverFor(ctx, n, user, url) else [])
  }

  function RecipientDeliveries(ctx: Context, n: Notification, rows: seq<(User, UserSettings)>, url: string): seq<Delivery>
  {
    if rows == [] then []
    else
      var last := rows[|rows| - 1];
      RecipientDeliveries(ctx, n, rows[..|rows| - 1], url) + UserDeliveries(ctx, n, last.0, last.1, url)
  }

  function SlackAppPart(n: Notification, url: string): seq<Delivery>
  {
    var p := n.project;
    if p.slackBotToken.Some? && p.slackChannel.Some? then
      [SlackApp(p.slackBotToken.value, p.slackChannel.value, SlackMessageFor(n, url))]
    else []
  }

  function SlackWebhookPart(n: Notification, url: string): seq<Delivery>
  {
    var p := n.project;
    if p.slackWebhook.Some? then
      [SlackWebhook(p.slackWebhook.value, SlackMessageFor(n, url), "Don't Panic",
                    "https://dontpanic.rs/static/favicon.png")]
    else []
  }

  function TeamsPart(n: Notification, url: string): seq<Delivery>
  {
    var p := n.project;
    if p.teamsWebhook.Some? then
      [TeamsCard(p.teamsWebhook.value,
                 if IsNew(n) then "New report on " + p.name + " received"
                 else "Resolved report on " + p.name + " reappeared",
                 n.report.title,
                 if n.environment.Some? then n.environment.value.name else "Not Set",
                 url)]
    else []
  }

  function WebhookPart(n: Notification, url: string): seq<Delivery>
  {
    var p := n.project;
    if p.webhook.Some? then
      [Webhook(p.webhook.value,
               WebhookPayload(n.status, n.report.title, p.name,
                              if n.environment.Some? then Some(n.environment.value.name) else None,
                              n.event.backtrace, n.event.log, url))]
    else []
  }

  /** The project-wide integrations, in the source's order: Slack app, Slack
      webhook, Teams webhook, generic webhook. Each is skipped when not
      configured. */
  function ChannelDeliveries(n: Notification, url: string): seq<Delivery>
  {
    SlackAppPart(n, url) + SlackWebhookPart(n, url) + TeamsPart(n, url) + WebhookPart(n, url)
  }

  /** Everything `send` tries to deliver for the recipients `rows`: nothing
      for a notification without a status. */
  function Planned(ctx: Context, n: Notification, rows: seq<(User, UserSettings)>): seq<Delivery>
  {
    if n.status.None? then []
    else
      var url := ReportUrl(ctx, n.reportId);
      RecipientDeliveries(ctx, n, rows, url) + ChannelDeliveries(n, url)
  }

  predicate IsPersonal(d: Delivery)
  {
    d.Email? || d.Pushover?
  }

  lemma {:induction false} RecipientDeliveriesArePersonal(ctx: Context, n: Notification, rows: seq<(User, UserSettings)>, url: string)
    ensures forall d :: d in RecipientDeliveries(ctx, n, rows, url) ==> IsPersonal(d)
  {
    if rows != [] {
      RecipientDeliveriesArePersonal(ctx, n, rows[..|rows| - 1], url);
    }
  }

  /** Every email goes to a recipient whose settings ask for email, with a
      mailer configured; every Pushover message to a recipient who asked for
      Pushover and has a user key, with an application token configured. */
  lemma {:induction false} PersonalDeliveriesFollowSettings(ctx: Context, n: Notification, rows: seq<(User, UserSettings)>, url: string)
    ensures forall d :: d in RecipientDeliveries(ctx, n, rows, url) && d.Email? ==>
      ctx.mailer.Some? && exists i :: 0 <= i < |rows| && rows[i].0.email == d.mail.to && rows[i].1.notifyEmail > 0
    ensures forall d :: d in RecipientDeliveries(ctx, n, rows, url) && d.Pushover? ==>
      ctx.pushoverAppToken == Some(d.token) &&
      exists i :: 0 <= i < |rows| && rows[i].0.pushoverUserKey == Some(d.userKey) && rows[i].1.notifyPushover > 0
  {
    if rows != [] {
      var init := rows[..|rows| - 1];
      PersonalDeliveriesFollowSettings(ctx, n, init, url);
      forall d | d in RecipientDeliveries(ctx, n, rows, url) && d.Email?
        ensures ctx.mailer.Some? && exists i :: 0 <= i < |rows| && rows[i].0.email == d.mail.to && rows[i].1.notifyEmail > 0
      {
        if d in RecipientDeliveries(ctx, n, init, url) {
          var i :| 0 <= i < |init| && init[i].0.email == d.mail.to && init[i].1.notifyEmail > 0;
          assert rows[i] == init[i];
        } else {
          assert rows[|rows| - 1].0.email == d.mail.to;
        }
      }
      forall d | d in RecipientDeliveries(ctx, n, rows, url) && d.Pushover?
        ensures ctx.pushoverAppToken == Some(d.token) &&
          exists i :: 0 <= i < |rows| && rows[i].0.pushoverUserKey == Some(d.userKey) && rows[i].1.notifyPushover > 0
      {
        if d in RecipientDeliveries(ctx, n, init, url) {
          var i :| 0 <= i < |init| && init[i].0.pushoverUserKey == Some(d.userKey) && init[i].1.notifyPushover > 0;
          assert rows[i] == init[i];
        } else {
          assert rows[|rows| - 1].0.pushoverUserKey == Some(d.userKey);
        }
      }
    }
  }

  /** Conversely, every recipient whose settings ask for email gets the mail
      when a mailer is configured, and every recipient who asked for Pushover
      and has a user key gets the push when an application token is
      configured. */
  lemma {:induction false} OptedInRecipientsGetDeliveries(ctx: Context, n: Notification, rows: seq<(User, UserSettings)>, url: string)
    ensures forall i :: 0 <= i < |rows| && rows[i].1.notifyEmail > 0 && ctx.mailer.Some? ==>
      Email(Mail(rows[i].0.email, Subject(n), if IsNew(n) then "email/new_report" else "email/regressed_report"))
        in RecipientDeliveries(ctx, n, rows, url)
    ensures forall i :: 0 <= i < |rows| && rows[i].1.notifyPushover > 0 &&
                        ctx.pushoverAppToken.Some? && rows[i].0.pushoverUserKey.Some? ==>
      Pushover(ctx.pushoverAppToken.value, rows[i].0.pushoverUserKey.value, Subject(n), url)
        in RecipientDeliveries(ctx, n, rows, url)
  {
    if rows != [] {
      var init := rows[..|rows| - 1];
      var last := rows[|rows| - 1];
      OptedInRecipientsGetDeliveries(ctx, n, init, url);
      var all := RecipientDeliveries(ctx, n, rows, url);
      var mine := UserDeliveries(ctx, n, last.0, last.1, url);
      assert all == RecipientDeliveries(ctx, n, init, url) + mine;
      forall i | 0 <= i < |rows| && rows[i].1.notifyEmail > 0 && ctx.mailer.Some?
        ensures Email(Mail(rows[i].0.email, Subject(n), if IsNew(n) then "email/new_report" else "email/regressed_report")) in all
      {
        if i < |init| {
          assert rows[i] == init[i];
        } else {
          assert mine[0] == Email(Mail(last.0.email, Subject(n), if IsNew(n) then "email/new_report" else "email/regressed_report"));
        }
      }
      forall i | 0 <= i < |rows| && rows[i].1.notifyPushover > 0 && ctx.pushoverAppToken.Some? && rows[i].0.pushoverUserKey.Some?
        ensures Pushover(ctx.pushoverAppToken.value, rows[i].0.pushoverUserKey.value, Subject(n), url) in all
      {
        if i < |init| {
          assert rows[i] == init[i];
        } else {
          assert mine[|mine| - 1] == Pushover(ctx.pushoverAppToken.value, last.0.pushoverUserKey.value, Subject(n), url);
        }
      }
    }
  }

  /** An email is planned for an address exactly when the report has a
      status, a mailer is configured and a recipient with that address has
      email notifications on. */
  lemma EmailFollowsSettings(ctx: Context, n: Notification, rows: seq<(User, UserSettings)>, to: string)
    ensures (exists d :: d in Planned(ctx, n, rows) && d.Email? && d.mail.to == to) <==>
      n.status.Some? && ctx.mailer.Some? &&
      exists i :: 0 <= i < |rows| && rows[i].0.email == to && rows[i].1.notifyEmail > 0
  {
    if n.status.Some? {
      var url := ReportUrl(ctx, n.reportId);
      PlannedParts(ctx, n, rows);
      PersonalDeliveriesFollowSettings(ctx, n, rows, url);
      OptedInRecipientsGetDeliveries(ctx, n, rows, url);
      if ctx.mailer.Some? && exists i :: 0 <= i < |rows| && rows[i].0.email == to && rows[i].1.notifyEmail > 0 {
        var i :| 0 <= i < |rows| && rows[i].0.email == to && rows[i].1.notifyEmail > 0;
        var d := Email(Mail(rows[i].0.email, Subject(n), if IsNew(n) then "email/new_report" else "email/regressed_report"));
        assert d in Planned(ctx, n, rows);
      }
    }
  }

  /** A Pushover message is planned for a user key exactly when the report
      has a status, an application token is configured and a recipient with
      that key has Pushover notifications on. */
  lemma PushoverFollowsSettings(ctx: Context, n: Notification, rows: seq<(User, UserSettings)>, key: string)
    ensures (exists d :: d in Planned(ctx, n, rows) && d.Pushover? && d.userKey == key) <==>
      n.status.Some? && ctx.pushoverAppToken.Some? &&
      exists i :: 0 <= i < |rows| && rows[i].0.pushoverUserKey == Some(key) && rows[i].1.notifyPushover > 0
  {
    if n.status.Some? {
      var url := ReportUrl(ctx, n.reportId);
      PlannedParts(ctx, n, rows);
      PersonalDeliveriesFollowSettings(ctx, n, rows, url);
      OptedInRecipientsGetDeliveries(ctx, n, rows, url);
      if ctx.pushoverAppToken.Some? &&
         exists i :: 0 <= i < |rows| && rows[i].0.pushoverUserKey == Some(key) && rows[i].1.notifyPushover > 0 {
        var i :| 0 <= i < |rows| && rows[i].0.pushoverUserKey == Some(key) && rows[i].1.notifyPushover > 0;
        var d := Pushover(ctx.pushoverAppToken.value, key, Subject(n), url);
        assert d in Planned(ctx, n, rows);
      }
    }
  }

  /** A planned delivery is either personal or one of the integrations. */
  lemma PlannedParts(ctx: Context, n: Notification, rows: seq<(User, UserSettings)>)
    requires n.status.Some?
    ensures var url := ReportUrl(ctx, n.reportId);
      forall d :: d in Planned(ctx, n, rows) <==>
        d in RecipientDeliveries(ctx, n, rows, url) || d in SlackAppPart(n, url) ||
        d in SlackWebhookPart(n, url) || d in TeamsPart(n, url) || d in WebhookPart(n, url)
    ensures forall d :: d in RecipientDeliveries(ctx, n, rows, ReportUrl(ctx, n.reportId)) ==> IsPersonal(d)
  {
    RecipientDeliveriesArePersonal(ctx, n, rows, ReportUrl(ctx, n.reportId));
  }

  /** The Slack app is messaged exactly when the report has a status and the
      project has both a bot token and a channel. */
  lemma SlackAppFollowsProject(ctx: Context, n: Notification, rows: seq<(User, UserSettings)>)
    ensures (exists d :: d in Planned(ctx, n, rows) && d.SlackApp?) <==>
      n.status.Some? && n.project.slackBotToken.Some? && n.project.slackChannel.Some?
  {
    if n.status.Some? {
      PlannedParts(ctx, n, rows);
      var a := SlackAppPart(n, ReportUrl(ctx, n.reportId));
      if a != [] { assert a[0] in Planned(ctx, n, rows); }
    }
  }

  /** The Slack webhook is posted to exactly when the report has a status and
      the project has a webhook URL. */
  lemma SlackWebhookFollowsProject(ctx: Context, n: Notification, rows: seq<(User, UserSettings)>)
    ensures (exists d :: d in Planned(ctx, n, rows) && d.SlackWebhook?) <==>
      n.status.Some? && n.project.slackWebhook.Some?
  {
    if n.status.Some? {
      PlannedParts(ctx, n, rows);
      var a := SlackWebhookPart(n, ReportUrl(ctx, n.reportId));
      if a != [] { assert a[0] in Planned(ctx, n, rows); }
    }
  }

  /** The Teams webhook is posted to exactly when the report has a status and
      the project has a Teams webhook URL. */
  lemma TeamsFollowsProject(ctx: Context, n: Notification, rows: seq<(User, UserSettings)>)
    ensures (exists d :: d in Planned(ctx, n, rows) && d.TeamsCard?) <==>
      n.status.Some? && n.project.teamsWebhook.Some?
  {
    if n.status.Some? {
      PlannedParts(ctx, n, rows);
      var a := TeamsPart(n, ReportUrl(ctx, n.reportId));
      if a != [] { assert a[0] in Planned(ctx, n, rows); }
    }
  }

  /** The generic webhook is posted to exactly when the report has a status
      and the project has a webhook URL. */
  lemma WebhookFollowsProject(ctx: Context, n: Notification, rows: seq<(User, UserSettings)>)
    ensures (exists d :: d in Planned(ctx, n, rows) && d.Webhook?) <==>
      n.status.Some? && n.project.webhook.Some?
  {
    if n.status.Some? {
      PlannedParts(ctx, n, rows);
      var a := WebhookPart(n, ReportUrl(ctx, n.reportId));
      if a != [] { assert a[0] in Planned(ctx, n, rows); }
    }
  }

  /** Whether a delivery ends in an error the dispatcher logs: an email the
      mailer does not deliver, or a request the transport (`reaches`) does
      not complete. */
  predicate Fails(ctx: Context, d: Delivery, reaches: Delivery -> bool)
  {
    if d.Email? then !Delivered(ctx, d.mail) else !reaches(d)
  }

  function Failures(ctx: Context, ds: seq<Delivery>, reaches: Delivery -> bool): (r: seq<Delivery>)
    ensures forall d :: d in r <==> d in ds && Fails(ctx, d, reaches)
  {
    if ds == [] then []
    else Failures(ctx, ds[..|ds| - 1], reaches) + (if Fails(ctx, ds[|ds| - 1], reaches) then [ds[|ds| - 1]] else [])
  }

  lemma {:induction false} FailuresAppend(ctx: Context, a: seq<Delivery>, b: seq<Delivery>, reaches: Delivery -> bool)
    ensures Failures(ctx, a + b, reaches) == Failures(ctx, a, reaches) + Failures(ctx, b, reaches)
    decreases |b|
  {
    if b != [] {
      assert (a + b)[..|a + b| - 1] == a + b[..|b| - 1];
      FailuresAppend(ctx, a, b[..|b| - 1], reaches);
    } else {
      assert a + b == a;
    }
  }

  /** The users query of `send`: users holding a settings row for the project. */
  function RecipientRows(db: Database, projectId: Id, users: seq<Id>): seq<(User, UserSettings)>
    reads db
    requires forall u :: u in users ==> u in db.users && (projectId, u) in db.settings
  {
    if users == [] then []
    else
      var u := users[|users| - 1];
      RecipientRows(db, projectId, users[..|users| - 1]) + [(db.users[u], db.settings[(projectId, u)])]
  }

  /** `send`. The recipients are the users that hold a settings row for the
      project (the query filters on the joined settings, so it is not
      restricted to current organization members). Every planned delivery is
      attempted; failures are only logged, and the result is always `Ok`. */
  method Send(db: Database, ctx: Context, n: Notification, reaches: Delivery -> bool)
    returns (r: Result<()>, recipients: seq<Id>, attempted: seq<Delivery>, logged: seq<Delivery>)
    ensures r == Ok(())
    ensures n.status.None? ==> recipients == [] && attempted == [] && logged == []
    ensures forall u :: u in recipients <==> n.status.Some? && u in db.users && (n.projectId, u) in db.settings
    ensures forall i, j :: 0 <= i < j < |recipients| ==> recipients[i] != recipients[j]
    ensures attempted == Planned(ctx, n, RecipientRows(db, n.projectId, recipients))
    ensures logged == Failures(ctx, attempted, reaches)
  {
    if n.status.None? {
      return Ok(()), [], [], [];
    }
    var ids := set u | u in db.users && (n.projectId, u) in db.settings;
    recipients := Ordering.Enumerate(ids);
    var url := ReportUrl(ctx, n.reportId);
    attempted, logged := [], [];
    var i := 0;
    while i < |recipients|
      invariant 0 <= i <= |recipients|
      invariant forall u :: u in recipients ==> u in db.users && (n.projectId, u) in db.settings
      invariant attempted == RecipientDeliveries(ctx, n, RecipientRows(db, n.projectId, recipients[..i]), url)
      invariant logged == Failures(ctx, attempted, reaches)
    {
      var u := recipients[i];
      assert recipients[..i + 1][..i] == recipients[..i];
      var mine := UserDeliveries(ctx, n, db.users[u], db.settings[(n.projectId, u)], url);
      FailuresAppend(ctx, attempted, mine, reaches);
      logged := logged + Failures(ctx, mine, reaches);
      attempted := attempted + mine;
      i := i + 1;
    }
    assert recipients[..i] == recipients;
    var channels := ChannelDeliveries(n, url);
    FailuresAppend(ctx, attempted, channels, reaches);
    logged := logged + Failures(ctx, channels, reaches);
    attempted := attempted + channels;
    r := Ok(());
  }

  /** The unbounded channel from the handlers to the notification consumer
      task of src/main.rs: the notifications waiting to be sent, and whether
      the receiving end has gone away. */
  class Queue {
    var pending: seq<Notification>
    var closed: bool

    constructor Open()
      ensures pending == [] && !closed
    {
      pending, closed := [], false;
    }

    /** `UnboundedSender::send`: enqueues, or fails with an internal error
        once the receiver is gone. */
    method Push(n: Notification) returns (r: Result<()>)
      modifies this
      ensures closed == old(closed)
      ensures old(closed) ==> r.Err? && r.error.Internal? && pending == old(pending)
      ensures !old(closed) ==> r == Ok(()) && pending == old(pending) + [n]
    {
      if closed {
        return Err(Internal("channel closed"));
      }
      pending := pending + [n];
      r := Ok(());
    }

    /** `UnboundedReceiver::recv` on a queue with nothing left to wait for:
        the oldest pending notification, or `None` when none is left. */
    method Pop() returns (n: Option<Notification>)
      modifies this
      ensures closed == old(closed)
      ensures old(pending) == [] ==> n.None? && pending == []
      ensures old(pending) != [] ==> n == Some(old(pending)[0]) && pending == old(pending)[1..]
    {
      if pending == [] {
        return None;
      }
      n := Some(pending[0]);
      pending := pending[1..];
    }
  }
}
