/**
 * The generic webhook integration of a project
 * (src/handlers/notifications/webhook.rs): saving, removing and testing the
 * project's webhook. The test posts the payload a real notification would,
 * filled with a sample report.
 */
module Webhook {
  import opened Wrappers
  import opened Errors
  import opened Store
  import opened App
  import Notifications

  /** `save`: the URL is checked before anything is looked up, then stored
      as the project's webhook. */
  method Save(db: Database, ctx: Context, uid: Id, pid: Id, webhookUrl: string) returns (r: Result<()>)
    requires db.Valid()
    modifies db`projects
    ensures db.Valid()
    ensures r == if UrlErrors(ctx, "webhook_url", webhookUrl) != map[] then
                   Err(FromValidation(UrlErrors(ctx, "webhook_url", webhookUrl)))
                 else match old(ProjectFor(db, uid, pid))
                   case Err(e) => Err(e)
                   case Ok(_) => Ok(())
    ensures db.projects == if r.Err? then old(db.projects)
                           else old(db.projects)[pid := old(db.projects)[pid].(webhook := Some(webhookUrl))]
  {
    var errors := UrlErrors(ctx, "webhook_url", webhookUrl);
    if errors != map[] {
      return Err(FromValidation(errors));
    }
    var project :- ProjectFor(db, uid, pid);
    db.UpdateProject(pid, project.(webhook := Some(webhookUrl)));
    r := Ok(());
  }

  /** `delete`: the project's webhook is removed. */
  method Delete(db: Database, uid: Id, pid: Id) returns (r: Result<()>)
    requires db.Valid()
    modifies db`projects
    ensures db.Valid()
    ensures r == match old(ProjectFor(db, uid, pid)) case Err(e) => Err(e) case Ok(_) => Ok(())
    ensures db.projects == if r.Err? then old(db.projects)
                           else old(db.projects)[pid := old(db.projects)[pid].(webhook := None)]
  {
    var project :- ProjectFor(db, uid, pid);
    db.UpdateProject(pid, project.(webhook := None));
    r := Ok(());
  }

  const NotSet := "Webhook URL is not set"
  const SampleTitle := "Called `Option::unwrap()` on a `None` value (Webhook Test)"
  const SampleEnvironment := "development"
  const SampleUrl := "https://dontpanic.rs"

  /** The sample payload: a new report titled as a failed unwrap, in the
      "development" environment, under the project's name. `backtrace` is
      the sample backtrace and `log` the serialised sample log line, whose
      timestamp is the clock's. */
  function TestPayload(projectName: string, backtrace: string, log: string): (p: Notifications.WebhookPayload)
    ensures p.status == Some(Notifications.New) && p.project == projectName
  {
    Notifications.WebhookPayload(Some(Notifications.New), SampleTitle, projectName, Some(SampleEnvironment),
                                 Some(backtrace), Some(log), SampleUrl)
  }

  /** `test`: posts the sample payload to the project's webhook; `reaches`
      says whether the post goes through (the answer's status is not
      looked at). Returns the payload that was attempted. */
  method Test(db: Database, uid: Id, pid: Id, backtrace: string, log: string,
              reaches: (string, Notifications.WebhookPayload) -> bool)
    returns (r: Result<()>, sent: Option<(string, Notifications.WebhookPayload)>)
    ensures old(ProjectFor(db, uid, pid)).Err? ==> r == Err(old(ProjectFor(db, uid, pid)).error) && sent == None
    ensures old(ProjectFor(db, uid, pid)).Ok? ==>
              var p := db.projects[pid];
              if p.webhook.None? then r == Err(New(NotSet)) && sent == None
              else sent.Some? && sent.value.0 == p.webhook.value &&
                   sent.value.1 == TestPayload(p.name, backtrace, log) &&
                   (r.Ok? <==> reaches(sent.value.0, sent.value.1)) && (r.Err? ==> r.error.Internal?)
  {
    sent := None;
    var project :- ProjectFor(db, uid, pid);
    if project.webhook.None? {
      return Err(New(NotSet)), None;
    }
    var payload := TestPayload(project.name, backtrace, log);
    sent := Some((project.webhook.value, payload));
    r := if reaches(project.webhook.value, payload) then Ok(()) else Err(Internal("request failed"));
  }
}
