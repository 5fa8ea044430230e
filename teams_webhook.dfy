/**
 * The Microsoft Teams webhook integration of a project
 * (src/handlers/notifications/teams_webhook.rs): saving, removing and
 * testing the project's Teams webhook.
 */
module TeamsWebhook {
  import opened Wrappers
  import opened Errors
  import opened Store
  import opened App

  /** `save`: the URL is checked before anything is looked up, then stored
      as the project's Teams webhook. */
  method Save(db: Database, ctx: Context, uid: Id, pid: Id, webhookUrl: string) returns (r: Result<()>)
    requires db.Valid()
    modifies db`projects
    ensures db.Valid()
    ensures r == if UrlErrors(ctx, "webhook_url", webhookUrl) != map[] then
                   Err(FromValidation(UrlErrors(ctx, "webhook_url", webhookUrl)))
                 else match old(ProjectFor(db, uid, pid))
                   case Err(e) => Err(e)
                   case Ok(_) => Ok(())
    ensures db.projects == if r.Err? then old(db.projects)
                           else old(db.projects)[pid := old(db.projects)[pid].(teamsWebhook := Some(webhookUrl))]
  {
    var errors := UrlErrors(ctx, "webhook_url", webhookUrl);
    if errors != map[] {
      return Err(FromValidation(errors));
    }
    var project :- ProjectFor(db, uid, pid);
    db.UpdateProject(pid, project.(teamsWebhook := Some(webhookUrl)));
    r := Ok(());
  }

  /** `delete`: the project's Teams webhook is removed. */
  method Delete(db: Database, uid: Id, pid: Id) returns (r: Result<()>)
    requires db.Valid()
    modifies db`projects
    ensures db.Valid()
    ensures r == match old(ProjectFor(db, uid, pid)) case Err(e) => Err(e) case Ok(_) => Ok(())
    ensures db.projects == if r.Err? then old(db.projects)
                           else old(db.projects)[pid := old(db.projects)[pid].(teamsWebhook := None)]
  {
    var project :- ProjectFor(db, uid, pid);
    db.UpdateProject(pid, project.(teamsWebhook := None));
    r := Ok(());
  }

  /** The adaptive card `test` posts: its heading and the line naming the
      project. */
  datatype TestCard = TestCard(webhook: string, heading: string, text: string)

  const NotSet := "Teams Webhook URL is not set"
  const Heading := "Don't Panic MS Teams integration is working"

  function TestText(projectName: string): string
  {
    "You'll get notified in this channel when '" + projectName + "' experiences errors or panics."
  }

  /** `test`: posts a card naming the project to its Teams webhook; `reaches`
      says whether the post goes through. Returns the card that was
      attempted. */
  method Test(db: Database, uid: Id, pid: Id, reaches: TestCard -> bool) returns (r: Result<()>, sent: Option<TestCard>)
    ensures old(ProjectFor(db, uid, pid)).Err? ==> r == Err(old(ProjectFor(db, uid, pid)).error) && sent == None
    ensures old(ProjectFor(db, uid, pid)).Ok? ==>
              var p := db.projects[pid];
              if p.teamsWebhook.None? then r == Err(New(NotSet)) && sent == None
              else sent == Some(TestCard(p.teamsWebhook.value, Heading, TestText(p.name))) &&
                   (r.Ok? <==> reaches(sent.value)) && (r.Err? ==> r.error.Internal?)
  {
    sent := None;
    var project :- ProjectFor(db, uid, pid);
    if project.teamsWebhook.None? {
      return Err(New(NotSet)), None;
    }
    var card := TestCard(project.teamsWebhook.value, Heading, TestText(project.name));
    sent := Some(card);
    r := if reaches(card) then Ok(()) else Err(Internal("request failed"));
  }
}
