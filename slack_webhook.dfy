/**
 * The Slack incoming-webhook integration of a project
 * (src/handlers/notifications/slack_webhook.rs): saving the project's
 * webhook with per-environment overrides, removing it, and posting a test
 * message.
 */
module SlackWebhook {
  import opened Wrappers
  import opened Errors
  import opened Store
  import opened App

  /** One environment's override: its own webhook, or `None` to clear it. */
  datatype EnvironmentOverride = EnvironmentOverride(environmentId: Id, slackWebhook: Option<string>)

  datatype SaveInput = SaveInput(webhookUrl: string, environments: seq<EnvironmentOverride>)

  /** The environments after the overrides were applied one by one: an
      existing environment takes the webhook its entry gives, an unknown id
      is skipped. */
  function Overridden(environments: map<Id, Environment>, overrides: seq<EnvironmentOverride>): (r: map<Id, Environment>)
    ensures r.Keys == environments.Keys
  {
    if overrides == [] then environments
    else
      var before := Overridden(environments, overrides[..|overrides| - 1]);
      var o := overrides[|overrides| - 1];
      if o.environmentId in before then before[o.environmentId := before[o.environmentId].(slackWebhook := o.slackWebhook)]
      else before
  }

  /** An environment ends with the webhook of the last entry naming it, or
      keeps its own when no entry does; nothing else about it changes. */
  lemma {:induction false} OverriddenLast(environments: map<Id, Environment>, overrides: seq<EnvironmentOverride>, e: Id)
    requires e in environments
    ensures var r := Overridden(environments, overrides);
            r[e].projectId == environments[e].projectId && r[e].name == environments[e].name &&
            r[e].slackWebhook ==
              if exists i :: 0 <= i < |overrides| && overrides[i].environmentId == e then
                overrides[LastFor(overrides, e)].slackWebhook
              else environments[e].slackWebhook
    decreases |overrides|
  {
    if overrides != [] {
      var init := overrides[..|overrides| - 1];
      OverriddenLast(environments, init, e);
      if overrides[|overrides| - 1].environmentId != e {
        if exists i :: 0 <= i < |overrides| && overrides[i].environmentId == e {
          var i :| 0 <= i < |overrides| && overrides[i].environmentId == e;
          assert init[i].environmentId == e;
          assert LastFor(overrides, e) == LastFor(init, e);
        }
        if exists i :: 0 <= i < |init| && init[i].environmentId == e {
          var i :| 0 <= i < |init| && init[i].environmentId == e;
          assert overrides[i].environmentId == e;
        }
      }
    }
  }

  /** The index of the last entry naming `e`. */
  function LastFor(overrides: seq<EnvironmentOverride>, e: Id): (i: nat)
    requires exists i :: 0 <= i < |overrides| && overrides[i].environmentId == e
    ensures i < |overrides| && overrides[i].environmentId == e
    ensures forall j :: i < j < |overrides| ==> overrides[j].environmentId != e
    decreases |overrides|
  {
    if overrides[|overrides| - 1].environmentId == e then |overrides| - 1
    else
      var init := overrides[..|overrides| - 1];
      var k :| 0 <= k < |overrides| && overrides[k].environmentId == e;
      assert init[k].environmentId == e;
      LastFor(init, e)
  }

  /** `save`: the URL is checked before anything is looked up; the project's
      webhook is set, then each listed environment that exists takes its
      override, whichever project it belongs to. */
  method Save(db: Database, ctx: Context, uid: Id, pid: Id, input: SaveInput) returns (r: Result<()>)
    requires db.Valid()
    modifies db`projects, db`environments
    ensures db.Valid()
    ensures r == if UrlErrors(ctx, "webhook_url", input.webhookUrl) != map[] then
                   Err(FromValidation(UrlErrors(ctx, "webhook_url", input.webhookUrl)))
                 else match old(ProjectFor(db, uid, pid))
                   case Err(e) => Err(e)
                   case Ok(_) => Ok(())
    ensures r.Err? ==> db.projects == old(db.projects) && db.environments == old(db.environments)
    ensures r.Ok? ==> db.projects == old(db.projects)[pid := old(db.projects)[pid].(slackWebhook := Some(input.webhookUrl))] &&
                      db.environments == Overridden(old(db.environments), input.environments)
  {
    var errors := UrlErrors(ctx, "webhook_url", input.webhookUrl);
    if errors != map[] {
      return Err(FromValidation(errors));
    }
    var project :- ProjectFor(db, uid, pid);
    db.UpdateProject(pid, project.(slackWebhook := Some(input.webhookUrl)));
    var i := 0;
    while i < |input.environments|
      invariant 0 <= i <= |input.environments|
      invariant db.environments == Overridden(old(db.environments), input.environments[..i])
      invariant db.projects == old(db.projects)[pid := project.(slackWebhook := Some(input.webhookUrl))]
      invariant db.Valid()
    {
      var o := input.environments[i];
      assert input.environments[..i + 1][..i] == input.environments[..i];
      if o.environmentId in db.environments {
        db.environments := db.environments[o.environmentId := db.environments[o.environmentId].(slackWebhook := o.slackWebhook)];
      }
      i := i + 1;
    }
    assert input.environments[..i] == input.environments;
    r := Ok(());
  }

  /** `delete`: the project's webhook is removed; the environments keep
      their overrides. */
  method Delete(db: Database, uid: Id, pid: Id) returns (r: Result<()>)
    requires db.Valid()
    modifies db`projects
    ensures db.Valid()
    ensures r == match old(ProjectFor(db, uid, pid)) case Err(e) => Err(e) case Ok(_) => Ok(())
    ensures db.projects == if r.Err? then old(db.projects)
                           else old(db.projects)[pid := old(db.projects)[pid].(slackWebhook := None)]
  {
    var project :- ProjectFor(db, uid, pid);
    db.UpdateProject(pid, project.(slackWebhook := None));
    r := Ok(());
  }

  /** The message `test` posts to the webhook. */
  datatype TestPost = TestPost(webhook: string, text: string)

  const NotSet := "Slack Webhook URL is not set"

  function TestText(projectName: string): string
  {
    "Slack is working! I'll post here when project " + projectName + " panic!()s"
  }

  /** `test`: posts a greeting naming the project to its webhook; `reaches`
      says whether the post goes through, a transport failure being an
      internal error. Returns the post that was attempted. */
  method Test(db: Database, uid: Id, pid: Id, reaches: TestPost -> bool) returns (r: Result<()>, sent: Option<TestPost>)
    ensures old(ProjectFor(db, uid, pid)).Err? ==> r == Err(old(ProjectFor(db, uid, pid)).error) && sent == None
    ensures old(ProjectFor(db, uid, pid)).Ok? ==>
              var p := db.projects[pid];
              if p.slackWebhook.None? then r == Err(New(NotSet)) && sent == None
              else sent == Some(TestPost(p.slackWebhook.value, TestText(p.name))) &&
                   (r.Ok? <==> reaches(sent.value)) && (r.Err? ==> r.error.Internal?)
  {
    sent := None;
    var project :- ProjectFor(db, uid, pid);
    if project.slackWebhook.None? {
      return Err(New(NotSet)), None;
    }
    var post := TestPost(project.slackWebhook.value, TestText(project.name));
    sent := Some(post);
    r := if reaches(post) then Ok(()) else Err(Internal("request failed"));
  }
}
