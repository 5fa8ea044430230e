/**
 * The Slack app integration of a project
 * (src/handlers/notifications/slack_app.rs): the settings page (the
 * channels the bot is in and the OAuth redirect), the code exchange that
 * stores the bot token, the choice of channel, removal and a test post.
 * Slack's Web API is a parameter: `listChannels` answers
 * conversations.list for a token and `exchange` answers oauth.v2.access,
 * each `None` when the request or its decoding fails.
 */
module SlackApp {
  import opened Wrappers
  import opened Errors
  import opened Store
  import opened App
  import Text

  datatype SlackChannel = SlackChannel(id: string, isMember: bool, name: string)

  /** The channels the bot is a member of, in Slack's order. */
  function MemberChannels(channels: seq<SlackChannel>): (r: seq<SlackChannel>)
    ensures |r| <= |channels|
    ensures forall c :: c in r <==> c in channels && c.isMember
  {
    if channels == [] then []
    else
      var init := MemberChannels(channels[..|channels| - 1]);
      var last := channels[|channels| - 1];
      assert channels == channels[..|channels| - 1] + [last];
      if last.isMember then init + [last] else init
  }

  /** `retain(|channel| channel.is_member)`, in place. */
  method RetainMembers(channels: seq<SlackChannel>) returns (kept: seq<SlackChannel>)
    ensures kept == MemberChannels(channels)
  {
    kept := [];
    var i := 0;
    while i < |channels|
      invariant 0 <= i <= |channels|
      invariant kept == MemberChannels(channels[..i])
    {
      assert channels[..i + 1][..i] == channels[..i];
      if channels[i].isMember {
        kept := kept + [channels[i]];
      }
      i := i + 1;
    }
    assert channels[..i] == channels;
  }

  /** Where Slack sends the user back after authorising the app:
      `{scheme}://{base_url}/reports/notifications?project_id={id}`. */
  function RedirectUri(ctx: Context, pid: Id): string
  {
    ctx.config.scheme + "://" + ctx.config.baseUrl + "/reports/notifications?project_id=" + Text.NatToString(pid)
  }

  /** Each project has its own redirect address. */
  lemma RedirectUriInjective(ctx: Context, a: Id, b: Id)
    requires a != b
    ensures RedirectUri(ctx, a) != RedirectUri(ctx, b)
  {
    var prefix := ctx.config.scheme + "://" + ctx.config.baseUrl + "/reports/notifications?project_id=";
    assert RedirectUri(ctx, a)[|prefix|..] == Text.NatToString(a);
    assert RedirectUri(ctx, b)[|prefix|..] == Text.NatToString(b);
    Text.NatToStringInjective(a, b);
  }

  datatype ConfigView = ConfigView(projectId: Id, chats: seq<SlackChannel>, redirectUri: string, clientId: Option<string>)

  const ListFailed := "conversations.list failed"

  /** `config`: without a bot token no channel is listed; with one, the
      channels Slack lists for it that the bot is a member of. */
  method Config(db: Database, ctx: Context, uid: Id, pid: Id, listChannels: string -> Option<seq<SlackChannel>>)
    returns (r: Result<ConfigView>)
    ensures old(ProjectFor(db, uid, pid)).Err? ==> r == Err(old(ProjectFor(db, uid, pid)).error)
    ensures old(ProjectFor(db, uid, pid)).Ok? ==>
              var token := db.projects[pid].slackBotToken;
              if token.Some? && listChannels(token.value).None? then r == Err(Internal(ListFailed))
              else r == Ok(ConfigView(pid, if token.None? then [] else MemberChannels(listChannels(token.value).value),
                                      RedirectUri(ctx, pid), ctx.config.slackClientId))
  {
    var project :- ProjectFor(db, uid, pid);
    var chats := [];
    if project.slackBotToken.Some? {
      var listed := listChannels(project.slackBotToken.value);
      if listed.None? {
        return Err(Internal(ListFailed));
      }
      chats := RetainMembers(listed.value);
    }
    r := Ok(ConfigView(pid, chats, RedirectUri(ctx, pid), ctx.config.slackClientId));
  }

  /** The form oauth.v2.access receives. */
  datatype TokenRequest = TokenRequest(code: string, clientId: string, clientSecret: string, redirectUri: string)

  datatype AccessResponse = AccessResponse(ok: bool, accessToken: Option<string>, error: Option<string>)

  const NoClientId := "Slack client id not found"
  const NoClientSecret := "Slack client secret not found"
  const ExchangeFailed := "oauth.v2.access failed"
  const SlackRefused := "Error from slack"

  /** `config_save`: exchanges the authorisation code for a bot token and
      stores it (possibly none). A missing client id or secret, a failed
      request or an answer with `ok` false is an internal error and keeps
      the token. */
  method ConfigSave(db: Database, ctx: Context, uid: Id, pid: Id, code: string,
                    exchange: TokenRequest -> Option<AccessResponse>) returns (r: Result<()>)
    requires db.Valid()
    modifies db`projects
    ensures db.Valid()
    ensures r.Err? ==> db.projects == old(db.projects)
    ensures old(ProjectFor(db, uid, pid)).Err? ==> r == Err(old(ProjectFor(db, uid, pid)).error)
    ensures old(ProjectFor(db, uid, pid)).Ok? ==>
              var c := ctx.config;
              if c.slackClientId.None? then r == Err(Internal(NoClientId))
              else if c.slackClientSecret.None? then r == Err(Internal(NoClientSecret))
              else
                var answer := exchange(TokenRequest(Text.UrlEncode(code), c.slackClientId.value,
                                                    c.slackClientSecret.value, RedirectUri(ctx, pid)));
                if answer.None? then r == Err(Internal(ExchangeFailed))
                else if !answer.value.ok then r == Err(Internal(SlackRefused))
                else r == Ok(()) &&
                     db.projects == old(db.projects)[pid := old(db.projects)[pid].(slackBotToken := answer.value.accessToken)]
  {
    var project :- ProjectFor(db, uid, pid);
    var redirect := RedirectUri(ctx, pid);
    if ctx.config.slackClientId.None? {
      return Err(Internal(NoClientId));
    }
    if ctx.config.slackClientSecret.None? {
      return Err(Internal(NoClientSecret));
    }
    var answer := exchange(TokenRequest(Text.UrlEncode(code), ctx.config.slackClientId.value,
                                        ctx.config.slackClientSecret.value, redirect));
    if answer.None? {
      return Err(Internal(ExchangeFailed));
    }
    if !answer.value.ok {
      return Err(Internal(SlackRefused));
    }
    db.UpdateProject(pid, project.(slackBotToken := answer.value.accessToken));
    r := Ok(());
  }

  const ChannelRequired := "Slack channel is required"

  /** `#[validate(length(min = 1))]` on the channel. */
  function ChannelErrors(channel: string): (v: ValidationErrors)
    ensures v == map[] <==> |channel| >= 1
  {
    if |channel| >= 1 then map[]
    else
      var v := map["slack_channel" := [ValidationError("length", Some(ChannelRequired))]];
      assert "slack_channel" in v;
      v
  }

  /** `save`: a non-empty channel becomes the project's Slack channel. */
  method Save(db: Database, uid: Id, pid: Id, channel: string) returns (r: Result<()>)
    requires db.Valid()
    modifies db`projects
    ensures db.Valid()
    ensures r == if ChannelErrors(channel) != map[] then Err(FromValidation(ChannelErrors(channel)))
                 else match old(ProjectFor(db, uid, pid))
                   case Err(e) => Err(e)
                   case Ok(_) => Ok(())
    ensures db.projects == if r.Err? then old(db.projects)
                           else old(db.projects)[pid := old(db.projects)[pid].(slackChannel := Some(channel))]
  {
    var errors := ChannelErrors(channel);
    if errors != map[] {
      return Err(FromValidation(errors));
    }
    var project :- ProjectFor(db, uid, pid);
    db.UpdateProject(pid, project.(slackChannel := Some(channel)));
    r := Ok(());
  }

  /** `delete`: the bot token and the channel are both removed. */
  method Delete(db: Database, uid: Id, pid: Id) returns (r: Result<()>)
    requires db.Valid()
    modifies db`projects
    ensures db.Valid()
    ensures r == match old(ProjectFor(db, uid, pid)) case Err(e) => Err(e) case Ok(_) => Ok(())
    ensures db.projects == if r.Err? then old(db.projects)
                           else old(db.projects)[pid := old(db.projects)[pid].(slackBotToken := None, slackChannel := None)]
  {
    var project :- ProjectFor(db, uid, pid);
    db.UpdateProject(pid, project.(slackBotToken := None, slackChannel := None));
    r := Ok(());
  }

  /** The chat.postMessage form of `test`. */
  datatype TestPost = TestPost(token: string, channel: string, text: string)

  const NotConfigured := "Slack App not configured"
  const TestText := "Slack is working! I'll post here when your app panic!()s"

  /** `test`: needs both the bot token and the channel; posts a greeting
      there. `reaches` says whether the post goes through. */
  method Test(db: Database, uid: Id, pid: Id, reaches: TestPost -> bool) returns (r: Result<()>, sent: Option<TestPost>)
    ensures old(ProjectFor(db, uid, pid)).Err? ==> r == Err(old(ProjectFor(db, uid, pid)).error) && sent == None
    ensures old(ProjectFor(db, uid, pid)).Ok? ==>
              var p := db.projects[pid];
              if p.slackBotToken.None? || p.slackChannel.None? then r == Err(New(NotConfigured)) && sent == None
              else sent == Some(TestPost(p.slackBotToken.value, p.slackChannel.value, TestText)) &&
                   (r.Ok? <==> reaches(sent.value)) && (r.Err? ==> r.error.Internal?)
  {
    sent := None;
    var project :- ProjectFor(db, uid, pid);
    if project.slackBotToken.None? || project.slackChannel.None? {
      return Err(New(NotConfigured)), None;
    }
    var post := TestPost(project.slackBotToken.value, project.slackChannel.value, TestText);
    sent := Some(post);
    r := if reaches(post) then Ok(()) else Err(Internal("request failed"));
  }
}
