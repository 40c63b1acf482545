/** `handleOncallRotation` (src/index.ts:11-49): resolve the engineer, then run
    the Discord steps in a fixed order, stop at the first failure, and destroy
    the client on every path. */
module Rotation {
  import opened Wrappers
  import opened Errors
  import opened Config
  import opened OnCall
  import opened Announcement
  import opened Discord
  import opened VictorOpsTypes

  /** How a rotation ends: the engineer who now holds the role, a failed
      resolution (before any Discord call), or the Discord step that failed. */
  datatype Run =
    | Completed(engineer: string)
    | Unresolved(error: Error)
    | Aborted(step: Step, error: Error)

  /** The Discord steps of the try block, in order. */
  const Steps: seq<Step> :=
    [Login, GetChannel, CheckPermissions, SendAnnouncement, GetGuild, GetSupportRole, RemoveRole, AssignRole]

  function Index(s: Step): (k: nat)
    ensures k < |Steps| && Steps[k] == s
  {
    match s
    case Login => 0
    case GetChannel => 1
    case CheckPermissions => 2
    case SendAnnouncement => 3
    case GetGuild => 4
    case GetSupportRole => 5
    case RemoveRole => 6
    case AssignRole => 7
  }

  /** The Discord calls a run makes: none when resolution fails, every step up
      to and including the one that failed otherwise. */
  function StepsRun(run: Run): seq<Step> {
    match run
    case Completed(_) => Steps
    case Unresolved(_) => []
    case Aborted(s, _) => Steps[..Index(s) + 1]
  }

  /** Step `s` ran and succeeded. */
  predicate Cleared(run: Run, s: Step) {
    run.Completed? || (run.Aborted? && Index(s) < Index(run.step))
  }

  function Resolve(settings: Settings, response: HttpResponse): Result<string, Error> {
    GetCurrentOncallEngineer(response, settings.victoropsToDiscordUsernames)
  }

  /** The outcome of a rotation, decided step by step from the server's facts,
      the role holders before the run and the members whose role removal Discord
      refuses. */
  function Plan(client: DiscordClient, settings: Settings, response: HttpResponse,
                holders: set<string>, refused: set<string>): Run
  {
    var discord := settings.discord;
    match Resolve(settings, response)
    case Failure(e) => Unresolved(e)
    case Success(id) =>
      var login := client.LoginResult(discord.botToken);
      if login.Fail? then Aborted(Login, login.error) else
      match client.ChannelResult(discord.channelId)
      case Failure(e) => Aborted(GetChannel, e)
      case Success(channel) => ChannelPlan(client, discord, channel, id, holders, refused)
  }

  /** The steps that work on the fetched channel. After a successful login the
      client has a user. */
  function ChannelPlan(client: DiscordClient, discord: DiscordSettings, channel: Channel, id: string,
                       holders: set<string>, refused: set<string>): Run
  {
    var permission := PermissionResult(true, channel, discord.channelId);
    var send := client.SendResult(channel, id);
    if permission.Fail? then Aborted(CheckPermissions, permission.error)
    else if send.Fail? then Aborted(SendAnnouncement, send.error)
    else RolePlan(client, discord, channel, id, holders, refused)
  }

  /** The steps after the announcement: the guild and role lookups, the drain
      and the assignment. */
  function RolePlan(client: DiscordClient, discord: DiscordSettings, channel: Channel, id: string,
                    holders: set<string>, refused: set<string>): Run
  {
    var guild := GuildResult(channel, discord.channelId);
    var role := client.RoleResult(discord.supportRoleId);
    var drain := DrainResult(holders, refused);
    var assign := client.AssignResult(id);
    if guild.Fail? then Aborted(GetGuild, PlainError(InvalidGuildMessage(discord.channelId)))
    else if role.Fail? then Aborted(GetSupportRole, role.error)
    else if drain.Fail? then Aborted(RemoveRole, drain.error)
    else if assign.Fail? then Aborted(AssignRole, PlainError(UnknownUserMessage(id)))
    else Completed(id)
  }

  /** The try block: each step runs only when every earlier one succeeded. */
  method RotationSteps(client: DiscordClient, settings: Settings, response: HttpResponse,
                       refused: set<string>) returns (run: Run)
    requires client.Valid()
    modifies client
    ensures client.Valid()
    ensures run == Plan(client, settings, response, old(client.roleHolders), refused)
    ensures client.calls == old(client.calls) + StepsRun(run)
    ensures client.destroyCount == old(client.destroyCount)
    ensures Cleared(run, SendAnnouncement) ==>
              client.sent == old(client.sent) + [AnnouncementContent(Resolve(settings, response).value)]
    ensures !Cleared(run, SendAnnouncement) ==> client.sent == old(client.sent)
    ensures !Cleared(run, GetSupportRole) ==> client.roleHolders == old(client.roleHolders)
    ensures Cleared(run, GetSupportRole) && !Cleared(run, RemoveRole) ==>
              client.roleHolders == old(client.roleHolders) * refused
    ensures run.Aborted? && run.step == AssignRole ==> client.roleHolders == {}
    ensures run.Completed? ==> client.roleHolders == {run.engineer}
  {
    var discord := settings.discord;
    var resolved := Resolve(settings, response);
    if resolved.Failure? {
      return Unresolved(resolved.error);
    }
    var id := resolved.value;
    var r := client.LoginWith(discord.botToken);
    assert client.calls == old(client.calls) + Steps[..1];
    if r.Fail? {
      return Aborted(Login, r.error);
    }
    var fetched := client.FetchChannel(discord.channelId);
    assert client.calls == old(client.calls) + Steps[..2];
    if fetched.Failure? {
      return Aborted(GetChannel, fetched.error);
    }
    run := ChannelSteps(client, discord, fetched.value, id, refused);
    CallsAfterChannel(old(client.calls), run, client.calls);
  }

  /** The calls of a run that got past the channel lookup: login, the lookup, and
      the calls the channel steps made. */
  lemma CallsAfterChannel(before: seq<Step>, run: Run, calls: seq<Step>)
    requires run.Completed? || (run.Aborted? && Index(run.step) >= 2)
    requires calls == before + Steps[..2] + StepsRun(run)[2..]
    ensures calls == before + StepsRun(run)
  {
    assert StepsRun(run) == Steps[..2] + StepsRun(run)[2..];
  }

  /** The steps after the channel was fetched: permissions, the announcement, the
      guild and role lookups, the drain and the assignment. */
  method ChannelSteps(client: DiscordClient, discord: DiscordSettings, channel: Channel, id: string,
                      refused: set<string>) returns (run: Run)
    requires client.Valid() && client.loggedIn
    modifies client
    ensures client.Valid()
    ensures run == ChannelPlan(client, discord, channel, id, old(client.roleHolders), refused)
    ensures run.Completed? || (run.Aborted? && Index(run.step) >= 2)
    ensures client.calls == old(client.calls) + StepsRun(run)[2..]
    ensures client.destroyCount == old(client.destroyCount)
    ensures Cleared(run, SendAnnouncement) ==> client.sent == old(client.sent) + [AnnouncementContent(id)]
    ensures !Cleared(run, SendAnnouncement) ==> client.sent == old(client.sent)
    ensures !Cleared(run, GetSupportRole) ==> client.roleHolders == old(client.roleHolders)
    ensures Cleared(run, GetSupportRole) && !Cleared(run, RemoveRole) ==>
              client.roleHolders == old(client.roleHolders) * refused
    ensures run.Aborted? && run.step == AssignRole ==> client.roleHolders == {}
    ensures run.Completed? ==> run.engineer == id && client.roleHolders == {id}
  {
    var r := client.CheckBotPermissions(channel, discord.channelId);
    assert client.calls == old(client.calls) + Steps[2..3];
    if r.Fail? {
      return Aborted(CheckPermissions, r.error);
    }
    r := client.SendAnnouncementMessage(channel, id);
    assert client.calls == old(client.calls) + Steps[2..4];
    if r.Fail? {
      return Aborted(SendAnnouncement, r.error);
    }
    run := RoleSteps(client, discord, channel, id, refused);
    CallsAfterAnnouncement(old(client.calls), run, client.calls);
  }

  /** The calls of a run that got past the announcement, from the permission
      check on. */
  lemma CallsAfterAnnouncement(before: seq<Step>, run: Run, calls: seq<Step>)
    requires run.Completed? || (run.Aborted? && Index(run.step) >= 4)
    requires calls == before + Steps[2..4] + StepsRun(run)[4..]
    ensures calls == before + StepsRun(run)[2..]
  {
    assert StepsRun(run)[2..] == Steps[2..4] + StepsRun(run)[4..];
  }

  /** The steps that work on the role: the guild and role lookups, the drain and
      the assignment. The announcement has gone out, so the channel is in a
      guild and the engineer is a member. */
  method RoleSteps(client: DiscordClient, discord: DiscordSettings, channel: Channel, id: string,
                   refused: set<string>) returns (run: Run)
    requires client.Valid() && client.loggedIn
    requires channel.inGuild && id in client.members
    modifies client
    ensures client.Valid()
    ensures run == RolePlan(client, discord, channel, id, old(client.roleHolders), refused)
    ensures run.Completed? || (run.Aborted? && Index(run.step) >= 4)
    ensures client.calls == old(client.calls) + StepsRun(run)[4..]
    ensures client.destroyCount == old(client.destroyCount) && client.sent == old(client.sent)
    ensures !Cleared(run, GetSupportRole) ==> client.roleHolders == old(client.roleHolders)
    ensures Cleared(run, GetSupportRole) && !Cleared(run, RemoveRole) ==>
              client.roleHolders == old(client.roleHolders) * refused
    ensures run.Aborted? && run.step == AssignRole ==> client.roleHolders == {}
    ensures run.Completed? ==> run.engineer == id && client.roleHolders == {id}
  {
    var r := client.FetchGuild(channel, discord.channelId);
    assert client.calls == old(client.calls) + Steps[4..5];
    if r.Fail? {
      // Cannot happen: the permission step has already refused a channel outside a guild.
      return Aborted(GetGuild, PlainError(InvalidGuildMessage(discord.channelId)));
    }
    r := client.FetchSupportRole(discord.supportRoleId);
    assert client.calls == old(client.calls) + Steps[4..6];
    if r.Fail? {
      return Aborted(GetSupportRole, r.error);
    }
    r := client.RemoveRoleFromCurrentMembers(refused);
    assert client.calls == old(client.calls) + Steps[4..7];
    if r.Fail? {
      return Aborted(RemoveRole, r.error);
    }
    assert client.roleHolders == {};
    r := client.AssignRoleToMember(id);
    assert client.calls == old(client.calls) + Steps[4..8];
    if r.Fail? {
      // Cannot happen: the announcement step has already found the engineer among the members.
      return Aborted(AssignRole, PlainError(UnknownUserMessage(id)));
    }
    run := Completed(id);
  }

  /** `handleOncallRotation`: the steps, then `destroy()` in `finally`, whatever
      the steps did. A failed run is reported as its error. */
  method HandleOncallRotation(client: DiscordClient, settings: Settings, response: HttpResponse,
                              refused: set<string>) returns (run: Run)
    requires client.Valid()
    modifies client
    ensures client.Valid()
    ensures run == Plan(client, settings, response, old(client.roleHolders), refused)
    ensures client.calls == old(client.calls) + StepsRun(run)
    ensures client.destroyCount == old(client.destroyCount) + 1 && !client.loggedIn
    ensures Cleared(run, SendAnnouncement) ==>
              client.sent == old(client.sent) + [AnnouncementContent(Resolve(settings, response).value)]
    ensures !Cleared(run, SendAnnouncement) ==> client.sent == old(client.sent)
    ensures !Cleared(run, GetSupportRole) ==> client.roleHolders == old(client.roleHolders)
    ensures Cleared(run, GetSupportRole) && !Cleared(run, RemoveRole) ==>
              client.roleHolders == old(client.roleHolders) * refused
    ensures run.Aborted? && run.step == AssignRole ==> client.roleHolders == {}
    ensures run.Completed? ==> client.roleHolders == {run.engineer}
  {
    run := RotationSteps(client, settings, response, refused);
    client.Destroy();
  }

  // ----- Properties of a rotation -----

  /** A rotation completes exactly when every check along the way holds: the
      engineer is resolved, the token is accepted, the channel is a text channel
      of a guild the bot can post in, the engineer is a member, the role exists
      and no removal is refused. */
  lemma CompletedIff(client: DiscordClient, settings: Settings, response: HttpResponse,
                     holders: set<string>, refused: set<string>)
    ensures var run := Plan(client, settings, response, holders, refused);
            var d := settings.discord;
            var resolved := Resolve(settings, response);
            run.Completed? <==>
              && resolved.Success?
              && d.botToken == client.registeredToken
              && d.channelId in client.channels
              && client.channels[d.channelId].textBased
              && client.channels[d.channelId].botCanSend
              && client.channels[d.channelId].inGuild
              && resolved.value in client.members
              && d.supportRoleId in client.roles
              && (forall m :: m in holders ==> m !in refused)
    ensures var run := Plan(client, settings, response, holders, refused);
            run.Completed? ==> run.engineer == Resolve(settings, response).value
  {
  }

  /** When resolution fails nothing is asked of Discord, and the error is the
      VictorOps one; a response that is not ok is reported with its status. */
  lemma UnresolvedMakesNoDiscordCall(client: DiscordClient, settings: Settings, response: HttpResponse,
                                     holders: set<string>, refused: set<string>)
    requires Resolve(settings, response).Failure?
    ensures var run := Plan(client, settings, response, holders, refused);
            run == Unresolved(Resolve(settings, response).error) && StepsRun(run) == []
            && run.error.VictorOpsError?
    ensures !response.Ok() ==>
              Plan(client, settings, response, holders, refused)
              == Unresolved(VictorOpsError(ApiErrorMessage(response.statusText), Some(response.status)))
  {
    ResolutionErrorsAreVictorOps(response, settings.victoropsToDiscordUsernames);
  }

  /** A bot that may not post in the channel stops the rotation at the
      permission check: no message is sent and the role is not touched. */
  lemma MissingPermissionStopsBeforeEffects(client: DiscordClient, settings: Settings, response: HttpResponse,
                                            holders: set<string>, refused: set<string>)
    requires Resolve(settings, response).Success?
    requires settings.discord.botToken == client.registeredToken
    requires settings.discord.channelId in client.channels
    requires client.channels[settings.discord.channelId].textBased
    requires client.channels[settings.discord.channelId].inGuild
    requires !client.channels[settings.discord.channelId].botCanSend
    ensures var run := Plan(client, settings, response, holders, refused);
            && run == Aborted(CheckPermissions, DiscordError(NoSendPermissionMessage(settings.discord.channelId)))
            && !Cleared(run, SendAnnouncement) && !Cleared(run, GetSupportRole)
  {
  }

  /** A text channel outside a guild (a DM channel) has no `permissionsFor`, so
      the rotation stops at the permission check with a `TypeError`, whatever
      the permissions would have said. */
  lemma GuildlessChannelStopsAtPermissions(client: DiscordClient, settings: Settings, response: HttpResponse,
                                           holders: set<string>, refused: set<string>)
    requires Resolve(settings, response).Success?
    requires settings.discord.botToken == client.registeredToken
    requires settings.discord.channelId in client.channels
    requires client.channels[settings.discord.channelId].textBased
    requires !client.channels[settings.discord.channelId].inGuild
    ensures var run := Plan(client, settings, response, holders, refused);
            && run == Aborted(CheckPermissions, TypeError(NoPermissionsForMessage))
            && !Cleared(run, SendAnnouncement) && !Cleared(run, GetSupportRole)
  {
  }

  /** The guild check never fails inside a rotation: the permission step has
      already failed on a channel outside a guild. */
  lemma GuildCheckNeverFails(client: DiscordClient, settings: Settings, response: HttpResponse,
                             holders: set<string>, refused: set<string>)
    ensures var run := Plan(client, settings, response, holders, refused);
            run.Aborted? ==> run.step != GetGuild
  {
  }

  /** The member check of the assignment never fails inside a rotation: the
      announcement step has already found the engineer among the members. */
  lemma AssignCheckNeverFails(client: DiscordClient, settings: Settings, response: HttpResponse,
                              holders: set<string>, refused: set<string>)
    ensures var run := Plan(client, settings, response, holders, refused);
            run.Aborted? ==> run.step != AssignRole
  {
  }

  /** A client that logged in has a user, so the null-user error is never raised. */
  lemma NullUserNeverReported(client: DiscordClient, settings: Settings, response: HttpResponse,
                              holders: set<string>, refused: set<string>)
    ensures var run := Plan(client, settings, response, holders, refused);
            run.Aborted? ==> run.error != PlainError(NullUserMessage)
  {
  }

  /** Each step fails with its own kind of error. */
  lemma ErrorsByStep(client: DiscordClient, settings: Settings, response: HttpResponse,
                     holders: set<string>, refused: set<string>)
    ensures var run := Plan(client, settings, response, holders, refused);
            var d := settings.discord;
            run.Aborted? ==>
              match run.step
              case Login => run.error == RemoteError(LoginOperation)
              case GetChannel => run.error == DiscordError(InvalidChannelMessage(d.channelId))
              case CheckPermissions =>
                run.error == TypeError(NoPermissionsForMessage)
                || run.error == DiscordError(NoSendPermissionMessage(d.channelId))
              case SendAnnouncement => run.error == DiscordError(UnknownMemberMessage(Resolve(settings, response).value))
              case GetSupportRole => run.error == PlainError(NoSupportRoleMessage)
              case RemoveRole => run.error == RemoteError(RemoveRoleOperation)
              case _ => false
  {
  }

  /** The position of a step in the fixed order is unique. */
  lemma IndexOfStep(j: nat)
    requires j < |Steps|
    ensures Index(Steps[j]) == j
  {
  }

  /** The first failure stops every later step: a run that failed makes no call
      after the failing one, and that call is its last. */
  lemma NoStepAfterFailure(run: Run)
    requires run.Aborted?
    ensures var calls := StepsRun(run);
            |calls| > 0 && calls[|calls| - 1] == run.step
            && forall k :: 0 <= k < |calls| ==> Index(calls[k]) <= Index(run.step)
  {
    var calls := StepsRun(run);
    forall k | 0 <= k < |calls|
      ensures Index(calls[k]) <= Index(run.step)
    {
      IndexOfStep(k);
    }
  }

  /** With the configured identity table, every announcement goes out exactly as
      the template spells it. */
  lemma ConfiguredAnnouncementIsTemplate(settings: Settings, response: HttpResponse)
    requires settings.victoropsToDiscordUsernames == VictoropsToDiscordUsernames
    requires Resolve(settings, response).Success?
    ensures var id := Resolve(settings, response).value;
            AnnouncementContent(id) == MessageText(id)
  {
    var table := VictoropsToDiscordUsernames;
    var u :| IsFirstOnCall(response.body, u) && IsMapped(table, u);
    ConfiguredIdsAreSnowflakes();
    ContentIsTemplate(table[u]);
  }

  /** A whole rotation: VictorOps reports "baran" on call, every Discord check
      passes and two other members hold the role. The announcement is posted
      once, both old holders lose the role, baran's id gains it, and the client
      is destroyed once. */
  method BaranRotation() returns (client: DiscordClient, run: Run)
    ensures run == Completed(VictoropsToDiscordUsernames["baran"])
    ensures client.sent == [MessageText(VictoropsToDiscordUsernames["baran"])]
    ensures client.roleHolders == {VictoropsToDiscordUsernames["baran"]}
    ensures client.calls == Steps && client.destroyCount == 1
  {
    var id := VictoropsToDiscordUsernames["baran"];
    var previous := {"100000000000000001", "100000000000000002"};
    client := new DiscordClient("bot-token", map["announcements" := Channel(true, true, true)],
                                {id} + previous, {"support"}, previous);
    var settings := Settings(DiscordSettings("bot-token", "announcements", "support"),
                             VictoropsToDiscordUsernames, VictorOpsCredentials("api-id", "api-key"));
    var entry := OncallEntry(EscalationPolicy("primary", "primary"), [UserEntry(Some(User("baran")))]);
    var body := VictorOpsResponse([TeamOnCall(Team("support", "support"), [entry])]);
    var response := HttpResponse(200, "OK", body);
    assert IsFirstOnCall(body, "baran");
    assert Resolve(settings, response) == Success(id);
    assert Plan(client, settings, response, previous, {}) == Completed(id) by {
      CompletedIff(client, settings, response, previous, {});
    }
    run := HandleOncallRotation(client, settings, response, {});
    ConfiguredAnnouncementIsTemplate(settings, response);
  }
}
