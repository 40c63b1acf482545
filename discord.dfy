/** The Discord side of the workflow (src/index.ts:7-9, 83-149): a client object
    that logs in, looks up the announcement channel, posts the message and moves
    the support role, and is destroyed at the end. discord.js itself is not
    modelled; the server it talks to is a handful of facts fixed when the client
    is made, and what the workflow changes on it is kept in mutable fields. */
module Discord {
  import opened Wrappers
  import opened Errors
  import opened Announcement

  /** What the workflow can observe of a fetched channel. */
  datatype Channel = Channel(
    /** `isTextBased()` */
    textBased: bool,
    /** `permissionsFor(user)` grants `SendMessages` (read only in a guild) */
    botCanSend: bool,
    /** the channel belongs to a guild, so `channel.guild` is defined and the
        channel has a `permissionsFor` method; a DM channel has neither */
    inGuild: bool)

  /** The remote calls the client makes, in the order the workflow makes them. */
  datatype Step =
    | Login
    | GetChannel
    | CheckPermissions
    | SendAnnouncement
    | GetGuild
    | GetSupportRole
    | RemoveRole
    | AssignRole

  const LoginOperation := "login"
  const RemoveRoleOperation := "roles.remove"
  const NullUserMessage := "Discord client user is null"
  const NoSupportRoleMessage := "Support role not found"
  /** What V8 reports when a property of an undefined `channel.guild` is read. */
  const UndefinedGuildMessage := "Cannot read properties of undefined (reading 'members')"
  /** What V8 reports when `permissionsFor` is called on a channel outside a guild. */
  const NoPermissionsForMessage := "channel.permissionsFor is not a function"

  function InvalidChannelMessage(channelId: string): string {
    "Invalid channel: " + channelId
  }

  function NoSendPermissionMessage(channelId: string): string {
    "Bot lacks SendMessages permission in channel " + channelId
  }

  function UnknownMemberMessage(id: string): string {
    "Could not find Discord member with ID " + id
  }

  function InvalidGuildMessage(channelId: string): string {
    "Invalid guild: " + channelId
  }

  function UnknownUserMessage(id: string): string {
    "Could not find Discord user with ID " + id
  }

  /** `checkBotPermissions`: the client must have a user, the channel must have
      `permissionsFor` (only guild channels do), and the user must be allowed
      to post in the channel. */
  function PermissionResult(userPresent: bool, channel: Channel, channelId: string): (r: Outcome<Error>)
    ensures r.Pass? <==> userPresent && channel.inGuild && channel.botCanSend
    ensures !userPresent ==> r == Fail(PlainError(NullUserMessage))
    ensures userPresent && !channel.inGuild ==> r == Fail(TypeError(NoPermissionsForMessage))
    ensures userPresent && channel.inGuild && !channel.botCanSend ==>
              r == Fail(DiscordError(NoSendPermissionMessage(channelId)))
  {
    if !userPresent then Fail(PlainError(NullUserMessage))
    else if !channel.inGuild then Fail(TypeError(NoPermissionsForMessage))
    else if !channel.botCanSend then Fail(DiscordError(NoSendPermissionMessage(channelId)))
    else Pass
  }

  /** `getGuild`: a channel outside any guild is rejected. */
  function GuildResult(channel: Channel, channelId: string): (r: Outcome<Error>)
    ensures r.Pass? <==> channel.inGuild
    ensures r.Fail? ==> r == Fail(PlainError(InvalidGuildMessage(channelId)))
  {
    if channel.inGuild then Pass else Fail(PlainError(InvalidGuildMessage(channelId)))
  }

  /** The `Promise.all` of `removeRoleFromCurrentMembers`: it resolves exactly when
      no holder's removal was refused. */
  function DrainResult(holders: set<string>, refused: set<string>): (r: Outcome<Error>)
    ensures r.Pass? <==> forall m :: m in holders ==> m !in refused
    ensures r.Fail? ==> r.error == RemoteError(RemoveRoleOperation)
  {
    if holders * refused == {} then
      assert forall m :: m in holders && m in refused ==> m in holders * refused;
      Pass
    else
      assert exists m :: m in holders && m in refused by {
        var m :| m in holders * refused;
      }
      Fail(RemoteError(RemoveRoleOperation))
  }

  class DiscordClient {
    /** The bot token the gateway accepts. */
    const registeredToken: string
    /** The channels the bot can fetch, by id. */
    const channels: map<string, Channel>
    /** Ids of the members of the guild. */
    const members: set<string>
    /** Ids of the roles of the guild. */
    const roles: set<string>

    var loggedIn: bool
    /** How many times `destroy()` was called. */
    var destroyCount: nat
    /** Contents of the messages posted to the announcement channel, oldest first. */
    var sent: seq<string>
    /** The members that hold the support role. */
    var roleHolders: set<string>
    /** The remote calls made so far, oldest first. */
    ghost var calls: seq<Step>

    /** Only guild members can hold a guild role. */
    ghost predicate Valid()
      reads this
    {
      roleHolders <= members
    }

    constructor (registeredToken: string, channels: map<string, Channel>, members: set<string>,
                 roles: set<string>, roleHolders: set<string>)
      requires roleHolders <= members
      ensures Valid()
      ensures this.registeredToken == registeredToken && this.channels == channels
      ensures this.members == members && this.roles == roles && this.roleHolders == roleHolders
      ensures !loggedIn && destroyCount == 0 && sent == [] && calls == []
    {
      this.registeredToken := registeredToken;
      this.channels := channels;
      this.members := members;
      this.roles := roles;
      this.roleHolders := roleHolders;
      loggedIn := false;
      destroyCount := 0;
      sent := [];
      calls := [];
    }

    /** `login(token)`: the gateway accepts exactly the registered token. */
    function LoginResult(token: string): (r: Outcome<Error>)
      ensures r.Pass? <==> token == registeredToken
      ensures r.Fail? ==> r.error == RemoteError(LoginOperation)
    {
      if token == registeredToken then Pass else Fail(RemoteError(LoginOperation))
    }

    /** `getChannel`: the channel must exist and be text based. */
    function ChannelResult(channelId: string): (r: Result<Channel, Error>)
      ensures r.Success? <==> channelId in channels && channels[channelId].textBased
      ensures r.Success? ==> r.value == channels[channelId]
      ensures r.Failure? ==> r.error == DiscordError(InvalidChannelMessage(channelId))
    {
      if channelId in channels && channels[channelId].textBased then Success(channels[channelId])
      else Failure(DiscordError(InvalidChannelMessage(channelId)))
    }

    /** `sendAnnouncementMessage` before the post: `channel.guild.members` is read
        first, then the engineer must be a member. */
    function SendResult(channel: Channel, id: string): (r: Outcome<Error>)
      ensures r.Pass? <==> channel.inGuild && id in members
      ensures !channel.inGuild ==> r == Fail(TypeError(UndefinedGuildMessage))
      ensures channel.inGuild && id !in members ==> r == Fail(DiscordError(UnknownMemberMessage(id)))
    {
      if !channel.inGuild then Fail(TypeError(UndefinedGuildMessage))
      else if id !in members then Fail(DiscordError(UnknownMemberMessage(id)))
      else Pass
    }

    /** `getSupportRole`: the configured role must exist in the guild. */
    function RoleResult(roleId: string): (r: Outcome<Error>)
      ensures r.Pass? <==> roleId in roles
      ensures r.Fail? ==> r == Fail(PlainError(NoSupportRoleMessage))
    {
      if roleId in roles then Pass else Fail(PlainError(NoSupportRoleMessage))
    }

    /** `assignRoleToMember` before the add: the engineer must be a member. */
    function AssignResult(id: string): (r: Outcome<Error>)
      ensures r.Pass? <==> id in members
      ensures r.Fail? ==> r == Fail(PlainError(UnknownUserMessage(id)))
    {
      if id in members then Pass else Fail(PlainError(UnknownUserMessage(id)))
    }

    method LoginWith(token: string) returns (r: Outcome<Error>)
      modifies this
      ensures r == LoginResult(token)
      ensures loggedIn == (old(loggedIn) || r.Pass?)
      ensures calls == old(calls) + [Login]
      ensures destroyCount == old(destroyCount) && sent == old(sent) && roleHolders == old(roleHolders)
    {
      r := LoginResult(token);
      if r.Pass? {
        loggedIn := true;
      }
      calls := calls + [Login];
    }

    method FetchChannel(channelId: string) returns (r: Result<Channel, Error>)
      modifies this
      ensures r == ChannelResult(channelId)
      ensures calls == old(calls) + [GetChannel]
      ensures loggedIn == old(loggedIn) && destroyCount == old(destroyCount)
      ensures sent == old(sent) && roleHolders == old(roleHolders)
    {
      r := ChannelResult(channelId);
      calls := calls + [GetChannel];
    }

    /** The client has a user exactly while it is logged in. */
    method CheckBotPermissions(channel: Channel, channelId: string) returns (r: Outcome<Error>)
      modifies this
      ensures r == PermissionResult(old(loggedIn), channel, channelId)
      ensures calls == old(calls) + [CheckPermissions]
      ensures loggedIn == old(loggedIn) && destroyCount == old(destroyCount)
      ensures sent == old(sent) && roleHolders == old(roleHolders)
    {
      r := PermissionResult(loggedIn, channel, channelId);
      calls := calls + [CheckPermissions];
    }

    /** Posts the sanitised announcement for `id` when the engineer is a member. */
    method SendAnnouncementMessage(channel: Channel, id: string) returns (r: Outcome<Error>)
      modifies this
      ensures r == SendResult(channel, id)
      ensures sent == old(sent) + (if r.Pass? then [AnnouncementContent(id)] else [])
      ensures calls == old(calls) + [SendAnnouncement]
      ensures loggedIn == old(loggedIn) && destroyCount == old(destroyCount) && roleHolders == old(roleHolders)
    {
      r := SendResult(channel, id);
      if r.Pass? {
        sent := sent + [AnnouncementContent(id)];
      }
      calls := calls + [SendAnnouncement];
    }

    method FetchGuild(channel: Channel, channelId: string) returns (r: Outcome<Error>)
      modifies this
      ensures r == GuildResult(channel, channelId)
      ensures calls == old(calls) + [GetGuild]
      ensures loggedIn == old(loggedIn) && destroyCount == old(destroyCount)
      ensures sent == old(sent) && roleHolders == old(roleHolders)
    {
      r := GuildResult(channel, channelId);
      calls := calls + [GetGuild];
    }

    method FetchSupportRole(roleId: string) returns (r: Outcome<Error>)
      modifies this
      ensures r == RoleResult(roleId)
      ensures calls == old(calls) + [GetSupportRole]
      ensures loggedIn == old(loggedIn) && destroyCount == old(destroyCount)
      ensures sent == old(sent) && roleHolders == old(roleHolders)
    {
      r := RoleResult(roleId);
      calls := calls + [GetSupportRole];
    }

    /** `removeRoleFromCurrentMembers`: a removal is issued for every holder, and
        `refused` are the members whose removal Discord rejects. Every other
        holder loses the role, whatever happens to the rest: nothing is rolled
        back when the batch fails. */
    method RemoveRoleFromCurrentMembers(refused: set<string>) returns (r: Outcome<Error>)
      requires Valid()
      modifies this
      ensures Valid()
      ensures r == DrainResult(old(roleHolders), refused)
      ensures roleHolders == old(roleHolders) * refused
      ensures calls == old(calls) + [RemoveRole]
      ensures loggedIn == old(loggedIn) && destroyCount == old(destroyCount) && sent == old(sent)
    {
      var pending := roleHolders;
      var failed := false;
      while pending != {}
        invariant pending <= old(roleHolders)
        invariant roleHolders == pending + (old(roleHolders) - pending) * refused
        invariant failed <==> (old(roleHolders) - pending) * refused != {}
        invariant loggedIn == old(loggedIn) && destroyCount == old(destroyCount)
        invariant sent == old(sent) && calls == old(calls)
        decreases pending
      {
        var m :| m in pending;
        if m in refused {
          failed := true;
        } else {
          roleHolders := roleHolders - {m};
        }
        pending := pending - {m};
      }
      assert old(roleHolders) - pending == old(roleHolders);
      r := if failed then Fail(RemoteError(RemoveRoleOperation)) else Pass;
      calls := calls + [RemoveRole];
    }

    /** `assignRoleToMember`: the engineer must be a member, and then holds the role. */
    method AssignRoleToMember(id: string) returns (r: Outcome<Error>)
      requires Valid()
      modifies this
      ensures Valid()
      ensures r == AssignResult(id)
      ensures roleHolders == old(roleHolders) + (if r.Pass? then {id} else {})
      ensures calls == old(calls) + [AssignRole]
      ensures loggedIn == old(loggedIn) && destroyCount == old(destroyCount) && sent == old(sent)
    {
      r := AssignResult(id);
      if r.Pass? {
        roleHolders := roleHolders + {id};
      }
      calls := calls + [AssignRole];
    }

    /** `destroy()`: the connection is closed; it makes no remote call that fails. */
    method Destroy()
      modifies this
      ensures destroyCount == old(destroyCount) + 1 && !loggedIn
      ensures calls == old(calls) && sent == old(sent) && roleHolders == old(roleHolders)
    {
      destroyCount := destroyCount + 1;
      loggedIn := false;
    }
  }
}
