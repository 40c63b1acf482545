# Discord on-call announcer, modelled in Dafny

The announcer is a scheduled job that runs once a week. It asks VictorOps who is on
call. It maps that VictorOps username to a Discord user id through a fixed table. It
posts an announcement that mentions the engineer in a Discord channel. Before posting,
it wraps bare URLs in `<`…`>` so that Discord shows no link previews. Finally it moves
the "support" role from everyone who holds it to the new engineer. The Discord client
is destroyed at the end, whether the run failed or not.

The model has one module per concern:

- `Wrappers`: `Option`, `Result` and `Outcome`. A rejected promise becomes a `Failure`/`Fail` value.
- `Errors`: the errors the workflow can reject with. These are `VictorOpsError` and `DiscordError` from `src/errors.ts`, plain `Error`s, discord.js rejections, and the JavaScript `TypeError`s of a channel outside a guild.
- `Config`: the settings record and the configured username-to-id table.
- `VictorOpsTypes`: the decoded VictorOps response, as datatypes over sequences.
- `OnCall`: `getCurrentOncallEngineer`, as pure functions over the response and the table.
- `LinkPreview`: the rewrite `message.replace(/(?<!\]\()https?:\/\/[^\s)]+/g, '<$&>')`. The string is cut into segments (a copied character, or a matched URL), and the segments are rendered back. The lookbehind reads the original string. A match needs at least one character after the scheme. The run stops at the first JavaScript whitespace character or `)`.
- `Announcement`: the message template and the sanitised content that gets sent.
- `Discord`: a `DiscordClient` class. Its constant fields describe the server: the accepted token, the channels, the guild's members and roles. Its mutable fields hold what the workflow changes: login state, destroy count, posted messages, role holders, and a ghost log of the remote calls made. Each remote call is a method. Each check such a method makes is a function that the method's contract refers to.
- `Rotation`: `handleOncallRotation`. `Plan` is a pure reference that decides a run step by step. `RotationSteps`, `ChannelSteps` and `RoleSteps` are the try block, and `HandleOncallRotation` adds the `finally`. The methods are proved equal to `Plan`, and the properties of a run are lemmas about `Plan`.

Consequences of the source that the proofs bring out:

- The template's only URL is the target of a markdown link. So for every id the table can hold, the sanitiser sends the message exactly as the template spells it (`Announcement.ContentIsTemplate`).
- Three of the source's checks can never fail during a rotation:
  - `getGuild`'s guild check, because `checkBotPermissions` has already failed on a channel outside a guild: such a channel (a DM channel) has no `permissionsFor` method, so the call throws a `TypeError`;
  - `assignRoleToMember`'s member check, because the announcement step has already fetched the same member;
  - `checkBotPermissions`'s null-user check, because a client that logged in has a user.
- The lookbehind protects only a URL that starts right after `](`: a markdown link whose *text* is a URL is not left alone. `[http://a](http://b)` becomes `[<http://a](http://b>)`, because the run that starts in the text crosses `](` and swallows the target (`LinkPreview.ExampleUrlAsLinkText`). The message template is not affected.

Details of the code that the model keeps, although a quick reading might suggest otherwise:

- A username mapped to `""` counts as unmapped, because `!discordUserId` is also true for the empty string.
- A missing support role, an unknown member at assignment and a missing guild raise plain `Error`s, not `DiscordError`s.
- A failed drain leaves the removals that succeeded in place. Nothing is rolled back.

## Model

| member | source | states |
|---|---|---|
| OnCall.ResolveDiscordUser | src/index.ts:63-80 | An empty `teamsOnCall`, an empty first `oncallNow` and an absent first user each fail with their own message and no status. Otherwise the first user's username decides the result: its table entry if that entry is non-empty, else the mapping error. Success holds exactly when such a mapped first user exists. |
| OnCall.GetCurrentOncallEngineer | src/index.ts:59-80 | A response that is not ok fails with `"API error: " + statusText` and its status. An ok response gives the result of the walk. A success is never the empty string. |
| OnCall.ResolutionErrorsAreVictorOps | src/index.ts:59-78 | Every resolution error is a `VictorOpsError`, and it carries a status exactly when the HTTP response was not ok. |
| OnCall.NotOkIgnoresBodyAndTable | src/index.ts:59-63 | For a response that is not ok, neither the body nor the identity table can change the result. |
| OnCall.AbsenceIgnoresTable | src/index.ts:66-73 | When no first user exists, no lookup happens: the result is a failure, and it is the same for every table. |
| OnCall.OnlyFirstElementsMatter | src/index.ts:66-72 | Cutting every level down to its first element leaves the result unchanged, so later teams, entries and users are never consulted. |
| OnCall.FailureReasonsAreDistinct | src/index.ts:67-77 | The three absence messages are pairwise different, and no mapping message equals any of them. |
| Config.ConfiguredIdsAreSnowflakes | src/config.ts:47-56 | Every Discord id in the configured table is a non-empty string of decimal digits. |
| LinkPreview.UrlStartsAt | src/index.ts:112 | Definition of where the expression matches: `http://` or `https://` begins, at least one character that is not whitespace or `)` follows, and the two characters before are not `](`. Its properties are in `UnchangedIffNoMatch`, `LinksAreUrls` and `MarkdownLinkKept`. |
| LinkPreview.RunEnd | src/index.ts:112 | The greedy `[^\s)]+` run stops within the string, at its end or at whitespace or `)`. |
| LinkPreview.RunEndIsFirstTerminator | src/index.ts:112 | No character before the end of the run is whitespace or `)`, so the run stops at the first one. |
| LinkPreview.MatchEnd | src/index.ts:112 | A match runs past its scheme by at least one character and ends within the text. |
| LinkPreview.SegmentsFrom | src/index.ts:112 | Definition of the left-to-right scan of the global replace: a match becomes one URL segment and the scan resumes after it, elsewhere one character is copied. Its properties are in `RoundTrip`, `LinksAreUrls`, `UnchangedIffNoMatch` and `SplitAtSeam`. |
| LinkPreview.Sanitize | src/index.ts:112 | Definition of the rewrite: every match is replaced by `<`, the match, `>`. Its properties are in `RoundTrip`, `UnchangedIffNoMatch`, `SplitAtSeam`, `BareUrlAfterText` and the examples. |
| LinkPreview.RoundTrip | src/index.ts:112 | Deleting exactly the inserted brackets gives back the input. Each match makes the output two characters longer. |
| LinkPreview.LinksAreUrls | src/index.ts:112 | Every wrapped span is `http://` or `https://`, then at least one more character, with no whitespace or `)` anywhere in it. |
| LinkPreview.UnchangedIffNoMatch | src/index.ts:112 | The rewrite leaves a string unchanged if and only if the expression matches at no position of it. |
| LinkPreview.NoSchemeUnchanged | src/index.ts:112 | A string in which no `http://` or `https://` starts passes through unchanged. |
| LinkPreview.SplitAtSeam | src/index.ts:112 | Where two strings meet at whitespace or `)`, the rewrite of their concatenation is the concatenation of their rewrites. |
| LinkPreview.BareUrlWrapped | src/index.ts:112 | A bare URL between whitespace or `)` on both sides is wrapped in `<` and `>`. The wrapped span ends just before the whitespace or `)` that follows it. |
| LinkPreview.BareUrlAfterText | src/index.ts:112 | A bare URL is wrapped after any text in which no scheme begins and which does not end in `](`, for example after `(`, `"` or `:`. The text before it is copied unchanged, and the text after the terminator that ends it is rewritten on its own. |
| LinkPreview.MarkdownLinkKept | src/index.ts:112 | A markdown link `[text](url)` is left unchanged when no URL starts in its text or after the first character of its target. |
| LinkPreview.ExampleBareUrl | src/index.ts:112 | `see http://x.com for info` becomes `see <http://x.com> for info`. |
| LinkPreview.ExampleParenthesisedUrl | src/index.ts:112 | `(http://x.com)` becomes `(<http://x.com>)`: a `(` alone does not protect a URL. |
| LinkPreview.ExampleMarkdownLink | src/index.ts:112 | `[link](http://x.com)` comes out unchanged. |
| LinkPreview.ExampleUrlAsLinkText | src/index.ts:112 | `[http://a](http://b)` becomes `[<http://a](http://b>)`: a URL used as link text is not protected. |
| Announcement.MessageText | src/index.ts:109-110 | The mention `<@id>` comes right after the headline. When the id holds no `<`, the mention's `<` is the only one in the message, so the message mentions exactly one user. |
| Announcement.AnnouncementContent | src/index.ts:112 | Definition of the content sent: the rewrite applied to the template text. Its properties are in `ContentIsTemplate` and `Rotation.ConfiguredAnnouncementIsTemplate`. |
| Announcement.BoardLinkKept | src/index.ts:110-112 | The markdown link to the support board survives the rewrite unchanged. |
| Announcement.BodyKept | src/index.ts:109-112 | All of the template after the mention survives the rewrite unchanged. |
| Announcement.PrefixKept | src/index.ts:109-112 | For a snowflake id, the headline and the mention survive the rewrite unchanged. |
| Announcement.ContentIsTemplate | src/index.ts:109-112 | For a snowflake id, the content sent is exactly the template text with `<@id>` spliced in. |
| Announcement.MessageNamesEngineer | src/index.ts:109 | Two ids give the same message only if they are the same id. |
| Discord.PermissionResult | src/index.ts:91-100 | The check passes exactly when the client has a user, the channel is in a guild and the bot may post. A missing user gives the plain null-user error. A channel outside a guild has no `permissionsFor`, which is a `TypeError`. In a guild, a missing permission gives `DiscordError` naming the channel. |
| Discord.GuildResult | src/index.ts:119-125 | The check passes exactly when the channel belongs to a guild. Otherwise it fails with `"Invalid guild: " + channelId`. |
| Discord.DrainResult | src/index.ts:139-140 | The batch of removals resolves exactly when no holder's removal is refused. Otherwise it rejects. |
| Discord.DiscordClient.constructor | src/index.ts:7-9 | A fresh client is logged out, has posted nothing, has made no call, and starts with the given facts and holders. |
| Discord.DiscordClient.LoginResult | src/index.ts:17 | Login succeeds exactly for the registered token. |
| Discord.DiscordClient.ChannelResult | src/index.ts:83-89 | The channel is returned exactly when it exists and is text based. Otherwise the result is `DiscordError("Invalid channel: " + channelId)`. |
| Discord.DiscordClient.SendResult | src/index.ts:102-107 | Posting may go ahead exactly when the channel is in a guild and the engineer is a member. Reading `channel.guild.members` on a guildless channel is a `TypeError`. A non-member gives the member `DiscordError`. |
| Discord.DiscordClient.RoleResult | src/index.ts:127-133 | The role is found exactly when it exists. Otherwise the result is `"Support role not found"`. |
| Discord.DiscordClient.AssignResult | src/index.ts:143-147 | The assignment may go ahead exactly when the engineer is a member. Otherwise the result is the plain unknown-user error. |
| Discord.DiscordClient.LoginWith | src/index.ts:17 | The result is the login check. The client is logged in afterwards if it was before or the login succeeded. Nothing else changes, and one `Login` call is logged. |
| Discord.DiscordClient.FetchChannel | src/index.ts:83-89 | The result is the channel check. Nothing but the call log changes. |
| Discord.DiscordClient.CheckBotPermissions | src/index.ts:91-100 | The result is the permission check, with "has a user" meaning "is logged in". Nothing but the call log changes. |
| Discord.DiscordClient.SendAnnouncementMessage | src/index.ts:102-117 | When the check passes, exactly one message is appended, and it is the sanitised content for the engineer. When the check fails, nothing is posted. Role holders and login state are unchanged. |
| Discord.DiscordClient.FetchGuild | src/index.ts:119-125 | The result is the guild check. Nothing but the call log changes. |
| Discord.DiscordClient.FetchSupportRole | src/index.ts:127-133 | The result is the role check. Nothing but the call log changes. |
| Discord.DiscordClient.RemoveRoleFromCurrentMembers | src/index.ts:135-141 | A removal is issued for every holder. Afterwards exactly the refused holders keep the role, and only guild members hold it. The result passes exactly when no holder was refused. |
| Discord.DiscordClient.AssignRoleToMember | src/index.ts:143-149 | When the engineer is a member, the holders gain exactly the engineer. When not, the holders are unchanged. Only guild members hold the role. |
| Discord.DiscordClient.Destroy | src/index.ts:45-48 | The destroy count goes up by one and the client is logged out. Posts, holders and the call log are unchanged. |
| Rotation.Plan | src/index.ts:11-38 | Definition of the reference outcome: resolution, then login and the channel fetch, then `ChannelPlan`, each step deciding only when all earlier ones passed. Its properties are in `CompletedIff`, `ErrorsByStep`, `NoStepAfterFailure` and the lemmas after them, and `RotationSteps` is proved equal to it. |
| Rotation.ChannelPlan | src/index.ts:22-38 | Definition of the permission and announcement steps, then `RolePlan`. `ChannelSteps` is proved equal to it. |
| Rotation.RolePlan | src/index.ts:28-38 | Definition of the guild, role, removal and assignment steps. `RoleSteps` is proved equal to it. |
| Rotation.RotationSteps | src/index.ts:12-41 | The try block decides the same run as `Plan`. Its calls are exactly the steps up to the failing one. A message is posted only once the announcement step has passed. The holders change only once the role lookup has passed. A failed drain leaves only the refused holders. A completed run leaves exactly the engineer holding the role. |
| Rotation.ChannelSteps | src/index.ts:22-38 | The steps after the channel fetch agree with the reference. Each step runs only if every earlier one passed. The posted message and the holders change as above. |
| Rotation.RoleSteps | src/index.ts:29-38 | The role steps agree with the reference: the guild check, the role lookup, the removal of every current holder, then the assignment. A failed drain leaves exactly the refused holders. A completed run leaves only the engineer holding the role, and nothing is posted. |
| Rotation.HandleOncallRotation | src/index.ts:11-49 | As `RotationSteps`, and `destroy()` runs exactly once on every path, logged out afterwards. |
| Rotation.CompletedIff | src/index.ts:11-49 | A run completes, naming the resolved engineer, if and only if every check holds: resolution, token, text channel in a guild with send permission, membership, role existence, and no refused removal. |
| Rotation.UnresolvedMakesNoDiscordCall | src/index.ts:13-14 | A failed resolution reports its `VictorOpsError` and makes no Discord call. A response that is not ok is reported with its status. |
| Rotation.MissingPermissionStopsBeforeEffects | src/index.ts:22-26 | For a guild channel without send permission, the run stops at the permission check with the permission `DiscordError`. It stops before the announcement and before any role change. |
| Rotation.GuildlessChannelStopsAtPermissions | src/index.ts:91-96 | A text channel outside a guild stops the run at the permission check with the `permissionsFor` `TypeError`, whatever its permissions. It stops before the announcement and before any role change. |
| Rotation.GuildCheckNeverFails | src/index.ts:119-125 | No run fails at the guild check. |
| Rotation.AssignCheckNeverFails | src/index.ts:143-147 | No run fails at the assignment's member check. |
| Rotation.NullUserNeverReported | src/index.ts:92-94 | No run fails with the null-user error. |
| Rotation.ErrorsByStep | src/index.ts:83-147 | Each step fails only with its own error: a login rejection, the channel error, the `permissionsFor` `TypeError` or the permission error, the member error, the role error, or a removal rejection. The announcement never fails on an undefined guild. |
| Rotation.NoStepAfterFailure | src/index.ts:12-44 | The last call of a failed run is the failing step, and no call comes later in the step order. |
| Rotation.ConfiguredAnnouncementIsTemplate | src/index.ts:109-112 | With the configured table, every announcement goes out exactly as the template spells it. |
| Rotation.BaranRotation | src/index.ts:11-49 | VictorOps reports `baran`, every check passes, and two others hold the role. Then the run completes with baran's id and posts exactly one announcement. Only that id holds the role, every step runs once, and the client is destroyed once. |

## Left out

- The HTTP request to VictorOps and JSON decoding (src/index.ts:52-57, 63): the decoded response is an input value. Network failures, and bodies whose shape differs from src/types.ts (for example a `null` inside an array), are not represented.
- The header credentials and the environment loading in src/config.ts:1-26: these are I/O with no logic, so the settings are a plain record.
- discord.js itself: gateway login, caching, and the `guild.members.fetch()` that only fills the cache (src/index.ts:7-9, 17, 138). The server is a set of fixed facts, and the cache fetch is taken to succeed.
- Discord.DiscordClient.SendResult and Discord.DiscordClient.AssignResult treat an unknown member as the `!member` branch of the source. discord.js may reject the fetch with its own error instead, and that error is not modelled.
- Discord.DiscordClient.ChannelResult: an id for which the server has no channel gives the `Invalid channel` `DiscordError` of the `!channel` branch. discord.js may reject the fetch with its own unknown-channel API error first, and that error is not modelled.
- Rejections of `channels.fetch`, `roles.fetch`, `channel.send` and `roles.add` for transport reasons are not modelled. Only login and the per-member role removals can be refused.
- Changes to the guild made by others during a run: members and roles are fixed for the whole run. This is why the member check of `assignRoleToMember` can never fail in the model.
- The concurrency of `Promise.all` (src/index.ts:140): the removals run one after another in a loop. The result is the same set of holders, and the batch fails when any removal is refused. Which rejection Promise.all reports first is not modelled; the error only names the operation.
- A channel other than the configured one: the permission error names the configured id, which is the fetched channel's `id`.
- Console logging, the `CloudEvent` trigger and the re-throw to the Cloud Functions runtime (src/index.ts:41-44): the run's outcome is returned as a value.
- `allowedMentions` (src/index.ts:115) has no effect on the content, so it is not represented.
- The JavaScript property lookup on the identity table: keys inherited from `Object.prototype` (such as `constructor`) are not modelled. The table is a `map` of its own keys only.
- Discord.DiscordClient.LoginWith: repeated logins and login while already connected are not modelled beyond "stays logged in".
