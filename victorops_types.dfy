/** The decoded body of VictorOps' current on-call response (src/types.ts). */
module VictorOpsTypes {
  import opened Wrappers

  datatype Team = Team(name: string, slug: string)

  datatype EscalationPolicy = EscalationPolicy(name: string, slug: string)

  datatype User = User(username: string)

  /** One element of `users`; `onCalluser` can be absent in the decoded JSON,
      which the source tests with `?.`. */
  datatype UserEntry = UserEntry(onCalluser: Option<User>)

  datatype OncallEntry = OncallEntry(escalationPolicy: EscalationPolicy, users: seq<UserEntry>)

  datatype TeamOnCall = TeamOnCall(team: Team, oncallNow: seq<OncallEntry>)

  datatype VictorOpsResponse = VictorOpsResponse(teamsOnCall: seq<TeamOnCall>)
}
