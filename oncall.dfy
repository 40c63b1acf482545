/** On-call resolution: `getCurrentOncallEngineer` in src/index.ts. The HTTP
    request itself and JSON decoding are not modelled; the response arrives as a
    value. */
module OnCall {
  import opened Wrappers
  import opened Errors
  import opened VictorOpsTypes

  /** What `fetch` resolves to: `ok`, `status`, `statusText` and the decoded body. */
  datatype HttpResponse = HttpResponse(status: int, statusText: string, body: VictorOpsResponse) {
    /** `Response.ok` of the Fetch standard: the status is in the range 200-299. */
    predicate Ok() {
      200 <= status <= 299
    }
  }

  const NoTeamMessage := "No on-call team found"
  const NoScheduleMessage := "No on-call schedule found"
  const NoUserMessage := "No on-call user found"

  function ApiErrorMessage(statusText: string): string {
    "API error: " + statusText
  }

  function MappingMessage(username: string): string {
    "No Discord mapping for VictorOps user: " + username
  }

  /** `u` is the username of the first user of the first on-call entry of the
      first team: the one record the source looks at. */
  ghost predicate IsFirstOnCall(data: VictorOpsResponse, u: string) {
    && |data.teamsOnCall| > 0
    && |data.teamsOnCall[0].oncallNow| > 0
    && |data.teamsOnCall[0].oncallNow[0].users| > 0
    && data.teamsOnCall[0].oncallNow[0].users[0].onCalluser == Some(User(u))
  }

  /** The error kinds of the three levels at which the walk can find nothing. */
  ghost predicate IsAbsenceError(e: Error) {
    e in {VictorOpsError(NoTeamMessage, None), VictorOpsError(NoScheduleMessage, None),
          VictorOpsError(NoUserMessage, None)}
  }

  /** `discordUserId` is falsy both when the key is missing and when it maps to "". */
  predicate IsMapped(identities: map<string, string>, username: string) {
    username in identities && identities[username] != ""
  }

  /** The walk and the lookup of src/index.ts:65-80, on a response that was ok. */
  function ResolveDiscordUser(data: VictorOpsResponse, identities: map<string, string>): (r: Result<string, Error>)
    ensures |data.teamsOnCall| == 0 ==> r == Failure(VictorOpsError(NoTeamMessage, None))
    ensures |data.teamsOnCall| > 0 && |data.teamsOnCall[0].oncallNow| == 0 ==>
              r == Failure(VictorOpsError(NoScheduleMessage, None))
    ensures |data.teamsOnCall| > 0 && |data.teamsOnCall[0].oncallNow| > 0 &&
            (|data.teamsOnCall[0].oncallNow[0].users| == 0 ||
             data.teamsOnCall[0].oncallNow[0].users[0].onCalluser == None) ==>
              r == Failure(VictorOpsError(NoUserMessage, None))
    ensures forall u :: IsFirstOnCall(data, u) ==>
              r == if IsMapped(identities, u) then Success(identities[u])
                   else Failure(VictorOpsError(MappingMessage(u), None))
    ensures r.Success? <==> exists u :: IsFirstOnCall(data, u) && IsMapped(identities, u)
    ensures r.Failure? && (forall u :: !IsFirstOnCall(data, u)) ==> IsAbsenceError(r.error)
  {
    if |data.teamsOnCall| == 0 then
      Failure(VictorOpsError(NoTeamMessage, None))
    else
      var team := data.teamsOnCall[0];
      if |team.oncallNow| == 0 then
        Failure(VictorOpsError(NoScheduleMessage, None))
      else
        var oncall := team.oncallNow[0];
        if |oncall.users| == 0 || oncall.users[0].onCalluser.None? then
          Failure(VictorOpsError(NoUserMessage, None))
        else
          var user := oncall.users[0].onCalluser.value;
          assert IsFirstOnCall(data, user.username);
          if IsMapped(identities, user.username) then
            Success(identities[user.username])
          else
            Failure(VictorOpsError(MappingMessage(user.username), None))
  }

  /** `getCurrentOncallEngineer` after the fetch: a response that is not ok is
      rejected with its status before the body is looked at. */
  function GetCurrentOncallEngineer(response: HttpResponse, identities: map<string, string>): (r: Result<string, Error>)
    ensures !response.Ok() ==>
              r == Failure(VictorOpsError(ApiErrorMessage(response.statusText), Some(response.status)))
    ensures response.Ok() ==> r == ResolveDiscordUser(response.body, identities)
    ensures r.Success? ==> response.Ok() && r.value != ""
  {
    if !response.Ok() then
      Failure(VictorOpsError(ApiErrorMessage(response.statusText), Some(response.status)))
    else
      ResolveDiscordUser(response.body, identities)
  }

  /** Every error resolution can produce is a VictorOpsError, and it carries a
      status exactly when the HTTP response was not ok. */
  lemma ResolutionErrorsAreVictorOps(response: HttpResponse, identities: map<string, string>)
    ensures var r := GetCurrentOncallEngineer(response, identities);
            r.Failure? ==> r.error.VictorOpsError? && (r.error.status.Some? <==> !response.Ok())
  {
    var r := GetCurrentOncallEngineer(response, identities);
    if response.Ok() && r.Failure? {
      var data := response.body;
      if |data.teamsOnCall| > 0 && |data.teamsOnCall[0].oncallNow| > 0 &&
         |data.teamsOnCall[0].oncallNow[0].users| > 0 &&
         data.teamsOnCall[0].oncallNow[0].users[0].onCalluser.Some? {
        assert IsFirstOnCall(data, data.teamsOnCall[0].oncallNow[0].users[0].onCalluser.value.username);
      }
    }
  }

  /** A response that is not ok decides the result alone: the body and the
      identity table are never consulted. */
  lemma NotOkIgnoresBodyAndTable(response: HttpResponse, body: VictorOpsResponse,
                                 identities: map<string, string>, other: map<string, string>)
    requires !response.Ok()
    ensures GetCurrentOncallEngineer(response, identities)
         == GetCurrentOncallEngineer(response.(body := body), other)
  {
  }

  /** When the walk finds no user, no lookup happens: the result is the same for
      every identity table. */
  lemma AbsenceIgnoresTable(data: VictorOpsResponse, identities: map<string, string>, other: map<string, string>)
    requires forall u :: !IsFirstOnCall(data, u)
    ensures ResolveDiscordUser(data, identities) == ResolveDiscordUser(data, other)
    ensures ResolveDiscordUser(data, identities).Failure?
  {
    if |data.teamsOnCall| > 0 && |data.teamsOnCall[0].oncallNow| > 0 &&
       |data.teamsOnCall[0].oncallNow[0].users| > 0 &&
       data.teamsOnCall[0].oncallNow[0].users[0].onCalluser.Some? {
      assert IsFirstOnCall(data, data.teamsOnCall[0].oncallNow[0].users[0].onCalluser.value.username);
    }
  }

  /** The response cut down to the first element at each level. */
  function Truncate(data: VictorOpsResponse): (t: VictorOpsResponse)
    ensures |t.teamsOnCall| <= 1
    ensures |t.teamsOnCall| > 0 ==> |t.teamsOnCall[0].oncallNow| <= 1
    ensures |t.teamsOnCall| > 0 && |t.teamsOnCall[0].oncallNow| > 0 ==>
              |t.teamsOnCall[0].oncallNow[0].users| <= 1
  {
    if |data.teamsOnCall| == 0 then data
    else
      var team := data.teamsOnCall[0];
      if |team.oncallNow| == 0 then VictorOpsResponse([team])
      else
        var oncall := team.oncallNow[0];
        var first := oncall.(users := oncall.users[..if |oncall.users| == 0 then 0 else 1]);
        VictorOpsResponse([team.(oncallNow := [first])])
  }

  /** Only index 0 is consulted at every level: dropping every later team, on-call
      entry and user leaves the result unchanged. */
  lemma OnlyFirstElementsMatter(data: VictorOpsResponse, identities: map<string, string>)
    ensures ResolveDiscordUser(Truncate(data), identities) == ResolveDiscordUser(data, identities)
  {
    var t := Truncate(data);
    if |data.teamsOnCall| > 0 && |data.teamsOnCall[0].oncallNow| > 0 {
      assert t.teamsOnCall[0].oncallNow[0].users ==
             data.teamsOnCall[0].oncallNow[0].users[..if |data.teamsOnCall[0].oncallNow[0].users| == 0 then 0 else 1];
      if |data.teamsOnCall[0].oncallNow[0].users| > 0 &&
         data.teamsOnCall[0].oncallNow[0].users[0].onCalluser.Some? {
        var u := data.teamsOnCall[0].oncallNow[0].users[0].onCalluser.value.username;
        assert IsFirstOnCall(data, u);
        assert IsFirstOnCall(t, u);
      }
    }
  }

  /** The four failure reasons of the walk and the lookup are told apart by their
      messages, and none is mistaken for an HTTP failure (which has a status). */
  lemma FailureReasonsAreDistinct(username: string)
    ensures NoTeamMessage != NoScheduleMessage && NoScheduleMessage != NoUserMessage
    ensures NoTeamMessage != NoUserMessage
    ensures MappingMessage(username) !in {NoTeamMessage, NoScheduleMessage, NoUserMessage}
  {
    var prefix := "No Discord mapping for VictorOps user: ";
    assert MappingMessage(username)[..3] == prefix[..3];
  }
}
