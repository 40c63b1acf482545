/** Process-wide configuration (src/config.ts). Loading it from the environment is
    not modelled; the settings are plain values handed to the workflow. */
module Config {

  datatype DiscordSettings = DiscordSettings(botToken: string, channelId: string, supportRoleId: string)

  datatype VictorOpsCredentials = VictorOpsCredentials(apiId: string, apiKey: string)

  datatype Settings = Settings(
    discord: DiscordSettings,
    victoropsToDiscordUsernames: map<string, string>,
    victorops: VictorOpsCredentials)

  /** The operator-maintained table from VictorOps usernames to Discord user ids. */
  const VictoropsToDiscordUsernames: map<string, string> := map[
    "baran" := "141140845410648064",
    "bayosodimu" := "770640121908559894",
    "bogdan.dumitru" := "111071282824552448",
    "xyznelson" := "507724676374593566",
    "philbow61" := "290529861204836352",
    "chapati" := "241484115000426496",
    "ryan.noble.mento" := "487208939084185601"
  ]

  /** A Discord id ("snowflake"): a non-empty run of decimal digits. */
  predicate IsSnowflake(id: string) {
    |id| > 0 && forall k :: 0 <= k < |id| ==> '0' <= id[k] <= '9'
  }

  /** Every Discord id in the configured table is a snowflake, so none is the
      empty string that the lookup would treat as missing. */
  lemma ConfiguredIdsAreSnowflakes()
    ensures forall u :: u in VictoropsToDiscordUsernames ==> IsSnowflake(VictoropsToDiscordUsernames[u])
  {
    forall u | u in VictoropsToDiscordUsernames
      ensures IsSnowflake(VictoropsToDiscordUsernames[u])
    {
      FirstIdsAreSnowflakes();
      LastIdsAreSnowflakes();
    }
  }

  lemma FirstIdsAreSnowflakes()
    ensures IsSnowflake("141140845410648064") && IsSnowflake("770640121908559894")
    ensures IsSnowflake("111071282824552448") && IsSnowflake("507724676374593566")
  {
  }

  lemma LastIdsAreSnowflakes()
    ensures IsSnowflake("290529861204836352") && IsSnowflake("241484115000426496")
    ensures IsSnowflake("487208939084185601")
  {
  }
}
