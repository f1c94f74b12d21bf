/** pinoConfig (src/infrastructure/config/env/pino.config.ts): the HTTP
 *  logger's level and transport, chosen by whether NODE_ENV names production. */
module PinoConfig {
  import opened Domain
  import opened Text
  import AppConfig

  datatype Transport = Transport(target: string)

  datatype PinoOptions = PinoOptions(level: string, transport: Option<Transport>)

  /** `NODE_ENV?.toLowerCase() === 'production'` */
  predicate IsProduction(nodeEnv: Option<string>)
    ensures IsProduction(nodeEnv) ==> nodeEnv.Some? && |nodeEnv.value| == 10
    ensures nodeEnv == Some("production") ==> IsProduction(nodeEnv)
  {
    nodeEnv.Some? && ToLower(nodeEnv.value) == "production"
  }

  function PinoConfigOf(nodeEnv: Option<string>): (o: PinoOptions)
    ensures o.level == "info" || o.level == "debug"
    ensures o.level == "info" <==> IsProduction(nodeEnv)
    ensures o.transport.None? <==> IsProduction(nodeEnv)
    ensures o.transport.Some? ==> o.transport.value == Transport("pino-pretty")
    ensures nodeEnv.None? ==> o == PinoOptions("debug", Some(Transport("pino-pretty")))
  {
    var isProduction := IsProduction(nodeEnv);
    PinoOptions(if isProduction then "info" else "debug",
                if isProduction then None else Some(Transport("pino-pretty")))
  }

  /** Level and transport follow the one flag: two environments that agree on
   *  it get the same options. */
  lemma DecidedByOneFlag(one: Option<string>, other: Option<string>)
    requires IsProduction(one) == IsProduction(other)
    ensures PinoConfigOf(one) == PinoConfigOf(other)
  {
  }

  /** Lower-casing NODE_ENV first changes nothing. */
  lemma ProductionCaseInsensitive(nodeEnv: string)
    ensures IsProduction(Some(ToLower(nodeEnv))) == IsProduction(Some(nodeEnv))
  {
    ToLowerIdempotent(nodeEnv);
  }

  /** The two readings of NODE_ENV disagree on every spelling of
   *  "production" other than the lower-case one ("PRODUCTION", "Production"):
   *  production for the logger, but development, with 10 salt rounds, for
   *  appConfig. The disagreement is latent: the environment schema
   *  (src/infrastructure/config/env/env.schema.ts:4-6) admits only
   *  'development', 'production' and 'test', so the running application
   *  refuses such a NODE_ENV at startup. */
  lemma ProductionSpellingsDisagree(nodeEnv: string)
    requires ToLower(nodeEnv) == "production" && nodeEnv != "production"
    ensures IsProduction(Some(nodeEnv))
    ensures AppConfig.ModeOf(Some(nodeEnv)) == AppConfig.Development
    ensures AppConfig.SaltRounds(None, AppConfig.ModeOf(Some(nodeEnv))) == 10
  {
    assert |nodeEnv| == 10;
  }

  /** "prod" is production for appConfig but not for the logger; latent like
   *  the lemma above, since the environment schema refuses "prod". */
  lemma ProdDisagrees()
    ensures AppConfig.ModeOf(Some("prod")) == AppConfig.Production
    ensures !IsProduction(Some("prod"))
  {
    assert |ToLower("prod")| == 4;
  }
}
