/** appConfig and getSaltRounds (src/infrastructure/config/env/app.config.ts):
 *  the run mode derived from NODE_ENV and the bcrypt cost derived from
 *  SECURITY_LEVEL and that mode. */
module AppConfig {
  import opened Domain
  import opened Text

  datatype EnvMode = Development | Production | Test

  const DefaultApiPort := "3001"

  /** The environment variables appConfig reads; None is an unset variable. */
  datatype Env = Env(nodeEnv: Option<string>, port: Option<string>, securityLevel: Option<string>)

  /** The switch on NODE_ENV: exact, case-sensitive spellings only; an unset
   *  NODE_ENV defaults to the development spelling. */
  function ModeOf(nodeEnv: Option<string>): (m: EnvMode)
    ensures m == Production <==> nodeEnv == Some("prod") || nodeEnv == Some("production")
    ensures m == Test <==> nodeEnv == Some("test")
    ensures nodeEnv.None? ==> m == Development
  {
    match nodeEnv
    case None => Development
    case Some(name) =>
      match name
      case "develop" => Development
      case "development" => Development
      case "prod" => Production
      case "production" => Production
      case "test" => Test
      case _ => Development
  }

  /** `if (securityLevel)`: set and not the empty string. */
  predicate Given(securityLevel: Option<string>)
    // the two falsy values a string setting can take are unset and ''
    ensures !Given(securityLevel) <==> securityLevel == None || securityLevel == Some("")
    ensures Given(securityLevel) ==> |securityLevel.value| >= 1
  {
    securityLevel.Some? && securityLevel.value != ""
  }

  /** getSaltRounds */
  function SaltRounds(securityLevel: Option<string>, mode: EnvMode): (n: int)
    ensures n == 5 || n == 10 || n == 15 || n == 20
    // a given level decides alone, whatever its letter case; unknown names give 10
    ensures Given(securityLevel) ==>
      && (n == 15 <==> ToUpper(securityLevel.value) == "HIGH")
      && (n == 20 <==> ToUpper(securityLevel.value) == "HIGHEST")
      && (n == 10 <==> ToUpper(securityLevel.value) != "HIGH" && ToUpper(securityLevel.value) != "HIGHEST")
    // otherwise the mode decides
    ensures !Given(securityLevel) ==>
      && (n == 5 <==> mode == Test)
      && (n == 10 <==> mode == Development)
      && (n == 15 <==> mode == Production)
  {
    if Given(securityLevel) then
      match ToUpper(securityLevel.value)
      case "DEFAULT" => 10
      case "HIGH" => 15
      case "HIGHEST" => 20
      case _ => 10
    else
      match mode
      case Development => 10
      case Test => 5
      case Production => 15
  }

  /** A given security level overrides the mode. */
  lemma LevelOverridesMode(securityLevel: Option<string>, one: EnvMode, other: EnvMode)
    requires Given(securityLevel)
    ensures SaltRounds(securityLevel, one) == SaltRounds(securityLevel, other)
  {
  }

  /** Upper-casing the level first changes nothing: the level is read case-insensitively. */
  lemma LevelCaseInsensitive(level: string, mode: EnvMode)
    ensures SaltRounds(Some(ToUpper(level)), mode) == SaltRounds(Some(level), mode)
  {
    ToUpperIdempotent(level);
  }

  /** The parts of the configuration the model keeps. */
  datatype Config = Config(port: string, mode: EnvMode, saltRounds: int)

  /** appConfig, with PORT kept as its text. */
  function AppConfigOf(env: Env): (c: Config)
    ensures c.port == if env.port.Some? then env.port.value else DefaultApiPort
    // the cost is always the one getSaltRounds derives from the level and the mode in the same config
    ensures c.saltRounds == SaltRounds(env.securityLevel, c.mode)
    ensures c.mode == ModeOf(env.nodeEnv)
    // an empty environment: development with cost 10
    ensures env.nodeEnv.None? && env.securityLevel.None? ==> c.mode == Development && c.saltRounds == 10
  {
    var mode := ModeOf(env.nodeEnv);
    Config(if env.port.Some? then env.port.value else DefaultApiPort, mode, SaltRounds(env.securityLevel, mode))
  }
}
