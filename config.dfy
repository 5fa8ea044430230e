/**
 * Start-up configuration read from the process environment
 * (src/config.rs). The environment is a map from variable names to values;
 * a value that is not valid Unicode is kept apart because `std::env::var`
 * reports it differently from a missing variable.
 */
module Configuration {
  import opened Wrappers
  import opened Errors
  import Text

  datatype EnvValue = Unicode(text: string) | NotUnicode

  type Env = map<string, EnvValue>

  /** The 64-byte key of the private session cookies. */
  type CookieSecret = s: seq<bv8> | |s| == 64 witness seq(64, _ => 0)

  /** Parsers of other crates: `chrono_tz::Tz`, `std::net::SocketAddr` and
      `lettre::Address`; each says whether its text parses. */
  datatype Parsers = Parsers(
    isTimezone: string -> bool,
    isSocketAddress: string -> bool,
    isEmailAddress: string -> bool)

  datatype Config = Config(
    bindAddr: string,
    cookieSecret: CookieSecret,
    databaseUrl: string,
    baseUrl: string,
    scheme: string,
    emailFrom: string,
    emailUrl: Option<string>,
    slackClientId: Option<string>,
    slackClientSecret: Option<string>,
    defaultUserTimezone: string,
    defaultUserEmail: Option<string>,
    defaultUserPassword: Option<string>,
    defaultUserOrganization: Option<string>,
    registrationEnabled: bool,
    requireEmailVerification: bool)

  /** `get_var`: the variable's text, or an error naming the variable when it
      is missing or not Unicode. */
  function GetVar(env: Env, key: string): (r: Result<string>)
    ensures r.Ok? <==> key in env && env[key].Unicode?
    ensures r.Ok? ==> r.value == env[key].text
    ensures r.Err? ==> r.error == Internal(key)
  {
    if key in env && env[key].Unicode? then Ok(env[key].text) else Err(Internal(key))
  }

  /** `Result::ok` of `get_var`, with a default. */
  function VarOr(env: Env, key: string, default: string): string
  {
    match GetVar(env, key)
    case Ok(v) => v
    case Err(_) => default
  }

  function OptionalVar(env: Env, key: string): Option<string>
  {
    match GetVar(env, key)
    case Ok(v) => Some(v)
    case Err(_) => None
  }

  /** `get_bool_var`: a missing variable is `None`; a present one is true
      exactly when, trimmed, it is "yes", "1" or "true"; a value that is not
      Unicode is an error. */
  function GetBoolVar(env: Env, key: string): (r: Result<Option<bool>>)
    ensures key !in env ==> r == Ok(None)
    ensures r.Err? <==> key in env && env[key].NotUnicode?
    ensures key in env && env[key].Unicode? ==> r.Ok? && r.value.Some?
    ensures r.Ok? && r.value.Some? ==>
              key in env && (r.value.value <==> Text.Trim(env[key].text) in {"yes", "1", "true"})
  {
    if key !in env then Ok(None)
    else match env[key]
      case Unicode(text) =>
        var t := Text.Trim(text);
        Ok(Some(t == "yes" || t == "1" || t == "true"))
      case NotUnicode => Err(Internal(key))
  }

  /** Surrounding whitespace does not change how a boolean variable reads. */
  lemma BoolVarIgnoresPadding(env: Env, key: string, before: string, word: string, after: string)
    requires Text.AllWhitespace(before) && Text.AllWhitespace(after)
    requires word != [] ==> !Text.IsWhitespace(word[0]) && !Text.IsWhitespace(word[|word| - 1])
    ensures GetBoolVar(env[key := Unicode(before + word + after)], key) ==
            GetBoolVar(env[key := Unicode(word)], key)
  {
    Text.TrimPadded(before, word, after);
    Text.TrimPadded([], word, []);
    assert [] + word + [] == word;
  }

  /** `Config::from_env`. `seeded` stands for filling 64 bytes from a SipHash
      seeded RNG keyed by COOKIE_SECRET; `random` for `thread_rng`. The checks
      run in the source's order, so the first failing one names the error. */
  function FromEnv(env: Env, parsers: Parsers, seeded: string -> CookieSecret, random: CookieSecret): (r: Result<Config>)
    ensures r.Ok? ==> (r.value.slackClientId.Some? ==> r.value.slackClientSecret.Some?)
    ensures r.Ok? && r.value.defaultUserPassword.Some? ==> Text.Utf8Len(r.value.defaultUserPassword.value) >= 8
    ensures r.Ok? ==> parsers.isSocketAddress(r.value.bindAddr) && parsers.isEmailAddress(r.value.emailFrom)
    ensures r.Ok? ==> r.value.defaultUserTimezone == "UTC" || parsers.isTimezone(r.value.defaultUserTimezone)
    ensures r.Ok? ==> GetVar(env, "DATABASE_URL") == Ok(r.value.databaseUrl)
    ensures r.Ok? ==>
              r.value.cookieSecret == (match GetVar(env, "COOKIE_SECRET") case Ok(v) => seeded(v) case Err(_) => random)
    ensures r.Ok? <==>
              && (OptionalVar(env, "SLACK_CLIENT_ID").Some? ==> GetVar(env, "SLACK_CLIENT_SECRET").Ok?)
              && (OptionalVar(env, "DEFAULT_USER_PASSWORD").Some? ==> Text.Utf8Len(OptionalVar(env, "DEFAULT_USER_PASSWORD").value) >= 8)
              && parsers.isSocketAddress(VarOr(env, "BIND_ADDRESS", "0.0.0.0:8080"))
              && GetVar(env, "DATABASE_URL").Ok?
              && parsers.isEmailAddress(VarOr(env, "EMAIL_FROM", "no-rely@dontpanic.rs"))
              && GetBoolVar(env, "REGISTRATION_ENABLED").Ok?
              && GetBoolVar(env, "REQUIRE_EMAIL_VERIFICATION").Ok?
    ensures r.Ok? ==>
              && r.value.bindAddr == VarOr(env, "BIND_ADDRESS", "0.0.0.0:8080")
              && r.value.baseUrl == VarOr(env, "BASE_URL", "localhost")
              && r.value.scheme == VarOr(env, "SCHEME", "http")
              && r.value.emailFrom == VarOr(env, "EMAIL_FROM", "no-rely@dontpanic.rs")
              && r.value.emailUrl == OptionalVar(env, "EMAIL_URL")
              && r.value.slackClientId == OptionalVar(env, "SLACK_CLIENT_ID")
              && r.value.slackClientSecret == OptionalVar(env, "SLACK_CLIENT_SECRET")
              && r.value.defaultUserEmail == OptionalVar(env, "DEFAULT_USER_EMAIL")
              && r.value.defaultUserPassword == OptionalVar(env, "DEFAULT_USER_PASSWORD")
              && r.value.defaultUserOrganization == OptionalVar(env, "DEFAULT_USER_ORGANIZATION")
              && r.value.registrationEnabled == GetBoolVar(env, "REGISTRATION_ENABLED").value.UnwrapOr(true)
              && r.value.requireEmailVerification == GetBoolVar(env, "REQUIRE_EMAIL_VERIFICATION").value.UnwrapOr(true)
    ensures r.Ok? ==>
              var tz := VarOr(env, "DEFAULT_USER_TIMEZONE", "UTC");
              r.value.defaultUserTimezone == if parsers.isTimezone(tz) then tz else "UTC"
  {
    var slackClientId := OptionalVar(env, "SLACK_CLIENT_ID");
    var secret := GetVar(env, "SLACK_CLIENT_SECRET");
    if slackClientId.Some? && secret.Err? then Err(secret.error)
    else
      var slackClientSecret := if secret.Ok? then Some(secret.value) else None;
      var password := OptionalVar(env, "DEFAULT_USER_PASSWORD");
      if password.Some? && Text.Utf8Len(password.value) < 8 then
        Err(Internal("DEFAULT_USER_PASSWORD must be minimum 8 characters long"))
      else
        var tzName := VarOr(env, "DEFAULT_USER_TIMEZONE", "UTC");
        var timezone := if parsers.isTimezone(tzName) then tzName else "UTC";
        var cookieSecret := match GetVar(env, "COOKIE_SECRET") case Ok(v) => seeded(v) case Err(_) => random;
        var bindAddr := VarOr(env, "BIND_ADDRESS", "0.0.0.0:8080");
        if !parsers.isSocketAddress(bindAddr) then Err(Internal("invalid socket address"))
        else
          var databaseUrl := GetVar(env, "DATABASE_URL");
          if databaseUrl.Err? then Err(databaseUrl.error)
          else
            var emailFrom := VarOr(env, "EMAIL_FROM", "no-rely@dontpanic.rs");
            if !parsers.isEmailAddress(emailFrom) then Err(Internal("invalid email address"))
            else
              var registration := GetBoolVar(env, "REGISTRATION_ENABLED");
              if registration.Err? then Err(registration.error)
              else
                var verification := GetBoolVar(env, "REQUIRE_EMAIL_VERIFICATION");
                if verification.Err? then Err(verification.error)
                else
                  Ok(Config(
                    bindAddr, cookieSecret, databaseUrl.value,
                    VarOr(env, "BASE_URL", "localhost"), VarOr(env, "SCHEME", "http"),
                    emailFrom, OptionalVar(env, "EMAIL_URL"),
                    slackClientId, slackClientSecret, timezone,
                    OptionalVar(env, "DEFAULT_USER_EMAIL"), password,
                    OptionalVar(env, "DEFAULT_USER_ORGANIZATION"),
                    registration.value.UnwrapOr(true), verification.value.UnwrapOr(true)))
  }

  /** With only DATABASE_URL set, every other setting takes its default and
      both registration and email verification are on. */
  lemma Defaults(url: string, parsers: Parsers, seeded: string -> CookieSecret, random: CookieSecret)
    requires parsers.isSocketAddress("0.0.0.0:8080") && parsers.isEmailAddress("no-rely@dontpanic.rs")
    ensures var r := FromEnv(map["DATABASE_URL" := Unicode(url)], parsers, seeded, random);
      r.Ok? && r.value.databaseUrl == url && r.value.bindAddr == "0.0.0.0:8080" &&
      r.value.baseUrl == "localhost" && r.value.scheme == "http" &&
      r.value.defaultUserTimezone == "UTC" && r.value.cookieSecret == random &&
      r.value.slackClientId.None? && r.value.defaultUserEmail.None? &&
      r.value.registrationEnabled && r.value.requireEmailVerification
  {
  }

  /** A configured default password shorter than 8 bytes stops start-up;
      when the Slack settings are consistent, with that error. */
  lemma ShortPasswordRefused(env: Env, parsers: Parsers, seeded: string -> CookieSecret, random: CookieSecret)
    requires GetVar(env, "DEFAULT_USER_PASSWORD").Ok? && Text.Utf8Len(GetVar(env, "DEFAULT_USER_PASSWORD").value) < 8
    ensures FromEnv(env, parsers, seeded, random).Err?
    ensures GetVar(env, "SLACK_CLIENT_ID").Err? || GetVar(env, "SLACK_CLIENT_SECRET").Ok? ==>
              FromEnv(env, parsers, seeded, random) == Err(Internal("DEFAULT_USER_PASSWORD must be minimum 8 characters long"))
  {
  }

  /** A Slack client id without a usable secret stops start-up with an error
      naming the secret. */
  lemma SecretRequiredWithClientId(env: Env, parsers: Parsers, seeded: string -> CookieSecret, random: CookieSecret)
    requires GetVar(env, "SLACK_CLIENT_ID").Ok? && GetVar(env, "SLACK_CLIENT_SECRET").Err?
    ensures FromEnv(env, parsers, seeded, random) == Err(Internal("SLACK_CLIENT_SECRET"))
  {
  }

  /** The same COOKIE_SECRET yields the same key on every start, so session
      cookies survive a restart; without it each start draws a fresh key. */
  lemma CookieSecretStable(env: Env, parsers: Parsers, seeded: string -> CookieSecret, random1: CookieSecret, random2: CookieSecret)
    requires GetVar(env, "COOKIE_SECRET").Ok?
    requires FromEnv(env, parsers, seeded, random1).Ok?
    ensures FromEnv(env, parsers, seeded, random2).Ok?
    ensures FromEnv(env, parsers, seeded, random1).value.cookieSecret ==
            FromEnv(env, parsers, seeded, random2).value.cookieSecret
  {
  }
}
