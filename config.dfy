/**
 * backend/src/config.js: the `.env` line loader, the CORS origin list and
 * the numeric settings with their defaults. The file read itself is left to
 * the caller: the loader takes the file's text.
 */
module Config {
  import opened Wrappers
  import opened Strings
  import Seqs

  type Env = map<string, string>

  /**
   * What one `.env` line contributes: nothing for a blank line, a comment or
   * a line without '='; otherwise the trimmed text before the first '=' and
   * the trimmed text after it.
   */
  function ParseEnvLine(line: string): (entry: Option<(string, string)>)
    ensures Trim(line) == [] || Trim(line)[0] == '#' || '=' !in Trim(line) ==> entry.None?
    ensures entry.Some? ==>
      var t := Trim(line);
      var eq := IndexOf(t, '=');
      0 <= eq && entry.value == (Trim(t[..eq]), Trim(t[eq + 1..]))
    ensures entry.Some? ==> '=' !in entry.value.0 && IsTrimmed(entry.value.0) && IsTrimmed(entry.value.1)
  {
    var trimmed := Trim(line);
    if trimmed == "" || trimmed[0] == '#' then None
    else
      var eq := IndexOf(trimmed, '=');
      if eq < 0 then None
      else
        NoCharAfterTrim(trimmed[..eq], '=');
        Some((Trim(trimmed[..eq]), Trim(trimmed[eq + 1..])))
  }

  /** Trimming only removes characters. */
  lemma NoCharAfterTrim(s: string, c: char)
    requires c !in s
    ensures c !in Trim(s)
  {
    var a := LeadingSpaces(s);
    var t := s[a..];
    assert Trim(s) == t[..|t| - TrailingSpaces(t)];
    forall i | 0 <= i < |Trim(s)| ensures Trim(s)[i] != c {
      assert Trim(s)[i] == s[a + i];
    }
  }

  /** A well-formed `KEY=value` line yields exactly that key and value. */
  lemma EnvLineRoundTrip(key: string, value: string)
    requires key != [] && IsTrimmed(key) && '=' !in key && key[0] != '#'
    requires IsTrimmed(value)
    ensures ParseEnvLine(key + "=" + value) == Some((key, value))
  {
    var line := key + "=" + value;
    assert line[0] == key[0];
    assert IsTrimmed(line) by {
      if value == [] { assert line[|line| - 1] == '='; }
      else { assert line[|line| - 1] == value[|value| - 1]; }
    }
    assert Trim(line) == line;
    assert IndexOf(line, '=') == |key| by {
      assert line[..|key|] == key;
      assert line[|key|] == '=';
    }
    assert line[..|key|] == key && line[|key| + 1..] == value;
  }

  /** The environment after one line: a non-empty key is added only if it is not already present. */
  function ApplyEntry(env: Env, entry: Option<(string, string)>): Env {
    match entry
    case None => env
    case Some((key, value)) => if key != "" && key !in env then env[key := value] else env
  }

  /** The environment after the loader has processed `lines` in order. */
  function ApplyLines(env: Env, lines: seq<string>): Env
    decreases |lines|
  {
    if lines == [] then env else ApplyLines(ApplyEntry(env, ParseEnvLine(lines[0])), lines[1..])
  }

  /** The loader's `forEach` over the lines of the `.env` text `raw`. */
  method LoadDotEnv(raw: string, env: Env) returns (result: Env)
    ensures result == ApplyLines(env, Split(raw, '\n'))
  {
    var lines := Split(raw, '\n');
    result := env;
    var i := 0;
    while i < |lines|
      invariant 0 <= i <= |lines|
      invariant ApplyLines(result, lines[i..]) == ApplyLines(env, lines)
    {
      ApplyLinesStep(result, lines, i);
      result := ApplyEntry(result, ParseEnvLine(lines[i]));
      i := i + 1;
    }
  }

  /** Applying the lines from position i on is applying line i, then the lines after it. */
  lemma ApplyLinesStep(env: Env, lines: seq<string>, i: nat)
    requires i < |lines|
    ensures ApplyLines(env, lines[i..]) == ApplyLines(ApplyEntry(env, ParseEnvLine(lines[i])), lines[i + 1..])
  {
    assert lines[i..][0] == lines[i];
    assert lines[i..][1..] == lines[i + 1..];
  }

  /** Variables already present keep their values. */
  lemma {:induction false} LoaderNeverOverwrites(env: Env, lines: seq<string>)
    ensures forall k :: k in env ==> k in ApplyLines(env, lines) && ApplyLines(env, lines)[k] == env[k]
    decreases |lines|
  {
    if lines != [] {
      LoaderNeverOverwrites(ApplyEntry(env, ParseEnvLine(lines[0])), lines[1..]);
    }
  }

  /** Every variable the loader adds comes, with its value, from a line with a non-empty key. */
  lemma {:induction false} LoaderProvenance(env: Env, lines: seq<string>)
    ensures forall k :: k in ApplyLines(env, lines) && k !in env ==>
      k != "" && exists i :: 0 <= i < |lines| && ParseEnvLine(lines[i]) == Some((k, ApplyLines(env, lines)[k]))
    decreases |lines|
  {
    if lines != [] {
      var next := ApplyEntry(env, ParseEnvLine(lines[0]));
      LoaderProvenance(next, lines[1..]);
      LoaderNeverOverwrites(next, lines[1..]);
      var result := ApplyLines(env, lines);
      forall k | k in result && k !in env
        ensures k != "" && exists i :: 0 <= i < |lines| && ParseEnvLine(lines[i]) == Some((k, result[k]))
      {
        if k in next {
          assert ParseEnvLine(lines[0]) == Some((k, result[k]));
        } else {
          var i :| 0 <= i < |lines[1..]| && ParseEnvLine(lines[1..][i]) == Some((k, result[k]));
          assert lines[1..][i] == lines[i + 1];
        }
      }
    }
  }

  /** `.map((origin) => origin.trim())`. */
  function TrimAll(parts: seq<string>): (r: seq<string>)
    ensures |r| == |parts| && forall i :: 0 <= i < |parts| ==> r[i] == Trim(parts[i])
  {
    seq(|parts|, i requires 0 <= i < |parts| => Trim(parts[i]))
  }

  /** `parseOrigins(value)`: ["*"] when unset or empty, else the trimmed non-empty comma-separated entries. */
  function ParseOrigins(value: Option<string>): (origins: seq<string>)
    ensures value.None? || value == Some("") ==> origins == ["*"]
    ensures value.Some? && value.value != "" ==>
      && (forall i :: 0 <= i < |origins| ==> origins[i] != "" && IsTrimmed(origins[i]) && ',' !in origins[i])
      && (forall p :: p in Split(value.value, ',') && Trim(p) != "" ==> Trim(p) in origins)
      && origins == Seqs.Filter(TrimAll(Split(value.value, ',')), (s: string) => s != "")
  {
    if value.None? || value.value == "" then ["*"]
    else
      var parts := Split(value.value, ',');
      SplitPiecesLackSeparator(value.value, ',');
      var trimmed := TrimAll(parts);
      forall i | 0 <= i < |parts| ensures ',' !in trimmed[i] {
        NoCharAfterTrim(parts[i], ',');
      }
      var origins := Seqs.Filter(trimmed, (s: string) => s != "");
      assert forall p :: p in parts ==> Trim(p) in trimmed by {
        forall p | p in parts ensures Trim(p) in trimmed {
          var i :| 0 <= i < |parts| && parts[i] == p;
          assert trimmed[i] == Trim(p);
        }
      }
      origins
  }

  /** The settings read from the environment; None stands for NaN. */
  datatype AppConfig = AppConfig(
    port: Option<int>,
    platformFeePercent: Option<int>,
    accessTokenTtlMinutes: Option<int>,
    refreshTokenTtlDays: Option<int>,
    sessionMaxLifeDays: Option<int>,
    otpTtlMinutes: Option<int>,
    otpLength: Option<int>,
    tokenByteLength: Option<int>,
    defaultCountry: string,
    allowedOrigins: seq<string>)

  /** `Number(env[key] || fallback)`. */
  function NumberSetting(env: Env, key: string, fallback: nat): (r: Option<int>)
    ensures key !in env || env[key] == "" ==> r == Some(fallback)
    ensures key in env && env[key] != "" ==> r == JsNumber(env[key])
  {
    if key in env && env[key] != "" then JsNumber(env[key]) else Some(fallback)
  }

  /** `env[key] || fallback` for a text setting. */
  function TextSetting(env: Env, key: string, fallback: string): string {
    if key in env && env[key] != "" then env[key] else fallback
  }

  function OptionalVar(env: Env, key: string): Option<string> {
    if key in env then Some(env[key]) else None
  }

  /** `appConfig` as built from the environment (mail, store and image-host settings are not modelled). */
  function LoadAppConfig(env: Env): (c: AppConfig)
    ensures "PORT" !in env ==> c.port == Some(4000)
    ensures "PLATFORM_FEE_PERCENT" !in env ==> c.platformFeePercent == Some(2)
    ensures "ACCESS_TOKEN_TTL_MINUTES" !in env ==> c.accessTokenTtlMinutes == Some(15)
    ensures "REFRESH_TOKEN_TTL_DAYS" !in env ==> c.refreshTokenTtlDays == Some(30)
    ensures "SESSION_MAX_LIFE_DAYS" !in env ==> c.sessionMaxLifeDays == Some(60)
    ensures "OTP_TTL_MINUTES" !in env ==> c.otpTtlMinutes == Some(10)
    ensures "OTP_LENGTH" !in env ==> c.otpLength == Some(6)
    ensures "TOKEN_BYTE_LENGTH" !in env ==> c.tokenByteLength == Some(48)
    ensures c.defaultCountry == if "DEFAULT_COUNTRY" in env && env["DEFAULT_COUNTRY"] != "" then env["DEFAULT_COUNTRY"] else "Nigeria"
    ensures "CORS_ORIGINS" !in env ==> c.allowedOrigins == ["*"]
    ensures "OTP_LENGTH" in env && env["OTP_LENGTH"] != "" ==> c.otpLength == JsNumber(env["OTP_LENGTH"])
    ensures "PORT" in env && env["PORT"] != "" ==> c.port == JsNumber(env["PORT"])
  {
    AppConfig(
      NumberSetting(env, "PORT", 4000),
      NumberSetting(env, "PLATFORM_FEE_PERCENT", 2),
      NumberSetting(env, "ACCESS_TOKEN_TTL_MINUTES", 15),
      NumberSetting(env, "REFRESH_TOKEN_TTL_DAYS", 30),
      NumberSetting(env, "SESSION_MAX_LIFE_DAYS", 60),
      NumberSetting(env, "OTP_TTL_MINUTES", 10),
      NumberSetting(env, "OTP_LENGTH", 6),
      NumberSetting(env, "TOKEN_BYTE_LENGTH", 48),
      TextSetting(env, "DEFAULT_COUNTRY", "Nigeria"),
      ParseOrigins(OptionalVar(env, "CORS_ORIGINS")))
  }

  /** The values the identity and session services are configured with. */
  datatype Settings = Settings(
    accessTokenTtlMinutes: int,
    refreshTokenTtlDays: int,
    sessionMaxLifeDays: int,
    otpTtlMinutes: int,
    otpLength: nat,
    defaultCountry: string)

  /** The service settings of a configuration whose numeric values all parsed. */
  function SettingsOf(c: AppConfig): (s: Option<Settings>)
    ensures s.Some? <==>
      (c.accessTokenTtlMinutes.Some? && c.refreshTokenTtlDays.Some?
      && c.sessionMaxLifeDays.Some? && c.otpTtlMinutes.Some? && c.otpLength.Some?)
  {
    if c.accessTokenTtlMinutes.Some? && c.refreshTokenTtlDays.Some? && c.sessionMaxLifeDays.Some?
      && c.otpTtlMinutes.Some? && c.otpLength.Some?
    then
      Some(Settings(c.accessTokenTtlMinutes.value, c.refreshTokenTtlDays.value, c.sessionMaxLifeDays.value,
        c.otpTtlMinutes.value, if c.otpLength.value < 0 then 0 else c.otpLength.value, c.defaultCountry))
    else None
  }

  /**
   * With none of the variables set, the defaults apply: access tokens live 15
   * minutes, refresh tokens 30 days, sessions 60 days, OTPs 10 minutes with
   * 6 digits, the fee is 2 percent and every origin is allowed.
   */
  lemma DefaultConfig()
    ensures LoadAppConfig(map[]) == AppConfig(Some(4000), Some(2), Some(15), Some(30), Some(60), Some(10),
      Some(6), Some(48), "Nigeria", ["*"])
    ensures SettingsOf(LoadAppConfig(map[])) == Some(Settings(15, 30, 60, 10, 6, "Nigeria"))
  {
  }

  /** The store connection string: `MONGO_URI`, else `DB_URI`. */
  function MongoUri(env: Env): string {
    TextSetting(env, "MONGO_URI", TextSetting(env, "DB_URI", ""))
  }

  /** `validateConfig`: the message of the first missing setting, or None when startup may go on. */
  function ValidateConfig(env: Env): (error: Option<string>)
    ensures error.None? <==>
      (MongoUri(env) != "" && TextSetting(env, "MAIL_HOST", "") != ""
      && TextSetting(env, "MAIL_USER", "") != "" && TextSetting(env, "MAIL_PASSWORD", "") != "")
    ensures MongoUri(env) == "" ==> error == Some("Missing MongoDB connection string. Set MONGO_URI.")
  {
    if MongoUri(env) == "" then Some("Missing MongoDB connection string. Set MONGO_URI.")
    else if TextSetting(env, "MAIL_HOST", "") == "" || TextSetting(env, "MAIL_USER", "") == ""
      || TextSetting(env, "MAIL_PASSWORD", "") == ""
    then Some("Missing mail configuration. Set MAIL_HOST, MAIL_USER and MAIL_PASSWORD.")
    // The sender defaults to MAIL_USER, which is non-empty here, so the third check never fails.
    else if TextSetting(env, "MAIL_FROM", TextSetting(env, "MAIL_USER", "")) == ""
    then Some("Missing outbound email sender. Set MAIL_FROM or MAIL_USER.")
    else None
  }
}
