/** `BotConfig` in migrate_database.py: loading from the environment and
    validation. Python's `int()` is modelled on an optional sign followed by
    ASCII digits. */
module BotSettings {
  import opened Wrappers
  import opened Text
  import opened Config
  import opened Seqs

  datatype BotConfig = BotConfig(
    discordToken: string,
    commandPrefix: string,
    mapsApiKey: Option<string>,
    weatherApiKey: Option<string>,
    databaseUrl: string,
    databasePoolSize: int,
    redisUrl: Option<string>,
    cacheTtl: int,
    rateLimitPerMinute: int,
    rateLimitStorage: string,
    logLevel: string,
    logFileSize: string,
    logBackupCount: int,
    host: string,
    port: int,
    debug: bool,
    enableWeather: bool,
    enableAnalytics: bool,
    enableFavorites: bool,
    enableGroupSharing: bool)

  // --------------------------------------------------------------- int()

  function DigitValue(c: char): (d: nat)
    requires IsDigit(c)
    ensures d <= 9
  {
    (c as int - '0' as int) as nat
  }

  predicate AllDigits(s: string) {
    forall i :: 0 <= i < |s| ==> IsDigit(s[i])
  }

  /** The decimal value of a digit string. */
  function DigitsValue(s: string): nat
    requires AllDigits(s)
    decreases |s|
  {
    if s == [] then 0 else DigitsValue(s[..|s| - 1]) * 10 + DigitValue(s[|s| - 1])
  }

  /** `int(s)` for an optional '+' or '-' and at least one digit; None where Python raises ValueError. */
  function ParseInt(s: string): (r: Option<int>)
    ensures r.Some? <==> (|s| > 0 && AllDigits(s)) || (|s| > 1 && (s[0] == '-' || s[0] == '+') && AllDigits(s[1..]))
  {
    if |s| > 0 && AllDigits(s) then Some(DigitsValue(s))
    else if |s| > 1 && s[0] == '-' && AllDigits(s[1..]) then Some(-(DigitsValue(s[1..]) as int))
    else if |s| > 1 && s[0] == '+' && AllDigits(s[1..]) then Some(DigitsValue(s[1..]))
    else None
  }

  function DigitChar(d: nat): (c: char)
    requires d <= 9
    ensures IsDigit(c) && DigitValue(c) == d
  {
    ('0' as int + d) as char
  }

  /** `str(n)` for a natural number. */
  function NatToString(n: nat): (s: string)
    ensures |s| > 0 && AllDigits(s)
    decreases n
  {
    if n < 10 then [DigitChar(n)] else NatToString(n / 10) + [DigitChar(n % 10)]
  }

  function IntToString(n: int): (s: string) {
    if n < 0 then "-" + NatToString(-n) else NatToString(n)
  }

  lemma {:induction false} NatToStringValue(n: nat)
    ensures DigitsValue(NatToString(n)) == n
    decreases n
  {
    if n >= 10 {
      NatToStringValue(n / 10);
      var s := NatToString(n);
      assert s[..|s| - 1] == NatToString(n / 10);
    }
  }

  /** `int(str(n)) == n`. */
  lemma ParseIntRoundTrip(n: int)
    ensures ParseInt(IntToString(n)) == Some(n)
  {
    if n < 0 {
      NatToStringValue(-n);
      assert IntToString(n)[1..] == NatToString(-n);
    } else {
      NatToStringValue(n);
    }
  }

  // ------------------------------------------------------------ from_env

  /** `os.getenv(name, 'true').lower() == 'true'`. */
  function Flag(env: Env, name: string): (b: bool)
    ensures name !in env ==> b
    ensures name in env ==> (b <==> Lower(env[name]) == "true")
  {
    Lower(GetenvOr(env, name, "true")) == "true"
  }

  /** An integer setting: the variable's value or the default text, through `int()`. */
  function IntSetting(env: Env, name: string, default: string): (r: Option<int>) {
    ParseInt(GetenvOr(env, name, default))
  }

  /** `BotConfig.from_env`; a failure names the first integer setting (in
      argument order) whose text `int()` rejects. */
  function FromEnv(env: Env): (r: Result<BotConfig, string>)
    ensures r.Success? <==> IntSetting(env, "DATABASE_POOL_SIZE", "10").Some?
                            && IntSetting(env, "CACHE_TTL", "1800").Some?
                            && IntSetting(env, "RATE_LIMIT_PER_MINUTE", "20").Some?
                            && IntSetting(env, "LOG_BACKUP_COUNT", "10").Some?
                            && IntSetting(env, "PORT", "5000").Some?
    ensures r.Success? ==> r.value.discordToken == GetenvOr(env, "DISCORD_TOKEN", "")
                           && r.value.mapsApiKey == Getenv(env, "GOOGLE_MAPS_API_KEY")
                           && r.value.weatherApiKey == Getenv(env, "OPENWEATHER_API_KEY")
                           && r.value.databasePoolSize == IntSetting(env, "DATABASE_POOL_SIZE", "10").value
                           && r.value.rateLimitPerMinute == IntSetting(env, "RATE_LIMIT_PER_MINUTE", "20").value
                           && r.value.debug == (Getenv(env, "FLASK_ENV") == Some("development"))
                           && r.value.commandPrefix == "!"
    ensures r.Success? ==> r.value.databaseUrl == GetenvOr(env, "DATABASE_URL", "sqlite:///enhanced_location_bot.db")
                           && r.value.redisUrl == Getenv(env, "REDIS_URL")
                           && r.value.cacheTtl == IntSetting(env, "CACHE_TTL", "1800").value
                           && r.value.rateLimitStorage == GetenvOr(env, "RATE_LIMIT_STORAGE", "memory://")
                           && r.value.logLevel == GetenvOr(env, "LOG_LEVEL", "INFO")
                           && r.value.logFileSize == GetenvOr(env, "LOG_FILE_SIZE", "50MB")
                           && r.value.logBackupCount == IntSetting(env, "LOG_BACKUP_COUNT", "10").value
                           && r.value.host == GetenvOr(env, "HOST", "0.0.0.0")
                           && r.value.port == IntSetting(env, "PORT", "5000").value
    // Each feature flag reads its own variable.
    ensures r.Success? ==> r.value.enableWeather == Flag(env, "ENABLE_WEATHER")
                           && r.value.enableAnalytics == Flag(env, "ENABLE_ANALYTICS")
                           && r.value.enableFavorites == Flag(env, "ENABLE_FAVORITES")
                           && r.value.enableGroupSharing == Flag(env, "ENABLE_GROUP_SHARING")
    // A failure names the first rejected setting, in argument order.
    ensures r.Failure? && IntSetting(env, "DATABASE_POOL_SIZE", "10").None? ==> r.error == "DATABASE_POOL_SIZE"
    ensures (r.Failure? && IntSetting(env, "DATABASE_POOL_SIZE", "10").Some?
             && IntSetting(env, "CACHE_TTL", "1800").None?) ==> r.error == "CACHE_TTL"
    ensures (r.Failure? && IntSetting(env, "DATABASE_POOL_SIZE", "10").Some?
             && IntSetting(env, "CACHE_TTL", "1800").Some?
             && IntSetting(env, "RATE_LIMIT_PER_MINUTE", "20").None?) ==> r.error == "RATE_LIMIT_PER_MINUTE"
    ensures (r.Failure? && IntSetting(env, "DATABASE_POOL_SIZE", "10").Some?
             && IntSetting(env, "CACHE_TTL", "1800").Some?
             && IntSetting(env, "RATE_LIMIT_PER_MINUTE", "20").Some?
             && IntSetting(env, "LOG_BACKUP_COUNT", "10").None?) ==> r.error == "LOG_BACKUP_COUNT"
    ensures (r.Failure? && IntSetting(env, "DATABASE_POOL_SIZE", "10").Some?
             && IntSetting(env, "CACHE_TTL", "1800").Some?
             && IntSetting(env, "RATE_LIMIT_PER_MINUTE", "20").Some?
             && IntSetting(env, "LOG_BACKUP_COUNT", "10").Some?) ==> r.error == "PORT"
  {
    var pool := IntSetting(env, "DATABASE_POOL_SIZE", "10");
    var ttl := IntSetting(env, "CACHE_TTL", "1800");
    var rate := IntSetting(env, "RATE_LIMIT_PER_MINUTE", "20");
    var backups := IntSetting(env, "LOG_BACKUP_COUNT", "10");
    var port := IntSetting(env, "PORT", "5000");
    if pool.None? then Failure("DATABASE_POOL_SIZE")
    else if ttl.None? then Failure("CACHE_TTL")
    else if rate.None? then Failure("RATE_LIMIT_PER_MINUTE")
    else if backups.None? then Failure("LOG_BACKUP_COUNT")
    else if port.None? then Failure("PORT")
    else Success(BotConfig(
      GetenvOr(env, "DISCORD_TOKEN", ""),
      "!",
      Getenv(env, "GOOGLE_MAPS_API_KEY"),
      Getenv(env, "OPENWEATHER_API_KEY"),
      GetenvOr(env, "DATABASE_URL", "sqlite:///enhanced_location_bot.db"),
      pool.value,
      Getenv(env, "REDIS_URL"),
      ttl.value,
      rate.value,
      GetenvOr(env, "RATE_LIMIT_STORAGE", "memory://"),
      GetenvOr(env, "LOG_LEVEL", "INFO"),
      GetenvOr(env, "LOG_FILE_SIZE", "50MB"),
      backups.value,
      GetenvOr(env, "HOST", "0.0.0.0"),
      port.value,
      Getenv(env, "FLASK_ENV") == Some("development"),
      Flag(env, "ENABLE_WEATHER"),
      Flag(env, "ENABLE_ANALYTICS"),
      Flag(env, "ENABLE_FAVORITES"),
      Flag(env, "ENABLE_GROUP_SHARING")))
  }

  /** With nothing set, every field takes its documented default. */
  lemma EmptyEnvironmentDefaults()
    ensures FromEnv(map[]) == Success(BotConfig("", "!", None, None, "sqlite:///enhanced_location_bot.db",
                                                10, None, 1800, 20, "memory://", "INFO", "50MB", 10,
                                                "0.0.0.0", 5000, false, true, true, true, true))
  {
    DefaultNumbersParse();
  }

  /** The numeric defaults are well-formed integers. */
  lemma DefaultNumbersParse()
    ensures ParseInt("10") == Some(10) && ParseInt("20") == Some(20)
    ensures ParseInt("1800") == Some(1800) && ParseInt("5000") == Some(5000)
  {
    assert ParseInt("10") == Some(10) by { assert DigitsValue("1") == 1; }
    assert ParseInt("20") == Some(20) by { assert DigitsValue("2") == 2; }
    assert ParseInt("1800") == Some(1800) by {
      assert "1800"[..3] == "180" && "180"[..2] == "18" && "18"[..1] == "1";
    }
    assert ParseInt("5000") == Some(5000) by {
      assert "5000"[..3] == "500" && "500"[..2] == "50" && "50"[..1] == "5";
    }
  }

  /** A flag spelled in any letter case reads as enabled; other text, even "1" or "yes", does not. */
  lemma FlagSpellings()
    ensures Flag(map["ENABLE_WEATHER" := "TRUE"], "ENABLE_WEATHER")
    ensures !Flag(map["ENABLE_WEATHER" := "1"], "ENABLE_WEATHER")
    ensures !Flag(map["ENABLE_WEATHER" := "yes"], "ENABLE_WEATHER")
  {
    assert Lower("TRUE") == "true";
  }

  // ------------------------------------------------------------ validate

  const TokenError := "DISCORD_TOKEN is required"
  const MapsError := "GOOGLE_MAPS_API_KEY is required for store search functionality"
  const WeatherError := "OPENWEATHER_API_KEY is required when weather is enabled"
  const PoolError := "DATABASE_POOL_SIZE must be at least 1"
  const RateError := "RATE_LIMIT_PER_MINUTE must be at least 1"

  /** The five messages in the order the checks run. */
  function ErrorOrder(): seq<string> {
    [TokenError, MapsError, WeatherError, PoolError, RateError]
  }

  /** The messages differ (their lengths do). */
  lemma ErrorsDistinct()
    ensures Distinct(ErrorOrder())
  {
    assert |TokenError| == 25 && |MapsError| == 62 && |WeatherError| == 55;
    assert |PoolError| == 37 && |RateError| == 40;
  }

  predicate Acceptable(c: BotConfig) {
    c.discordToken != "" && Truthy(c.mapsApiKey) && (!c.enableWeather || Truthy(c.weatherApiKey))
    && c.databasePoolSize >= 1 && c.rateLimitPerMinute >= 1
  }

  /** Which of the five checks fail on `c`, in check order. */
  function Checks(c: BotConfig): (r: seq<bool>)
    ensures |r| == |ErrorOrder()|
    ensures (forall i :: 0 <= i < |r| ==> !r[i]) <==> Acceptable(c)
  {
    var r := [c.discordToken == "", !Truthy(c.mapsApiKey), c.enableWeather && !Truthy(c.weatherApiKey),
              c.databasePoolSize < 1, c.rateLimitPerMinute < 1];
    assert !r[0] && !r[1] && !r[2] && !r[3] && !r[4] ==> forall i :: 0 <= i < |r| ==> !r[i];
    r
  }

  /** The message of a check that failed, nothing for one that passed. */
  function Report<T>(failed: bool, message: T): (r: seq<T>)
    ensures message in r <==> failed
    ensures |r| <= 1
  {
    if failed then [message] else []
  }

  /** Five checks run in turn, each adding its message when it fails, select
      the messages of the failed checks in order. */
  lemma SelectedFive<T>(fs: seq<bool>, xs: seq<T>)
    requires |fs| == |xs| == 5
    ensures Selected(fs, xs)
            == Report(fs[0], xs[0]) + Report(fs[1], xs[1]) + Report(fs[2], xs[2]) + Report(fs[3], xs[3])
               + Report(fs[4], xs[4])
  {
    assert SelectedUpTo(fs, xs, 1) == Report(fs[0], xs[0]);
    assert SelectedUpTo(fs, xs, 2) == Report(fs[0], xs[0]) + Report(fs[1], xs[1]);
    assert SelectedUpTo(fs, xs, 3) == Report(fs[0], xs[0]) + Report(fs[1], xs[1]) + Report(fs[2], xs[2]);
    assert SelectedUpTo(fs, xs, 4)
           == Report(fs[0], xs[0]) + Report(fs[1], xs[1]) + Report(fs[2], xs[2]) + Report(fs[3], xs[3]);
  }

  /** Of distinct messages, each is reported exactly when its check fails, and
      none is reported twice. */
  lemma SelectionFacts<T>(failed: seq<bool>, order: seq<T>)
    requires |failed| == |order| && Distinct(order)
    ensures forall i :: 0 <= i < |order| ==> (order[i] in Selected(failed, order) <==> failed[i])
    ensures Selected(failed, order) == [] <==> forall i :: 0 <= i < |order| ==> !failed[i]
    ensures Subsequence(Selected(failed, order), order) && Distinct(Selected(failed, order))
  {
    var errors := Selected(failed, order);
    SelectedSubsequence(failed, order);
    SubsequenceFacts(errors, order);
    forall i | 0 <= i < |order| ensures order[i] in errors <==> failed[i] {
      SelectedExactly(failed, order, i);
    }
    if errors != [] {
      assert errors[0] in order;
    }
  }

  /** Five checks run in turn over distinct messages report exactly the
      messages of the failed checks, in check order, each once. */
  lemma FiveReports<T>(failed: seq<bool>, order: seq<T>, errors: seq<T>)
    requires |failed| == |order| == 5 && Distinct(order)
    requires errors == Report(failed[0], order[0]) + Report(failed[1], order[1]) + Report(failed[2], order[2])
                       + Report(failed[3], order[3]) + Report(failed[4], order[4])
    ensures errors == Selected(failed, order)
    ensures forall i :: 0 <= i < 5 ==> (order[i] in errors <==> failed[i])
    ensures errors == [] <==> forall i :: 0 <= i < 5 ==> !failed[i]
    ensures Subsequence(errors, order) && Distinct(errors) && |errors| <= 5
  {
    SelectedFive(failed, order);
    SelectionFacts(failed, order);
  }

  /** What the run of five checks in `validate` reports about `c`. */
  lemma ValidationReport(c: BotConfig, errors: seq<string>)
    requires errors == Report(c.discordToken == "", TokenError) + Report(!Truthy(c.mapsApiKey), MapsError)
                       + Report(c.enableWeather && !Truthy(c.weatherApiKey), WeatherError)
                       + Report(c.databasePoolSize < 1, PoolError) + Report(c.rateLimitPerMinute < 1, RateError)
    ensures errors == Selected(Checks(c), ErrorOrder())
    ensures errors == [] <==> Acceptable(c)
    ensures TokenError in errors <==> c.discordToken == ""
    ensures MapsError in errors <==> !Truthy(c.mapsApiKey)
    ensures WeatherError in errors <==> c.enableWeather && !Truthy(c.weatherApiKey)
    ensures PoolError in errors <==> c.databasePoolSize < 1
    ensures RateError in errors <==> c.rateLimitPerMinute < 1
    ensures Subsequence(errors, ErrorOrder()) && Distinct(errors) && |errors| <= 5
  {
    ErrorsDistinct();
    FiveReports(Checks(c), ErrorOrder(), errors);
  }

  /** `validate`: one message per failed check, in check order. */
  method Validate(c: BotConfig) returns (errors: seq<string>)
    ensures errors == Selected(Checks(c), ErrorOrder())
    ensures errors == [] <==> Acceptable(c)
    ensures TokenError in errors <==> c.discordToken == ""
    ensures MapsError in errors <==> !Truthy(c.mapsApiKey)
    ensures WeatherError in errors <==> c.enableWeather && !Truthy(c.weatherApiKey)
    ensures PoolError in errors <==> c.databasePoolSize < 1
    ensures RateError in errors <==> c.rateLimitPerMinute < 1
    ensures Subsequence(errors, ErrorOrder()) && Distinct(errors) && |errors| <= 5
  {
    errors := [];
    // After each check, `errors` holds the reports of the checks so far.
    if c.discordToken == "" {
      errors := errors + [TokenError];
    }
    ghost var done := errors;
    assert done == Report(c.discordToken == "", TokenError);
    if !Truthy(c.mapsApiKey) {
      errors := errors + [MapsError];
    }
    assert errors == done + Report(!Truthy(c.mapsApiKey), MapsError);
    done := errors;
    if c.enableWeather && !Truthy(c.weatherApiKey) {
      errors := errors + [WeatherError];
    }
    assert errors == done + Report(c.enableWeather && !Truthy(c.weatherApiKey), WeatherError);
    done := errors;
    if c.databasePoolSize < 1 {
      errors := errors + [PoolError];
    }
    assert errors == done + Report(c.databasePoolSize < 1, PoolError);
    done := errors;
    if c.rateLimitPerMinute < 1 {
      errors := errors + [RateError];
    }
    assert errors == done + Report(c.rateLimitPerMinute < 1, RateError);
    ValidationReport(c, errors);
  }
}
