/**
 * Configuration loading of the speed-test exporter: command-line flags with
 * environment-variable fallbacks, two cache settings parsed from the
 * environment, and the ordered check of the six required strings.
 *
 * The Go program keeps every flag in a package-level pointer variable and
 * reassigns those pointers while resolving; `FlagVariables` below holds the
 * values behind them and `FlagVariables.ParseOptions` performs the same steps.
 * The pure functions above it are the specification it is proved against.
 */
module Options {
  import opened Wrappers

  /** A Go `time.Duration`: a number of nanoseconds. */
  type Duration = int

  const Second: Duration := 1_000_000_000
  const OneMinute: Duration := 60 * Second
  const EightHours: Duration := 8 * 3600 * Second

  /** Default of the `cache-size` flag. */
  const DefaultCacheSize: int := 256

  /** The environment as read once at start-up; an unset variable reads as "". */
  datatype Env = Env(
    clientName: string,
    clientVersion: string,
    defaultTimeout: string,
    cacheSize: string,
    cacheEviction: string,
    influxDbUrl: string,
    influxDbToken: string,
    influxDbOrg: string,
    influxDbBucket: string)

  /** The values of the nine setting variables (flags, then their fallbacks). */
  datatype Settings = Settings(
    clientName: string,
    clientVersion: string,
    defaultTimeout: Duration,
    cacheSize: int,
    cacheEviction: Duration,
    influxDbUrl: string,
    influxDbToken: string,
    influxDbOrg: string,
    influxDbBucket: string)

  /** What every setting holds when no flag is given on the command line. */
  const FlagDefaults := Settings("", "", OneMinute, DefaultCacheSize, EightHours, "", "", "", "")

  /**
   * The two library parsers the loader calls: base-10 32-bit integer parsing
   * and Go duration parsing. Each yields a value or the library's error text.
   */
  datatype Parsers = Parsers(
    parseInt32: string -> Result<int, string>,
    parseDuration: string -> Result<Duration, string>)

  datatype RequiredField =
    ClientName | ClientVersion | InfluxDbUrl | InfluxDbToken | InfluxDbOrg | InfluxDbBucket

  /**
   * Why loading failed: a required field is empty, or a cache setting taken
   * from the environment did not parse (the parser's error is returned as is).
   */
  datatype ConfigError =
    | Missing(field: RequiredField)
    | BadCacheSize(cause: string)
    | BadCacheEviction(cause: string)

  /** The text of the error the loader returns. */
  function Message(e: ConfigError): string {
    match e
    case Missing(ClientName) => "client name is required"
    case Missing(ClientVersion) => "client version is required"
    case Missing(InfluxDbUrl) => "InfluxDb Url must be present"
    case Missing(InfluxDbToken) => "InfluxDb Token must be present"
    case Missing(InfluxDbOrg) => "InfluxDb Organitazion must be present"
    case Missing(InfluxDbBucket) => "InfluxDb Bucket must be present"
    case BadCacheSize(cause) => cause
    case BadCacheEviction(cause) => cause
  }

  datatype SpeedTestConfiguration =
    SpeedTestConfiguration(clientName: string, clientVersion: string, defaultTimeout: Duration)
  datatype CacheConfiguration = CacheConfiguration(size: int, eviction: Duration)
  datatype InfluxDbConfigurations =
    InfluxDbConfigurations(url: string, token: string, org: string, bucket: string)
  datatype Options = Options(
    autocomplete: bool,
    speedTest: SpeedTestConfiguration,
    cache: CacheConfiguration,
    influxDb: InfluxDbConfigurations)

  /**
   * The three ways loading ends: completion mode (no options and no error),
   * an error, or the options.
   */
  datatype Outcome = Completion | Failed(error: ConfigError) | Parsed(options: Options)

  /** A string setting: the flag value when it is non-empty, else the environment value. */
  function Fallback(flag: string, env: string): (r: string)
    ensures flag != "" ==> r == flag
    ensures flag == "" ==> r == env
    ensures r == "" <==> flag == "" && env == ""
  {
    if flag == "" && env != "" then env else flag
  }

  /**
   * Client name and version. A DEFAULT_TIMEOUT value, taken when the timeout
   * flag still holds its default, lands in the client version and leaves the
   * timeout alone.
   */
  function ResolveIdentity(s: Settings, env: Env): (r: Settings)
    ensures r.clientName == Fallback(s.clientName, env.clientName)
    ensures r.(clientName := s.clientName, clientVersion := s.clientVersion) == s
  {
    var version := Fallback(s.clientVersion, env.clientVersion);
    s.(clientName := Fallback(s.clientName, env.clientName),
       clientVersion := if s.defaultTimeout == OneMinute && env.defaultTimeout != ""
                        then env.defaultTimeout else version)
  }

  /** The cache size, read from CACHE_SIZE only while the flag holds its default. */
  function ResolveCacheSize(s: Settings, env: Env, p: Parsers): (r: Result<Settings, ConfigError>)
    ensures r.Err? <==>
      s.cacheSize == DefaultCacheSize && env.cacheSize != "" && p.parseInt32(env.cacheSize).Err?
    ensures r.Err? ==> r.error == BadCacheSize(p.parseInt32(env.cacheSize).error)
    ensures r.Ok? ==> r.value.(cacheSize := s.cacheSize) == s
  {
    if s.cacheSize == DefaultCacheSize && env.cacheSize != "" then
      match p.parseInt32(env.cacheSize)
      case Err(cause) => Err(BadCacheSize(cause))
      case Ok(n) => Ok(s.(cacheSize := n))
    else
      Ok(s)
  }

  /** The cache eviction, read from CACHE_EVICTION only while the flag holds its default. */
  function ResolveCacheEviction(s: Settings, env: Env, p: Parsers): (r: Result<Settings, ConfigError>)
    ensures r.Err? <==>
      s.cacheEviction == EightHours && env.cacheEviction != "" && p.parseDuration(env.cacheEviction).Err?
    ensures r.Err? ==> r.error == BadCacheEviction(p.parseDuration(env.cacheEviction).error)
    ensures r.Ok? ==> r.value.(cacheEviction := s.cacheEviction) == s
  {
    if s.cacheEviction == EightHours && env.cacheEviction != "" then
      match p.parseDuration(env.cacheEviction)
      case Err(cause) => Err(BadCacheEviction(cause))
      case Ok(d) => Ok(s.(cacheEviction := d))
    else
      Ok(s)
  }

  /** The four database settings. */
  function ResolveInfluxDb(s: Settings, env: Env): (r: Settings)
    ensures r.(influxDbUrl := s.influxDbUrl, influxDbToken := s.influxDbToken,
               influxDbOrg := s.influxDbOrg, influxDbBucket := s.influxDbBucket) == s
    ensures s.influxDbUrl != "" ==> r.influxDbUrl == s.influxDbUrl
    ensures s.influxDbToken != "" ==> r.influxDbToken == s.influxDbToken
    ensures s.influxDbOrg != "" ==> r.influxDbOrg == s.influxDbOrg
    ensures s.influxDbBucket != "" ==> r.influxDbBucket == s.influxDbBucket
  {
    s.(influxDbUrl := Fallback(s.influxDbUrl, env.influxDbUrl),
       influxDbToken := Fallback(s.influxDbToken, env.influxDbToken),
       influxDbOrg := Fallback(s.influxDbOrg, env.influxDbOrg),
       influxDbBucket := Fallback(s.influxDbBucket, env.influxDbBucket))
  }

  /** The settings reached by the fallback steps, and the error that stopped them, if any. */
  datatype Resolution = Resolution(reached: Settings, failure: Option<ConfigError>)

  /** The fallback steps in program order; a parse error stops them where it happens. */
  function Resolve(flags: Settings, env: Env, p: Parsers): (r: Resolution)
    ensures r.reached.defaultTimeout == flags.defaultTimeout
    ensures r.failure.Some? ==> !r.failure.value.Missing?
  {
    var identity := ResolveIdentity(flags, env);
    match ResolveCacheSize(identity, env, p)
    case Err(e) => Resolution(identity, Some(e))
    case Ok(sized) =>
      match ResolveCacheEviction(sized, env, p)
      case Err(e) => Resolution(sized, Some(e))
      case Ok(evicted) => Resolution(ResolveInfluxDb(evicted, env), None)
  }

  /** The required strings, in the order they are checked. */
  function RequiredInOrder(s: Settings): seq<(RequiredField, string)> {
    [(ClientName, s.clientName), (ClientVersion, s.clientVersion),
     (InfluxDbUrl, s.influxDbUrl), (InfluxDbToken, s.influxDbToken),
     (InfluxDbOrg, s.influxDbOrg), (InfluxDbBucket, s.influxDbBucket)]
  }

  /** The position of the first empty value, if there is one. */
  function FirstEmpty(fields: seq<(RequiredField, string)>): (r: Option<nat>)
    ensures r.Some? ==> r.value < |fields| && fields[r.value].1 == ""
    ensures r.Some? ==> forall j :: 0 <= j < r.value ==> fields[j].1 != ""
    ensures r.None? <==> forall j :: 0 <= j < |fields| ==> fields[j].1 != ""
  {
    if fields == [] then None
    else if fields[0].1 == "" then Some(0)
    else
      match FirstEmpty(fields[1..])
      case None => None
      case Some(i) => Some(i + 1)
  }

  /** The required field the loader reports as missing, if any. */
  function FirstMissing(s: Settings): Option<RequiredField> {
    var fields := RequiredInOrder(s);
    match FirstEmpty(fields)
    case None => None
    case Some(i) => Some(fields[i].0)
  }

  /** Every required string of a loaded configuration is non-empty. */
  predicate RequiredPresent(o: Options) {
    o.speedTest.clientName != "" && o.speedTest.clientVersion != "" &&
    o.influxDb.url != "" && o.influxDb.token != "" &&
    o.influxDb.org != "" && o.influxDb.bucket != ""
  }

  function OptionsOf(s: Settings): Options {
    Options(false,
            SpeedTestConfiguration(s.clientName, s.clientVersion, s.defaultTimeout),
            CacheConfiguration(s.cacheSize, s.cacheEviction),
            InfluxDbConfigurations(s.influxDbUrl, s.influxDbToken, s.influxDbOrg, s.influxDbBucket))
  }

  /**
   * What loading yields for the given flag values, completion flag,
   * environment and parsers.
   */
  function Parse(flags: Settings, autocomplete: bool, env: Env, p: Parsers): (r: Outcome)
    ensures r.Completion? <==> autocomplete
    ensures r.Parsed? ==> RequiredPresent(r.options) && !r.options.autocomplete
    ensures r.Failed? && r.error.Missing? ==> Resolve(flags, env, p).failure.None?
    ensures r.Parsed? <==>
      !autocomplete && Resolve(flags, env, p).failure.None? &&
      FirstMissing(Resolve(flags, env, p).reached).None?
    ensures r.Parsed? ==> r.options == OptionsOf(Resolve(flags, env, p).reached)
  {
    if autocomplete then Completion
    else
      var res := Resolve(flags, env, p);
      if res.failure.Some? then Failed(res.failure.value)
      else
        match FirstMissing(res.reached)
        case Some(field) => Failed(Missing(field))
        case None =>
          RequiredOrder(res.reached);
          Parsed(OptionsOf(res.reached))
  }

  /**
   * The package-level setting variables. The Go program reassigns each
   * pointer to a fallback value; here the field holding the value is
   * reassigned instead.
   */
  class FlagVariables {
    var clientName: string
    var clientVersion: string
    var defaultTimeout: Duration
    var cacheSize: int
    var cacheEviction: Duration
    var influxDbUrl: string
    var influxDbToken: string
    var influxDbOrg: string
    var influxDbBucket: string
    var autocomplete: bool

    function Current(): Settings
      reads this
    {
      Settings(clientName, clientVersion, defaultTimeout, cacheSize, cacheEviction,
               influxDbUrl, influxDbToken, influxDbOrg, influxDbBucket)
    }

    /** The variables as the flag library leaves them after reading the command line. */
    constructor (flags: Settings, autocomplete: bool)
      ensures Current() == flags && this.autocomplete == autocomplete
    {
      clientName, clientVersion, defaultTimeout := flags.clientName, flags.clientVersion, flags.defaultTimeout;
      cacheSize, cacheEviction := flags.cacheSize, flags.cacheEviction;
      influxDbUrl, influxDbToken := flags.influxDbUrl, flags.influxDbToken;
      influxDbOrg, influxDbBucket := flags.influxDbOrg, flags.influxDbBucket;
      this.autocomplete := autocomplete;
    }

    /** Client name and version fallbacks, including the DEFAULT_TIMEOUT quirk. */
    method ApplyIdentityFallbacks(env: Env)
      modifies this
      ensures Current() == ResolveIdentity(old(Current()), env)
      ensures autocomplete == old(autocomplete)
    {
      if clientName == "" && env.clientName != "" {
        clientName := env.clientName;
      }
      if clientVersion == "" && env.clientVersion != "" {
        clientVersion := env.clientVersion;
      }
      if defaultTimeout == OneMinute && env.defaultTimeout != "" {
        clientVersion := env.defaultTimeout;
      }
    }

    /** Takes the cache size from CACHE_SIZE while the flag holds its default. */
    method ApplyCacheSize(env: Env, p: Parsers) returns (err: Option<ConfigError>)
      modifies this
      ensures match ResolveCacheSize(old(Current()), env, p)
              case Err(e) => err == Some(e) && Current() == old(Current())
              case Ok(s) => err == None && Current() == s
      ensures autocomplete == old(autocomplete)
    {
      err := None;
      if cacheSize == DefaultCacheSize && env.cacheSize != "" {
        var parsed := p.parseInt32(env.cacheSize);
        if parsed.Err? {
          return Some(BadCacheSize(parsed.error));
        }
        cacheSize := parsed.value;
      }
    }

    /** Takes the cache eviction from CACHE_EVICTION while the flag holds its default. */
    method ApplyCacheEviction(env: Env, p: Parsers) returns (err: Option<ConfigError>)
      modifies this
      ensures match ResolveCacheEviction(old(Current()), env, p)
              case Err(e) => err == Some(e) && Current() == old(Current())
              case Ok(s) => err == None && Current() == s
      ensures autocomplete == old(autocomplete)
    {
      err := None;
      if cacheEviction == EightHours && env.cacheEviction != "" {
        var parsed := p.parseDuration(env.cacheEviction);
        if parsed.Err? {
          return Some(BadCacheEviction(parsed.error));
        }
        cacheEviction := parsed.value;
      }
    }

    /** The four database fallbacks. */
    method ApplyInfluxDbFallbacks(env: Env)
      modifies this
      ensures Current() == ResolveInfluxDb(old(Current()), env)
      ensures autocomplete == old(autocomplete)
    {
      if influxDbUrl == "" && env.influxDbUrl != "" {
        influxDbUrl := env.influxDbUrl;
      }
      if influxDbToken == "" && env.influxDbToken != "" {
        influxDbToken := env.influxDbToken;
      }
      if influxDbOrg == "" && env.influxDbOrg != "" {
        influxDbOrg := env.influxDbOrg;
      }
      if influxDbBucket == "" && env.influxDbBucket != "" {
        influxDbBucket := env.influxDbBucket;
      }
    }

    /**
     * The required-field checks one after another; the first empty field is
     * the one reported.
     */
    method CheckRequired() returns (missing: Option<RequiredField>)
      ensures missing == FirstMissing(Current())
      ensures missing.None? <==> RequiredPresent(OptionsOf(Current()))
    {
      RequiredOrder(Current());
      if clientName == "" {
        return Some(ClientName);
      }
      if clientVersion == "" {
        return Some(ClientVersion);
      }
      if influxDbUrl == "" {
        return Some(InfluxDbUrl);
      }
      if influxDbToken == "" {
        return Some(InfluxDbToken);
      }
      if influxDbOrg == "" {
        return Some(InfluxDbOrg);
      }
      if influxDbBucket == "" {
        return Some(InfluxDbBucket);
      }
      return None;
    }

    /**
     * Applies the environment fallbacks to the variables in program order and
     * validates them. The variables keep whatever was assigned before an
     * early return.
     */
    method ParseOptions(env: Env, p: Parsers) returns (r: Outcome)
      modifies this
      ensures r == Parse(old(Current()), old(autocomplete), env, p)
      ensures Current() == if old(autocomplete) then old(Current())
                           else Resolve(old(Current()), env, p).reached
      ensures autocomplete == old(autocomplete)
    {
      if autocomplete {
        return Completion;
      }
      ApplyIdentityFallbacks(env);
      var err := ApplyCacheSize(env, p);
      if err.Some? {
        return Failed(err.value);
      }
      err := ApplyCacheEviction(env, p);
      if err.Some? {
        return Failed(err.value);
      }
      ApplyInfluxDbFallbacks(env);
      var missing := CheckRequired();
      if missing.Some? {
        return Failed(Missing(missing.value));
      }
      r := Parsed(Options(autocomplete,
                          SpeedTestConfiguration(clientName, clientVersion, defaultTimeout),
                          CacheConfiguration(cacheSize, cacheEviction),
                          InfluxDbConfigurations(influxDbUrl, influxDbToken, influxDbOrg, influxDbBucket)));
    }
  }

  // ---------------------------------------------------------------------------
  // Properties of loading
  // ---------------------------------------------------------------------------

  /** Each missing field is reported with its own message. */
  lemma MessagesName(f: RequiredField, g: RequiredField)
    requires f != g
    ensures Message(Missing(f)) != Message(Missing(g))
  {
  }

  /**
   * The database strings and the client name follow flag-over-environment
   * precedence, and so does the client version unless DEFAULT_TIMEOUT
   * overrides it.
   */
  lemma StringPrecedence(flags: Settings, env: Env, p: Parsers)
    requires Resolve(flags, env, p).failure.None?
    ensures var s := Resolve(flags, env, p).reached;
      s.clientName == Fallback(flags.clientName, env.clientName) &&
      s.influxDbUrl == Fallback(flags.influxDbUrl, env.influxDbUrl) &&
      s.influxDbToken == Fallback(flags.influxDbToken, env.influxDbToken) &&
      s.influxDbOrg == Fallback(flags.influxDbOrg, env.influxDbOrg) &&
      s.influxDbBucket == Fallback(flags.influxDbBucket, env.influxDbBucket)
    ensures !(flags.defaultTimeout == OneMinute && env.defaultTimeout != "") ==>
      Resolve(flags, env, p).reached.clientVersion == Fallback(flags.clientVersion, env.clientVersion)
  {
  }

  /**
   * With DEFAULT_TIMEOUT set and the timeout flag at one minute, the client
   * version becomes the DEFAULT_TIMEOUT text and the timeout stays one minute,
   * whatever the version flag says.
   */
  lemma TimeoutFallbackOverwritesVersion(flags: Settings, env: Env, p: Parsers)
    requires flags.defaultTimeout == OneMinute && env.defaultTimeout != ""
    ensures Resolve(flags, env, p).reached.clientVersion == env.defaultTimeout
    ensures Resolve(flags, env, p).reached.defaultTimeout == OneMinute
    ensures Parse(flags, false, env, p).Parsed? ==>
      Parse(flags, false, env, p).options.speedTest ==
        SpeedTestConfiguration(Fallback(flags.clientName, env.clientName), env.defaultTimeout, OneMinute)
  {
  }

  /**
   * CACHE_SIZE is consulted only while the flag holds 256; an unparsable
   * value is returned as the error, before any required field is looked at.
   */
  lemma CacheSizeFromEnv(flags: Settings, env: Env, p: Parsers)
    ensures flags.cacheSize != DefaultCacheSize || env.cacheSize == "" ==>
      Resolve(flags, env, p).reached.cacheSize == flags.cacheSize
    ensures flags.cacheSize == DefaultCacheSize && env.cacheSize != "" ==>
      match p.parseInt32(env.cacheSize)
      case Err(cause) => Parse(flags, false, env, p) == Failed(BadCacheSize(cause))
      case Ok(n) => Resolve(flags, env, p).reached.cacheSize == n
  {
  }

  /**
   * CACHE_EVICTION is consulted only while the flag holds eight hours; an
   * unparsable value is the error unless CACHE_SIZE failed first.
   */
  lemma CacheEvictionFromEnv(flags: Settings, env: Env, p: Parsers)
    requires ResolveCacheSize(ResolveIdentity(flags, env), env, p).Ok?
    ensures flags.cacheEviction != EightHours || env.cacheEviction == "" ==>
      Resolve(flags, env, p).reached.cacheEviction == flags.cacheEviction
    ensures flags.cacheEviction == EightHours && env.cacheEviction != "" ==>
      match p.parseDuration(env.cacheEviction)
      case Err(cause) => Parse(flags, false, env, p) == Failed(BadCacheEviction(cause))
      case Ok(d) => Resolve(flags, env, p).reached.cacheEviction == d
  {
  }

  /**
   * A bad CACHE_SIZE is reported even when every required field is empty:
   * parse errors mask missing fields.
   */
  lemma ParseErrorMasksMissingFields(env: Env, p: Parsers)
    requires env.clientName == "" && env.cacheSize != ""
    requires p.parseInt32(env.cacheSize).Err?
    ensures Parse(FlagDefaults, false, env, p) == Failed(BadCacheSize(p.parseInt32(env.cacheSize).error))
    ensures FirstMissing(Resolve(FlagDefaults, env, p).reached) == Some(ClientName)
  {
  }

  /**
   * The error names the k-th required field when it is empty and every field
   * checked before it is not, whatever the later fields hold.
   */
  lemma FirstMissingReported(flags: Settings, env: Env, p: Parsers, k: nat)
    requires Resolve(flags, env, p).failure.None?
    requires k < 6
    requires RequiredInOrder(Resolve(flags, env, p).reached)[k].1 == ""
    requires forall j :: 0 <= j < k ==> RequiredInOrder(Resolve(flags, env, p).reached)[j].1 != ""
    ensures Parse(flags, false, env, p) == Failed(Missing(RequiredInOrder(Resolve(flags, env, p).reached)[k].0))
  {
  }

  /** The fields are checked in the order name, version, URL, token, organization, bucket. */
  lemma RequiredOrder(s: Settings)
    ensures s.clientName == "" ==> FirstMissing(s) == Some(ClientName)
    ensures s.clientName != "" && s.clientVersion == "" ==> FirstMissing(s) == Some(ClientVersion)
    ensures s.clientName != "" && s.clientVersion != "" && s.influxDbUrl == "" ==>
      FirstMissing(s) == Some(InfluxDbUrl)
    ensures s.clientName != "" && s.clientVersion != "" && s.influxDbUrl != "" && s.influxDbToken == "" ==>
      FirstMissing(s) == Some(InfluxDbToken)
    ensures (s.clientName != "" && s.clientVersion != "" && s.influxDbUrl != "" && s.influxDbToken != "" &&
             s.influxDbOrg == "") ==> FirstMissing(s) == Some(InfluxDbOrg)
    ensures (s.clientName != "" && s.clientVersion != "" && s.influxDbUrl != "" && s.influxDbToken != "" &&
             s.influxDbOrg != "" && s.influxDbBucket == "") ==> FirstMissing(s) == Some(InfluxDbBucket)
    ensures FirstMissing(s) == None <==>
      s.clientName != "" && s.clientVersion != "" && s.influxDbUrl != "" && s.influxDbToken != "" &&
      s.influxDbOrg != "" && s.influxDbBucket != ""
  {
    var fields := RequiredInOrder(s);
    assert fields[0].1 == s.clientName && fields[1].1 == s.clientVersion;
    assert fields[2].1 == s.influxDbUrl && fields[3].1 == s.influxDbToken;
    assert fields[4].1 == s.influxDbOrg && fields[5].1 == s.influxDbBucket;
  }

  /**
   * A load without completion mode and without a cache parse error succeeds
   * exactly when all six required strings resolved to non-empty values.
   */
  lemma ValidConfigurationLoads(flags: Settings, env: Env, p: Parsers)
    requires Resolve(flags, env, p).failure.None?
    ensures var s := Resolve(flags, env, p).reached;
      Parse(flags, false, env, p).Parsed? <==>
        s.clientName != "" && s.clientVersion != "" && s.influxDbUrl != "" &&
        s.influxDbToken != "" && s.influxDbOrg != "" && s.influxDbBucket != ""
  {
    RequiredOrder(Resolve(flags, env, p).reached);
  }

  /**
   * A successful load returns the resolved values: each required string is
   * the flag or, failing that, the environment value, and is non-empty.
   */
  lemma ParsedOptions(flags: Settings, env: Env, p: Parsers)
    requires Parse(flags, false, env, p).Parsed?
    ensures var o := Parse(flags, false, env, p).options;
      RequiredPresent(o) && !o.autocomplete &&
      o.speedTest.clientName == Fallback(flags.clientName, env.clientName) &&
      o.speedTest.clientVersion == (if flags.defaultTimeout == OneMinute && env.defaultTimeout != ""
                                    then env.defaultTimeout
                                    else Fallback(flags.clientVersion, env.clientVersion)) &&
      o.speedTest.defaultTimeout == flags.defaultTimeout &&
      o.cache == CacheConfiguration(Resolve(flags, env, p).reached.cacheSize,
                                    Resolve(flags, env, p).reached.cacheEviction) &&
      o.influxDb == InfluxDbConfigurations(Fallback(flags.influxDbUrl, env.influxDbUrl),
                                           Fallback(flags.influxDbToken, env.influxDbToken),
                                           Fallback(flags.influxDbOrg, env.influxDbOrg),
                                           Fallback(flags.influxDbBucket, env.influxDbBucket))
  {
  }
}
