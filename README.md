# speedtest-influxdb: configuration loading and result summary

This project models the two parts of the speed-test exporter that hold
logic of their own. The exporter runs an ndt7 speed test and writes the
results to InfluxDB.

- **Configuration loading** (`Options`, file `options.dfy`). `ParseOptions`
  takes each setting from its command-line flag. A string flag that is empty
  falls back to its environment variable. The cache size and cache eviction
  are read from `CACHE_SIZE` and `CACHE_EVICTION` only while their flags hold
  the defaults (256 and 8h), and a value that does not parse is returned as
  the error. Six required strings are then checked in a fixed order: client
  name, client version, InfluxDB URL, token, organization and bucket. The
  first empty one is reported. The `zsh-autocomplete` flag ends loading at
  once with neither options nor an error.
  The Go program keeps every setting in a package-level pointer variable and
  reassigns those variables as it goes. The model mirrors this with the class
  `FlagVariables`, whose methods reassign its fields in the same order and
  return early in the same places. Each method is proved against pure
  functions (`Resolve`, `Parse`). Those functions carry the properties.
- **Summary construction** (`Speedtest`, file `speedtest.dfy`). `NewSummary`
  turns the download and upload results into four value/unit pairs:
  - download and upload throughput in Mbit/s;
  - the download retransmission rate in %;
  - the minimum round-trip time in ms.
  Each pair is guarded by a presence or zero check. Construction fails exactly
  when either phase is missing from the result map. The method follows the
  program's field overwrites and its throughput formula. It is proved equal
  to `Summarize`, a declarative reference. Throughput there is bits per
  microsecond.

`wrappers.dfy` holds the `Option` and `Result` types both modules use.

The DEFAULT_TIMEOUT fallback is modelled as the code has it. When the
timeout flag still holds one minute and `DEFAULT_TIMEOUT` is set, the
variable's text is assigned to the client version, and the timeout keeps
its flag value. This looks unintended; the model follows the code and proves the quirk
(`TimeoutFallbackOverwritesVersion`). As a result, the client version does
not always follow plain flag-over-environment precedence.

## Model

| member | source | states |
|---|---|---|
| `Options.Fallback` | src/options/index.go:54-60 | a non-empty flag value is kept; an empty one is replaced by the environment value; the result is empty only when both are |
| `Options.ResolveIdentity` | src/options/index.go:54-64 | the client name follows flag-over-environment precedence; only name and version change |
| `Options.ResolveCacheSize` | src/options/index.go:66-74 | fails exactly when the flag is 256, `CACHE_SIZE` is set and does not parse, with the parser's error; otherwise only the cache size may change |
| `Options.ResolveCacheEviction` | src/options/index.go:76-84 | fails exactly when the flag is 8h, `CACHE_EVICTION` is set and does not parse, with the parser's error; otherwise only the eviction may change |
| `Options.ResolveInfluxDb` | src/options/index.go:86-100 | only the four database strings change; each non-empty one is kept |
| `Options.Resolve` | src/options/index.go:54-100 | the timeout is never taken from the environment; the fallback steps can fail only with a cache parse error |
| `Options.FirstEmpty` | src/options/index.go:102-128 | the result is the position of an empty value with no empty value before it, and it is absent exactly when no value is empty |
| `Options.RequiredOrder` | src/options/index.go:102-128 | the missing field reported is client name, then version, URL, token, organization and bucket, the first empty one in that order; none is reported exactly when all six are non-empty |
| `Options.Parse` | src/options/index.go:46-151 | completion mode is the outcome exactly when the autocomplete flag is set; a successful load has all six required strings non-empty and autocomplete off; a missing-field error comes only after both cache settings parsed; the load succeeds exactly when no cache setting failed to parse and no required string is empty, and then returns the resolved settings |
| `Options.FlagVariables.constructor` | src/options/index.go:31-43 | the variables hold the flag values as the command line left them |
| `Options.FlagVariables.ApplyIdentityFallbacks` | src/options/index.go:54-64 | the variables become `ResolveIdentity` of their old values |
| `Options.FlagVariables.ApplyCacheSize` | src/options/index.go:66-74 | returns the cache-size parse error and changes nothing, or the variables become the settings `ResolveCacheSize` yields |
| `Options.FlagVariables.ApplyCacheEviction` | src/options/index.go:76-84 | returns the eviction parse error and changes nothing, or the variables become the settings `ResolveCacheEviction` yields |
| `Options.FlagVariables.ApplyInfluxDbFallbacks` | src/options/index.go:86-100 | the variables become `ResolveInfluxDb` of their old values |
| `Options.FlagVariables.CheckRequired` | src/options/index.go:102-128 | the sequential checks report the first empty field of the ordered reference, and report none exactly when all required strings are present |
| `Options.FlagVariables.ParseOptions` | src/options/index.go:46-151 | the outcome equals `Parse` of the flag values; the variables end as the fallback steps left them, including after an early parse-error return, and are untouched in completion mode |
| `Options.MessagesName` | src/options/index.go:102-128 | each required field has its own error text |
| `Options.StringPrecedence` | src/options/index.go:54-100 | after the fallback steps, name, URL, token, organization and bucket are the flag when non-empty and the environment value otherwise; so is the version unless the DEFAULT_TIMEOUT quirk applies |
| `Options.TimeoutFallbackOverwritesVersion` | src/options/index.go:62-64 | with the timeout flag at one minute and DEFAULT_TIMEOUT set, the client version becomes that text and the timeout stays one minute |
| `Options.CacheSizeFromEnv` | src/options/index.go:66-74 | the flag is kept unless it is 256 and `CACHE_SIZE` is set; then a parse error is the outcome, or the parsed number is the cache size |
| `Options.CacheEvictionFromEnv` | src/options/index.go:76-84 | the flag is kept unless it is 8h and `CACHE_EVICTION` is set; then a parse error is the outcome (when the size parsed), or the parsed duration is the eviction |
| `Options.ParseErrorMasksMissingFields` | src/options/index.go:66-104 | a bad `CACHE_SIZE` is reported even though the client name is missing |
| `Options.FirstMissingReported` | src/options/index.go:102-128 | the k-th required field is reported when it is empty and all before it are not, whatever the later fields hold |
| `Options.ValidConfigurationLoads` | src/options/index.go:102-150 | with no cache parse error, loading succeeds exactly when all six resolved required strings are non-empty |
| `Options.ParsedOptions` | src/options/index.go:130-150 | on success the returned options hold the resolved flag/environment values (strings, timeout, cache size and eviction), and the six required strings are non-empty |
| `Options.Message` | src/options/index.go:102-128 | definition: the six error texts of the required-field checks, and a parse error's own text |
| `Options.RequiredInOrder` | src/options/index.go:102-128 | definition: the required strings in checking order |
| `Options.FirstMissing` | src/options/index.go:102-128 | definition: the field at the first empty position of `RequiredInOrder` |
| `Options.OptionsOf` | src/options/index.go:130-148 | definition: the options record built from the resolved settings, with autocomplete off |
| `Speedtest.Throughput` | src/speedtest/summary.go:56-64 | unit "Mbit/s" exactly when counters are present and elapsed time is positive, and then value × elapsed µs = 8 × bytes; otherwise the zero pair |
| `Speedtest.RetransmissionRate` | src/speedtest/summary.go:66-72 | unit "%" exactly when TCP counters are present and bytes sent is positive, and then value × sent = 100 × retransmitted; otherwise the zero pair |
| `Speedtest.MinRoundTrip` | src/speedtest/summary.go:73-76 | unit "ms" exactly when TCP counters are present, and then value × 1000 = the round-trip time in µs; otherwise the zero pair |
| `Speedtest.Summarize` | src/speedtest/summary.go:48-98 | succeeds exactly when both the download and upload entries exist; the FQDN is the input and the IPs and UUID stay empty; the error is "download or upload failed" |
| `Speedtest.MbitPerSecond` | src/speedtest/summary.go:58-61 | the program's formula (bits over seconds over one million) times elapsed µs equals 8 × bytes |
| `Speedtest.MbitPerSecondIsThroughput` | src/speedtest/summary.go:56-64 | the program's formula equals the bits-per-microsecond throughput |
| `Speedtest.NewSummary` | src/speedtest/summary.go:48-98 | the guarded field overwrites produce exactly `Summarize` of the input |
| `Speedtest.RetransmissionRateBounded` | src/speedtest/summary.go:66-72 | with 0 ≤ retransmitted ≤ sent the rate lies between 0 and 100 |
| `Speedtest.ThroughputPositive` | src/speedtest/summary.go:56-64 | positive bytes over positive time give a positive throughput |
| `Speedtest.MinRttWithoutBytesSent` | src/speedtest/summary.go:66-77 | with TCP counters but no bytes sent, the rate stays the zero pair while the round-trip time is reported in ms |
| `Speedtest.UploadServerIgnored` | src/speedtest/summary.go:55-90 | replacing the upload entry's server measurement leaves the summary unchanged |
| `Speedtest.OtherKindsIgnored` | src/speedtest/summary.go:52-53 | entries under keys other than "download" and "upload" do not affect the summary |
| `Speedtest.ThroughputExample` | src/speedtest/summary.go:58-63 | 12,500,000 bytes in 1,000,000 µs is 100 Mbit/s |
| `Speedtest.RetransmissionExample` | src/speedtest/summary.go:68-71 | 50 of 1000 bytes retransmitted is 5 % |
| `Speedtest.RoundTripExample` | src/speedtest/summary.go:73-76 | a round-trip time of 25,000 µs is 25 ms |
| `Speedtest.NoTcpInfo` | src/speedtest/summary.go:55-97 | both phases present without TCP counters give positive throughputs and zero retransmission and round-trip pairs |

## Left out

- main.go is not part of this model. It holds process sequencing, `log.Fatal` exits, logger set-up and the goroutine that drains the measurement channel.
- src/speedtest/runner.go is not part of this model. It wraps the external ndt7 client, a context timeout and an unbuffered channel: network I/O and concurrency.
- src/speedtest/servers.go is not part of this model. It is an HTTP GET plus JSON decoding.
- src/model/index.go is not part of this model. It is InfluxDB client set-up, point construction with wall-clock timestamps, and flush/close.
- `printCompletions` (src/options/index.go:184-194) is left out. It walks the flag library's registry and prints to standard output. Completion mode is modelled only as the `Completion` outcome.
- `flag.Parse` is left out. The flag values after command-line parsing are an input (`FlagVariables.constructor`), and so is the environment (`Env`), which the program reads once at start-up.
- `strconv.ParseInt(…, 10, 32)` and `time.ParseDuration` are library code. They are parameters (`Parsers`) that return a value or an error text. The model therefore does not say which strings are valid integers or durations, and does not bound the parsed size to 32 bits.
- The `Log` field of `Options` and the unused `GeoIpConfigurations` type are left out.
- The Go `Options` holds pointers to the package-level variables, so a later change to a variable would show through the options. The model returns the values instead.
- Integer widths are left out: the int64 counters, the uint32 round-trip time and Go's `int` cache size are unbounded integers here.
- Floating point is left out. Metric values are exact reals, so the float64 conversion of counters and IEEE rounding are not modelled.
- A result map entry whose pointer is nil makes the Go program dereference nil. Entries here are always records, so that case is not modelled.
- The summary error is returned as its message text, not as a Go `error` value.
