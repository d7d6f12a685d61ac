# Logger planning and singleton client acquisition of sensor_manage_hub

This Dafny project models the small core of the backend's infrastructure code.
It covers two areas.

- **The logging facility** (`backend/pkg/logs/zap.go`). A logger `Config`
  turns into a zap logger: a minimum level, an encoder, one core per output
  sink and an ordered option list. The model includes the two presets, the
  field-selection rule of `WithContext`, and the process-wide
  `globalLogger`/`globalSugar` pair. `L` and `S` fill that pair lazily with
  the development preset, and `InitGlobal` replaces it.
- **The MySQL and InfluxDB client factories** (`internal/db/mysql/client.go`,
  `backend/internal/db/influxdb/client.go`). Each keeps a process-wide slot
  that is empty or holds a client. An acquisition returns the cached client
  and ignores its configuration. Otherwise it constructs a client and probes
  it, and it fills the slot only on success. The model also covers the MySQL
  DSN and pool settings and the nil-guarded `Close` of both wrappers.

Modules, one per file:

- `Wrappers` (`wrappers.dfy`): `Option`, for a Go nil or a missing value, and `Result`, for a `(value, error)` pair.
- `Text` (`text.dfy`): `strings.ToLower` as far as it can produce ASCII, equality up to letter case, and the `%d` rendering with its inverse.
- `Singleton` (`singleton.dfy`): the cache-if-absent state machine that both factories share, with lemmas about sequences of acquisitions.
- `Logs` (`logs.dfy`): zap.go. The pure decision rules are functions. `New` is a method with a loop, proved equal to the specification function `LoggerFor`. The globals live in the class `Registry`.
- `Mysql` (`mysql.dfy`) and `InfluxDB` (`influxdb.dfy`): the factories. The globals live in a `Globals` class, and each wrapper is a class.

Vendor objects (zap, lumberjack, `*sql.DB`, `*influxdb3.Client`) are not
modelled beyond what this code hands to them or reads from them.

- A logger is a `Logger` value listing its cores, its options and its `With` fields.
- A sink is `Stdout`, `Stderr` or `RotatingFile(name, maxSize, maxBackups, maxAge, compress)`.
- `SqlDB` keeps its DSN, the three pool settings and whether it was closed.
- `Client3` keeps its configuration, the queries sent through it and whether it was closed.

Whether `sql.Open`, `db.Ping`, `influxdb3.New`, the probe query or a vendor
`Close` succeeds is a parameter: `None` means success, `Some(cause)` means an
error.

## Model

| member | source | states |
|---|---|---|
| `Text.SameLowerCharIffSameLetter` | backend/pkg/logs/zap.go:198 | two characters lower to the same character exactly when they are one letter in two cases (ASCII capital and small letter, or the I and K families that include U+0130 and U+212A) |
| `Text.SameLowerIffEqualFold` | backend/pkg/logs/zap.go:198 | two strings lower-case to the same string exactly when they differ only in letter case (both directions), with "differ only in case" defined letter by letter without reference to lowering |
| `Text.UpperEqualFold` | backend/pkg/logs/zap.go:235 | upper-casing a string changes it only up to case, so the parsers lowering their input cannot tell the two apart |
| `Text.Digits` | internal/db/mysql/client.go:46 | `%d` of a natural number is a non-empty run of decimal digits with no leading zero |
| `Text.DecimalRoundTrip` | internal/db/mysql/client.go:46-47 | the decimal rendering of the port reads back as the same integer, negatives included |
| `Text.DecimalInjective` | internal/db/mysql/client.go:46-47 | distinct ports render to distinct strings |
| `Singleton.Next` | internal/db/mysql/client.go:33-41 | a filled slot stays as it is; an empty slot is filled by a successful initialisation and stays empty after a failed one |
| `Singleton.SuccessSticks` | internal/db/mysql/client.go:33-41 | in any run of acquisitions, once one succeeds, every later one returns that same handle and the slot holds it, whatever configurations the later calls pass |
| `Singleton.CacheIsFirstSuccess` | backend/internal/db/influxdb/client.go:28-36 | starting from an empty slot, failed acquisitions leave it empty, and after any run the slot holds exactly the handle of the first success |
| `Logs.ParseLevel` | backend/pkg/logs/zap.go:197-208 | `parseLevel`: a switch on the lowered name; its outcomes are stated by `Logs.ParseLevelSpec` |
| `Logs.ParseLevelSpec` | backend/pkg/logs/zap.go:197-208 | after lower-casing, "debug" gives Debug, "warn" or "warning" gives Warn, "error" gives Error, and every other string ("", "info", garbage) gives Info; each case is an if-and-only-if |
| `Logs.ParseLevelIgnoresCase` | backend/pkg/logs/zap.go:197-198 | level names that differ only in case parse to the same level |
| `Logs.ParseLevelRoundTrip` | backend/pkg/logs/zap.go:197-208 | every level's name, in lower case and in upper case, parses back to that level |
| `Logs.ParseLevelDottedCapitalI` | backend/pkg/logs/zap.go:198-202 | "WARN" + U+0130 + "NG" parses as Warn, because lowering turns U+0130 into an ASCII i |
| `Logs.DefaultInt` | backend/pkg/logs/zap.go:251-256 | the result is `v` when `v > 0` and `def` otherwise, so it is positive whenever `def` is |
| `Logs.WriterFor` | backend/pkg/logs/zap.go:234-249 | `writerFor`: a switch on the lowered path; its outcomes are stated by `Logs.WriterForSpec` |
| `Logs.WriterForSpec` | backend/pkg/logs/zap.go:234-249 | "stdout" and "stderr" in any case select the standard streams (if and only if); every other path becomes a rotating file under its own name with limits 128/7/7 and compression on |
| `Logs.WriterForIgnoresCase` | backend/pkg/logs/zap.go:235 | paths that differ only in case either both select the same standard stream or are both files |
| `Logs.EncoderConfigFor` | backend/pkg/logs/zap.go:210-228 | `encoderConfig`: the fixed keys ts/level/logger/caller/msg/stack, RFC3339Nano time, lower-case levels, short caller, millisecond durations, and coloured capital levels only in development; its properties are stated by `Logs.EncoderConfigSpec` |
| `Logs.EncoderConfigSpec` | backend/pkg/logs/zap.go:210-228 | the six key names are pairwise distinct, and levels are coloured exactly in development mode |
| `Logs.EncoderFor` | backend/pkg/logs/zap.go:73-79 | the encoder closure of `New`; its outcomes are stated by `Logs.EncoderForSpec` |
| `Logs.EncoderForSpec` | backend/pkg/logs/zap.go:73-79 | the encoder is Console exactly when the lower-cased encoding is "console", so an empty or any other value gives JSON; it uses the development-dependent encoder configuration |
| `Logs.CoresFor` | backend/pkg/logs/zap.go:71-102 | the cores `New` tees together: one per effective output path, then the optional file core; stated by `Logs.SinkPlan` and met by `Logs.Cores` |
| `Logs.OptionsFor` | backend/pkg/logs/zap.go:106-123 | the options `New` passes to `zap.New`; stated by `Logs.OptionOrder` and `Logs.OptionToggles` |
| `Logs.LoggerFor` | backend/pkg/logs/zap.go:70-127 | the logger `New` builds, as cores and options; met by `Logs.New` |
| `Logs.PathCores` | backend/pkg/logs/zap.go:87-90 | the loop over the output paths yields one core per path, in order, each on the sink `writerFor` picks |
| `Logs.Cores` | backend/pkg/logs/zap.go:71-102 | the path cores, with "stdout" standing in for an empty list, followed by the file core when enabled, are exactly `CoresFor(cfg)` |
| `Logs.New` | backend/pkg/logs/zap.go:70-127 | the loop over output paths and the chain of appends build exactly `LoggerFor(cfg, opts)`, and no error is ever returned |
| `Logs.StdoutCores` | backend/pkg/logs/zap.go:81-102 | with "stdout" as the only output path the cores are one stdout core, then the file core exactly when the file section is enabled |
| `Logs.SinkPlan` | backend/pkg/logs/zap.go:81-102 | with no output paths there is one "stdout" core, otherwise one core per path in input order; one extra file core comes last exactly when the file section is enabled and named; all cores share the parsed level and the chosen encoder |
| `Logs.RotationLimitsPositive` | backend/pkg/logs/zap.go:92-102 | every rotating file the logger writes to has positive size, backup and age limits, whatever the configuration holds |
| `Logs.OptionOrder` | backend/pkg/logs/zap.go:106-125 | the caller's options come first; then caller plus skip 1 when `EnableCaller`, stacktrace at Error when `EnableStacktrace`, and the 1 s/100/100 sampler when `Sampling`, in that order; the `svc`/`env` fields always come last, and the length counts exactly the enabled toggles |
| `Logs.OptionToggles` | backend/pkg/logs/zap.go:106-119 | when the caller passes only its own options, caller annotation, skip 1, stacktrace at Error and the sampler each appear exactly when their toggle is set (both directions) |
| `Logs.ErrorOutputPathsIgnored` | backend/pkg/logs/zap.go:70-127 | `ErrorOutputPaths` has no effect on the built logger |
| `Logs.DevConfig` | backend/pkg/logs/zap.go:159-172 | the development preset's field values; what they build is stated by `Logs.DevPreset` |
| `Logs.ProdConfig` | backend/pkg/logs/zap.go:174-195 | the production preset's field values; what they build is stated by `Logs.ProdPreset` |
| `Logs.DevPreset` | backend/pkg/logs/zap.go:159-172 | the development preset builds a Debug-level console logger on stdout alone, with caller annotation and the `example-svc`/`dev` fields |
| `Logs.DevCores` | backend/pkg/logs/zap.go:159-172 | the development preset has a single Debug-level console core on stdout and no file core |
| `Logs.DevOptions` | backend/pkg/logs/zap.go:163-171 | the development preset enables only caller annotation, so its options are caller, skip 1 and the service fields |
| `Logs.ProdPreset` | backend/pkg/logs/zap.go:174-195 | the production preset builds an Info-level JSON logger on stdout and on ./logs/app.log (256/10/14, compressed), with caller, stacktrace at Error, sampling and the `example-svc`/`prod` fields |
| `Logs.ProdCores` | backend/pkg/logs/zap.go:174-195 | the production preset has an Info-level JSON core on stdout followed by one on the rotating file with the preset's own limits |
| `Logs.ProdOptions` | backend/pkg/logs/zap.go:178-185 | the production preset enables caller, stacktrace and sampling, so all four toggled options precede the service fields |
| `Logs.ContextFields` | backend/pkg/logs/zap.go:137-150 | every added field has a non-empty value and one of the keys trace_id, request_id, user_id |
| `Logs.NonEmpty` | backend/pkg/logs/zap.go:142-150 | the filter keeps exactly the fields with non-empty values and nothing else |
| `Logs.ContextFieldsAreNonEmptyCandidates` | backend/pkg/logs/zap.go:137-150 | the added fields are exactly the non-empty IDs, in the order trace_id, request_id, user_id |
| `Logs.Decorate` | backend/pkg/logs/zap.go:133-154 | a nil context, or one with no IDs, returns the base logger unchanged; otherwise only the `With` fields grow, by exactly the selected IDs |
| `Logs.WithContextAddsNothing` | backend/pkg/logs/zap.go:136-139 | because `ctxKey` is local to `WithContext`, no context a caller can build yields any field, so the base logger comes back unchanged |
| `Logs.Current` | backend/pkg/logs/zap.go:43-48 | an installed logger is what `L` returns |
| `Logs.Registry.constructor` | backend/pkg/logs/zap.go:38-41 | at process start no logger is installed and the two globals are consistent |
| `Logs.Registry.InitGlobal` | backend/pkg/logs/zap.go:58-67 | installs the logger `New` builds in both globals and in zap's globals together, and never fails |
| `Logs.Registry.L` | backend/pkg/logs/zap.go:43-48 | installs the development preset only when no logger is installed, otherwise changes nothing; returns the installed logger |
| `Logs.Registry.S` | backend/pkg/logs/zap.go:50-55 | the same for the sugared logger, which always wraps the installed logger |
| `Logs.Registry.WithContext` | backend/pkg/logs/zap.go:131-155 | the result is the current logger (from `L`) decorated as `Decorate` says |
| `Logs.Registry.Info` | internal/db/mysql/client.go:60 | one Info entry through the current logger is appended to the log, installing the development preset first if needed |
| `Mysql.Dsn` | internal/db/mysql/client.go:46-47 | the `Sprintf` DSN: user, password, host, decimal port, database and charset in the fixed layout; its port is recovered by `Mysql.DsnPortRoundTrip` |
| `Mysql.DsnPortRoundTrip` | internal/db/mysql/client.go:46-47 | the text between the fixed head and tail of the DSN reads back as the configured port |
| `Mysql.DsnDeterminesPort` | internal/db/mysql/client.go:46-47 | configurations that differ only in the port give different DSNs |
| `Mysql.Wrap64` | internal/db/mysql/client.go:54 | the result is in the `int64` range and congruent to the input modulo 2^64, and equals the input when that fits |
| `Mysql.LifetimeNanos` | internal/db/mysql/client.go:54 | `time.Duration(m) * time.Minute` with int64 wrap-around; stated by `Mysql.LifetimeExact` and `Mysql.LifetimeWrapsBeyondBound` |
| `Mysql.PoolFor` | internal/db/mysql/client.go:52-54 | the three pool settings assigned; stated by `Mysql.PoolSettingsFromConfig` |
| `Mysql.LifetimeExact` | internal/db/mysql/client.go:54 | for up to 153722867 minutes either way, the lifetime is exactly that many minutes in nanoseconds |
| `Mysql.LifetimeWrapsBeyondBound` | internal/db/mysql/client.go:54 | one minute more and `time.Duration(m) * time.Minute` wraps to a negative duration |
| `Mysql.PoolSettingsFromConfig` | internal/db/mysql/client.go:52-54 | the open and idle limits are copied verbatim, and the lifetime is `MaxLifetime` minutes whenever that fits in an int64 |
| `Mysql.Message` | internal/db/mysql/client.go:50-58 | the two wrapped error texts; told apart by `Mysql.MessagesDistinct` |
| `Mysql.MessagesDistinct` | internal/db/mysql/client.go:48-59 | an open failure and a ping failure never produce the same error text |
| `Mysql.InitMysqlClient` | internal/db/mysql/client.go:45-62 | an open failure gives `OpenFailed` and a ping failure gives `PingFailed`, with no log entry either way; on success the new pool has the formatted DSN and the pool settings of `PoolFor`, and the success line is logged after the ping |
| `Mysql.MysqlClient.constructor` | internal/db/mysql/client.go:40 | the wrapper holds exactly the pool it is given |
| `Mysql.Globals.constructor` | internal/db/mysql/client.go:12 | the slot starts empty |
| `Mysql.Globals.GetMysqlClient` | internal/db/mysql/client.go:32-42 | a cached client is returned unchanged whatever the configuration, with nothing initialised or logged; otherwise a failure is returned and the slot stays empty, or the new client is cached and returned, with the logger globals left holding the logger `L` installed and the success line logged; the step is the `Singleton.Next`/`Serves` transition |
| `Mysql.Close` | internal/db/mysql/client.go:65-70 | a nil client returns no error and changes nothing; otherwise the pool is closed and its report returned |
| `InfluxDB.Message` | backend/internal/db/influxdb/client.go:48-59 | the two wrapped error texts; told apart by `InfluxDB.MessagesDistinct` |
| `InfluxDB.MessagesDistinct` | backend/internal/db/influxdb/client.go:47-59 | a construction failure and a probe failure never produce the same error text |
| `InfluxDB.InitInfluxDBClient` | backend/internal/db/influxdb/client.go:40-64 | construction and the "SELECT 1" probe fail with distinct errors and no log entry; a client under the given configuration, probed once, is returned and the success line logged only when both steps succeed |
| `InfluxDB.InfluxDBClient.constructor` | backend/internal/db/influxdb/client.go:29-36 | the wrapper holds exactly the client it is given |
| `InfluxDB.Globals.constructor` | backend/internal/db/influxdb/client.go:13 | the slot starts empty |
| `InfluxDB.Globals.GetInfluxDBClient` | backend/internal/db/influxdb/client.go:27-37 | every success is a fresh wrapper; with a filled slot the wrapper holds the cached client whatever the configuration, and nothing else happens; otherwise a failure leaves the slot empty and a success caches the client the wrapper holds, leaves the logger globals holding the logger `L` installed and logs the success line; the step is the `Singleton.Next`/`Serves` transition |
| `InfluxDB.InfluxDBClient.Close` | backend/internal/db/influxdb/client.go:66-71 | a wrapper with a nil `Client` returns no error and changes nothing; otherwise the client is closed and its report returned |
| `InfluxDB.CloseThenReacquire` | backend/internal/db/influxdb/client.go:13-36 | closing a wrapper does not empty the slot, so the next acquisition, with any configuration, returns the same client, now closed |

## Left out

- Vendor internals are not modelled: zap's encoders, tee and sampler, lumberjack's rotation, and the `database/sql`, influxdb3 and minio clients. In particular, `SetMaxIdleConns` in `database/sql` clamps the idle limit to the open limit. The model records the values the code passes.
- The RFC3339Nano time encoder (backend/pkg/logs/zap.go:230-232) is only named (`Rfc3339NanoTime`). Time formatting is not modelled.
- Network probes and the 5-second `context.WithTimeout` deadline become success/failure parameters. No wall-clock behaviour is modelled.
- The log output itself is not modelled. The model records each `L().Info` call as an `Entry`. Whether a core's level lets it through, and what reaches a sink, are zap's concern.
- The identity of a `*zap.Logger` object is not modelled. Loggers are values, so `L` returning "the same instance" is modelled as returning an equal logger. Client and wrapper identity is modelled with Dafny objects.
- Go's `append` to the caller's variadic `opts` slice can write into the caller's backing array. This aliasing is not modelled.
- `strings.ToLower` is modelled for every character whose lower-case form is ASCII: 'A'..'Z', U+0130 (to 'i') and U+212A (to 'k'). Other characters are kept as they are. Go lowers some of them, but never to an ASCII character, so the model and Go agree on whether a lowered string equals one of the ASCII literals the core compares against. The lowered text itself is not used anywhere else.
- Go `int` fields are unbounded integers. The only place where width matters is the lifetime multiplication, which is modelled with int64 wrap-around.
- Concurrency is not modelled. Callers are single-threaded, so the unguarded concurrent first-call race on the package globals does not arise.
- On a ping failure (MySQL) or a probe failure (InfluxDB), the source drops the opened client without closing it. The model allocates that object and forgets it in the same way. Leaked resources are not tracked.
- internal/db/minio/client.go is not part of this model. It passes straight through to minio, with no caching and no local logic beyond error wrapping.
- backend/config/config.go is not part of this model. YAML decoding is delegated to viper, and the only local rule is the default path.
- backend/cmd/main.go is not part of this model. Bootstrap and teardown are process I/O: printing, `log.Fatalf` and the deferred `CloseClient`.
