/** The logging facility of backend/pkg/logs/zap.go: how a `Config` record is
    turned into a zap logger (minimum level, encoder, one core per sink, the
    ordered option list), the two presets, the context-field rule of
    `WithContext`, and the process-wide logger state behind `L`, `S` and
    `InitGlobal`.

    zap and lumberjack themselves are not modelled: a logger is the plan the
    code hands to them (a `Logger` value listing its cores and options). */
module Logs {
  import opened Wrappers
  import opened Text

  // ---- configuration records ----

  /** The rotating-file section of the configuration (`FileRotate`). */
  datatype FileRotate = FileRotate(
    filename: string,
    maxSize: int,     // megabytes
    maxBackups: int,
    maxAge: int,      // days
    compress: bool,
    enable: bool)

  /** The logger configuration (`Config`). */
  datatype Config = Config(
    level: string,
    encoding: string,
    development: bool,
    enableCaller: bool,
    enableStacktrace: bool,
    sampling: bool,
    outputPaths: seq<string>,
    errorOutputPaths: seq<string>,
    serviceName: string,
    environment: string,
    file: FileRotate)

  // ---- what the code builds ----

  /** zap's levels, least severe first. */
  datatype Level = Debug | Info | Warn | Error

  /** Where a core writes: a standard stream or a lumberjack rotating file. */
  datatype Sink =
    | Stdout
    | Stderr
    | RotatingFile(filename: string, maxSize: int, maxBackups: int, maxAge: int, compress: bool)

  datatype EncoderKind = Console | Json
  datatype LevelEncoding = LowercaseLevel | CapitalColorLevel
  datatype TimeEncoding = Rfc3339NanoTime
  datatype CallerEncoding = ShortCaller
  datatype DurationEncoding = MillisDuration

  /** The fields of `zapcore.EncoderConfig` that `encoderConfig` sets. */
  datatype EncoderConfig = EncoderConfig(
    timeKey: string,
    levelKey: string,
    nameKey: string,
    callerKey: string,
    messageKey: string,
    stacktraceKey: string,
    lineEnding: string,
    encodeTime: TimeEncoding,
    encodeLevel: LevelEncoding,
    encodeCaller: CallerEncoding,
    encodeDuration: DurationEncoding)

  datatype Encoder = Encoder(kind: EncoderKind, config: EncoderConfig)

  /** One `zapcore.NewCore(enc, sink, level)`. */
  datatype Core = Core(encoder: Encoder, sink: Sink, level: Level)

  /** A structured field `zap.String(key, value)`. */
  datatype Field = Field(key: string, value: string)

  /** A `zap.Option`. `Supplied` stands for an option a caller passes in. */
  datatype LogOption =
    | Supplied(tag: string)
    | AddCaller
    | AddCallerSkip(skip: int)
    | AddStacktrace(at: Level)
    | Sampler(tickNanos: int, first: int, thereafter: int)
    | Fields(fields: seq<Field>)

  /** A `*zap.Logger`: the tee of its cores, its options, and the fields that
      `With` has added to it. */
  datatype Logger = Logger(cores: seq<Core>, options: seq<LogOption>, context: seq<Field>)

  /** A `*zap.SugaredLogger` wrapping a logger. */
  datatype SugaredLogger = Sugared(base: Logger)

  /** One call of a logging method: which logger, at which level, what message. */
  datatype Entry = Entry(logger: Logger, level: Level, message: string)

  const DefaultMaxSize: int := 128
  const DefaultMaxBackups: int := 7
  const DefaultMaxAge: int := 7
  const SecondNanos: int := 1000000000
  const SampleFirst: int := 100
  const SampleThereafter: int := 100

  // ---- pure decision rules ----

  /** `parseLevel`. */
  function ParseLevel(lv: string): Level {
    var s := Lower(lv);
    if s == "debug" then Debug
    else if s == "warn" || s == "warning" then Warn
    else if s == "error" then Error
    else Info
  }

  /** The level parser is case-insensitive, and every unknown name means Info. */
  lemma ParseLevelSpec(lv: string)
    ensures ParseLevel(lv) == Debug <==> Lower(lv) == "debug"
    ensures ParseLevel(lv) == Warn <==> Lower(lv) == "warn" || Lower(lv) == "warning"
    ensures ParseLevel(lv) == Error <==> Lower(lv) == "error"
    ensures ParseLevel(lv) == Info <==> Lower(lv) != "debug" && Lower(lv) != "warn" && Lower(lv) != "warning" && Lower(lv) != "error"
  {
  }

  /** The canonical lower-case name of a level. */
  function LevelName(l: Level): string {
    match l
    case Debug => "debug"
    case Info => "info"
    case Warn => "warn"
    case Error => "error"
  }

  /** The level parser only looks at its argument up to case. */
  lemma ParseLevelIgnoresCase(s: string, t: string)
    requires EqualFold(s, t)
    ensures ParseLevel(s) == ParseLevel(t)
  {
    SameLowerIffEqualFold(s, t);
  }

  /** A level name spelled with U+0130 for its capital I still parses, since
      `strings.ToLower` turns that letter into 'i'. */
  lemma ParseLevelDottedCapitalI()
    ensures ParseLevel("WARN" + [DottedCapitalI] + "NG") == Warn
  {
    assert Lower("WARN" + [DottedCapitalI] + "NG") == "warning";
  }

  /** Every level's name, in lower or upper case, parses back to that level. */
  lemma ParseLevelRoundTrip(l: Level)
    ensures ParseLevel(LevelName(l)) == l
    ensures ParseLevel(Upper(LevelName(l))) == l
  {
    var name := LevelName(l);
    LevelNameIsLower(l);
    assert ParseLevel(name) == l;
    UpperEqualFold(name);
    ParseLevelIgnoresCase(Upper(name), name);
  }

  /** Level names contain no capitals. */
  lemma LevelNameIsLower(l: Level)
    ensures Lower(LevelName(l)) == LevelName(l)
  {
    match l
    case Debug => LowerOfLowercase("debug");
    case Info => LowerOfLowercase("info");
    case Warn => LowerOfLowercase("warn");
    case Error => LowerOfLowercase("error");
  }

  /** `defaultInt`: keep a positive setting, otherwise fall back to `def`. */
  function DefaultInt(v: int, def: int): (r: int)
    ensures r == v || r == def
    ensures v > 0 ==> r == v
    ensures v <= 0 ==> r == def
    ensures def > 0 ==> r > 0
  {
    if v > 0 then v else def
  }

  /** `writerFor`. */
  function WriterFor(path: string): Sink {
    var p := Lower(path);
    if p == "stdout" then Stdout
    else if p == "stderr" then Stderr
    else RotatingFile(path, DefaultMaxSize, DefaultMaxBackups, DefaultMaxAge, true)
  }

  /** "stdout" and "stderr" in any case select the standard streams; any
      other path is a rotating file under its own name with the fixed 128/7/7
      limits and compression on. */
  lemma WriterForSpec(path: string)
    ensures WriterFor(path) == Stdout <==> Lower(path) == "stdout"
    ensures WriterFor(path) == Stderr <==> Lower(path) == "stderr"
    ensures WriterFor(path).RotatingFile? <==> Lower(path) != "stdout" && Lower(path) != "stderr"
    ensures WriterFor(path).RotatingFile? ==>
              WriterFor(path) == RotatingFile(path, DefaultMaxSize, DefaultMaxBackups, DefaultMaxAge, true)
  {
  }

  /** The literal "stdout" selects standard output. */
  lemma StdoutSelected()
    ensures WriterFor("stdout") == Stdout
  {
    LowerOfLowercase("stdout");
  }

  /** Paths that agree up to case select the same standard stream; a file
      path keeps its spelling. */
  lemma WriterForIgnoresCase(s: string, t: string)
    requires EqualFold(s, t)
    ensures WriterFor(s).RotatingFile? == WriterFor(t).RotatingFile?
    ensures !WriterFor(s).RotatingFile? ==> WriterFor(s) == WriterFor(t)
  {
    SameLowerIffEqualFold(s, t);
  }

  /** `encoderConfig`: the key names and encoders shared by both encodings. */
  function EncoderConfigFor(dev: bool): EncoderConfig {
    var base := EncoderConfig("ts", "level", "logger", "caller", "msg", "stack", "\n",
                              Rfc3339NanoTime, LowercaseLevel, ShortCaller, MillisDuration);
    if dev then base.(encodeLevel := CapitalColorLevel) else base
  }

  /** The six record keys are pairwise distinct, so no field of a record
      overwrites another, and levels are coloured exactly in development mode. */
  lemma EncoderConfigSpec(dev: bool)
    ensures var c := EncoderConfigFor(dev);
      && |{c.timeKey, c.levelKey, c.nameKey, c.callerKey, c.messageKey, c.stacktraceKey}| == 6
      && (c.encodeLevel == CapitalColorLevel <==> dev)
  {
  }

  /** The encoder `New` picks. */
  function EncoderFor(cfg: Config): Encoder {
    Encoder(if Lower(cfg.encoding) == "console" then Console else Json, EncoderConfigFor(cfg.development))
  }

  /** Console exactly when the encoding is "console" up to case, so an empty or
      any other value gives JSON; the key layout follows the development flag. */
  lemma EncoderForSpec(cfg: Config)
    ensures EncoderFor(cfg).kind == Console <==> EqualFold(cfg.encoding, "console")
    ensures EncoderFor(cfg).config == EncoderConfigFor(cfg.development)
  {
    LowerOfLowercase("console");
    SameLowerIffEqualFold(cfg.encoding, "console");
  }

  /** Output paths after the empty-list default. */
  function EffectivePaths(cfg: Config): seq<string> {
    if |cfg.outputPaths| == 0 then ["stdout"] else cfg.outputPaths
  }

  /** Whether the extra rotating-file core is built. */
  predicate FileEnabled(f: FileRotate) {
    f.enable && f.filename != ""
  }

  /** The sink of the optional file core, with 128/7/7 replacing non-positive limits. */
  function FileSink(f: FileRotate): Sink {
    RotatingFile(f.filename, DefaultInt(f.maxSize, DefaultMaxSize), DefaultInt(f.maxBackups, DefaultMaxBackups),
                 DefaultInt(f.maxAge, DefaultMaxAge), f.compress)
  }

  /** One core per path, in the order of the paths. */
  function OutputCores(enc: Encoder, level: Level, paths: seq<string>): (cores: seq<Core>)
    ensures |cores| == |paths|
    ensures forall i :: 0 <= i < |paths| ==> cores[i] == Core(enc, WriterFor(paths[i]), level)
  {
    if paths == [] then []
    else OutputCores(enc, level, paths[..|paths| - 1]) + [Core(enc, WriterFor(paths[|paths| - 1]), level)]
  }

  /** The cores `New` tees together: one per output path, then the file core. */
  function CoresFor(cfg: Config): seq<Core> {
    var enc := EncoderFor(cfg);
    var level := ParseLevel(cfg.level);
    OutputCores(enc, level, EffectivePaths(cfg))
      + (if FileEnabled(cfg.file) then [Core(enc, FileSink(cfg.file), level)] else [])
  }

  /** The options `New` passes to `zap.New`: the caller's own, then caller
      annotation, stack traces, sampling, and the service fields last. */
  function OptionsFor(cfg: Config, opts: seq<LogOption>): seq<LogOption> {
    opts
      + (if cfg.enableCaller then [AddCaller, AddCallerSkip(1)] else [])
      + (if cfg.enableStacktrace then [AddStacktrace(Error)] else [])
      + (if cfg.sampling then [Sampler(SecondNanos, SampleFirst, SampleThereafter)] else [])
      + [Fields(ServiceFields(cfg))]
  }

  function ServiceFields(cfg: Config): seq<Field> {
    [Field("svc", cfg.serviceName), Field("env", cfg.environment)]
  }

  /** The logger `New(cfg, opts...)` builds. */
  function LoggerFor(cfg: Config, opts: seq<LogOption>): Logger {
    Logger(CoresFor(cfg), OptionsFor(cfg, opts), [])
  }

  /** The sink plan: one core per output path in order ("stdout" alone when
      there are none), plus one file core exactly when the file section is
      enabled with a name; all cores share the encoder and level. */
  lemma SinkPlan(cfg: Config, opts: seq<LogOption>)
    ensures var cores := LoggerFor(cfg, opts).cores;
      && |cores| == (if cfg.outputPaths == [] then 1 else |cfg.outputPaths|) + (if FileEnabled(cfg.file) then 1 else 0)
      && (cfg.outputPaths == [] ==> cores[0].sink == Stdout)
      && (forall i :: 0 <= i < |cfg.outputPaths| ==> cores[i].sink == WriterFor(cfg.outputPaths[i]))
      && (FileEnabled(cfg.file) ==> cores[|cores| - 1].sink == FileSink(cfg.file))
      && (forall c :: c in cores ==> c.encoder == EncoderFor(cfg) && c.level == ParseLevel(cfg.level))
  {
    if cfg.outputPaths == [] {
      LowerOfLowercase("stdout");
    }
  }

  /** Every rotating file the logger writes to has positive size, backup and age limits. */
  lemma RotationLimitsPositive(cfg: Config, opts: seq<LogOption>)
    ensures forall c :: c in LoggerFor(cfg, opts).cores && c.sink.RotatingFile? ==>
              c.sink.maxSize > 0 && c.sink.maxBackups > 0 && c.sink.maxAge > 0
  {
  }

  /** Each toggle contributes its options exactly when it is set: caller
      annotation, stack traces at Error, and the 1 s/100/100 sampler. */
  lemma OptionToggles(cfg: Config, opts: seq<LogOption>)
    requires forall o :: o in opts ==> o.Supplied?
    ensures AddCaller in OptionsFor(cfg, opts) <==> cfg.enableCaller
    ensures AddCallerSkip(1) in OptionsFor(cfg, opts) <==> cfg.enableCaller
    ensures AddStacktrace(Error) in OptionsFor(cfg, opts) <==> cfg.enableStacktrace
    ensures Sampler(SecondNanos, SampleFirst, SampleThereafter) in OptionsFor(cfg, opts) <==> cfg.sampling
  {
  }

  /** The option order: the caller's options first, then caller annotation
      with skip 1, then stack traces, then the sampler, and the `svc`/`env`
      fields always last. */
  lemma OptionOrder(cfg: Config, opts: seq<LogOption>)
    ensures var os := OptionsFor(cfg, opts);
      var skip := if cfg.enableCaller then 2 else 0;
      var stack := if cfg.enableStacktrace then 1 else 0;
      && |os| == |opts| + skip + stack + (if cfg.sampling then 1 else 0) + 1
      && os[..|opts|] == opts
      && (cfg.enableCaller ==> os[|opts|] == AddCaller && os[|opts| + 1] == AddCallerSkip(1))
      && (cfg.enableStacktrace ==> os[|opts| + skip] == AddStacktrace(Error))
      && (cfg.sampling ==> os[|opts| + skip + stack] == Sampler(SecondNanos, SampleFirst, SampleThereafter))
      && os[|os| - 1] == Fields([Field("svc", cfg.serviceName), Field("env", cfg.environment)])
  {
  }

  /** `New` never reads `ErrorOutputPaths`: two configs differing only there
      build the same logger. */
  lemma ErrorOutputPathsIgnored(cfg: Config, other: seq<string>, opts: seq<LogOption>)
    ensures LoggerFor(cfg.(errorOutputPaths := other), opts) == LoggerFor(cfg, opts)
  {
  }

  // ---- presets ----

  /** `DevConfig`. */
  function DevConfig(): Config {
    Config("debug", "console", true, true, false, false, ["stdout"], ["stderr"], "example-svc", "dev",
           FileRotate("", 0, 0, 0, false, false))
  }

  /** `ProdConfig`. */
  function ProdConfig(): Config {
    Config("info", "json", false, true, true, true, ["stdout"], ["stderr"], "example-svc", "prod",
           FileRotate("./logs/app.log", 256, 10, 14, true, true))
  }

  /** The development preset builds a debug-level, human-readable logger on
      stdout alone, with caller annotation and no sampling. */
  lemma DevPreset()
    ensures LoggerFor(DevConfig(), []) ==
      Logger([Core(Encoder(Console, EncoderConfigFor(true)), Stdout, Debug)],
             [AddCaller, AddCallerSkip(1), Fields([Field("svc", "example-svc"), Field("env", "dev")])],
             [])
  {
    DevCores(DevConfig());
    DevOptions();
  }

  /** The development preset's single core. The preset arrives as a variable
      so that the prover does not evaluate the whole literal at once. */
  lemma DevCores(cfg: Config)
    requires cfg == DevConfig()
    ensures CoresFor(cfg) == [Core(Encoder(Console, EncoderConfigFor(true)), Stdout, Debug)]
  {
    assert ParseLevel(cfg.level) == Debug by {
      ParseLevelRoundTrip(Debug);
    }
    assert EncoderFor(cfg) == Encoder(Console, EncoderConfigFor(true)) by {
      ConsoleSelected();
    }
    StdoutCores(cfg);
  }

  /** The development preset's options: caller annotation, then the fields. */
  lemma DevOptions()
    ensures OptionsFor(DevConfig(), []) == [AddCaller, AddCallerSkip(1), Fields([Field("svc", "example-svc"), Field("env", "dev")])]
  {
    var cfg := DevConfig();
    assert OptionsFor(cfg, []) == [] + [AddCaller, AddCallerSkip(1)] + [] + [] + [Fields(ServiceFields(cfg))];
  }

  /** "console" is already lower case. */
  lemma ConsoleSelected()
    ensures Lower("console") == "console"
  {
    LowerOfLowercase("console");
  }

  /** With "stdout" as the only output path, the cores are the stdout core
      followed by the file core when that is enabled. */
  lemma StdoutCores(cfg: Config)
    requires cfg.outputPaths == ["stdout"]
    ensures CoresFor(cfg) == [Core(EncoderFor(cfg), Stdout, ParseLevel(cfg.level))]
      + (if FileEnabled(cfg.file) then [Core(EncoderFor(cfg), FileSink(cfg.file), ParseLevel(cfg.level))] else [])
  {
    StdoutSelected();
    assert OutputCores(EncoderFor(cfg), ParseLevel(cfg.level), ["stdout"]) == [Core(EncoderFor(cfg), Stdout, ParseLevel(cfg.level))];
  }

  /** The production preset builds an info-level JSON logger on stdout and on
      the rotating file ./logs/app.log (256 MB, 10 backups, 14 days,
      compressed), annotated, stack-traced at Error and sampled. */
  lemma ProdPreset()
    ensures LoggerFor(ProdConfig(), []) ==
      Logger([Core(Encoder(Json, EncoderConfigFor(false)), Stdout, Info),
              Core(Encoder(Json, EncoderConfigFor(false)), RotatingFile("./logs/app.log", 256, 10, 14, true), Info)],
             [AddCaller, AddCallerSkip(1), AddStacktrace(Error), Sampler(SecondNanos, SampleFirst, SampleThereafter),
              Fields([Field("svc", "example-svc"), Field("env", "prod")])],
             [])
  {
    ProdCores(ProdConfig());
    ProdOptions();
  }

  /** The production preset's stdout core and file core; the preset arrives
      as a variable, as in `DevCores`. */
  lemma ProdCores(cfg: Config)
    requires cfg == ProdConfig()
    ensures CoresFor(cfg) ==
      [Core(Encoder(Json, EncoderConfigFor(false)), Stdout, Info),
       Core(Encoder(Json, EncoderConfigFor(false)), RotatingFile("./logs/app.log", 256, 10, 14, true), Info)]
  {
    assert ParseLevel(cfg.level) == Info by {
      ParseLevelRoundTrip(Info);
    }
    assert EncoderFor(cfg) == Encoder(Json, EncoderConfigFor(false)) by {
      JsonSelected();
    }
    StdoutCores(cfg);
    assert FileSink(cfg.file) == RotatingFile("./logs/app.log", 256, 10, 14, true);
  }

  /** The production preset's options. */
  lemma ProdOptions()
    ensures OptionsFor(ProdConfig(), []) ==
      [AddCaller, AddCallerSkip(1), AddStacktrace(Error), Sampler(SecondNanos, SampleFirst, SampleThereafter),
       Fields([Field("svc", "example-svc"), Field("env", "prod")])]
  {
    var cfg := ProdConfig();
    assert OptionsFor(cfg, []) == [] + [AddCaller, AddCallerSkip(1)] + [AddStacktrace(Error)]
      + [Sampler(SecondNanos, SampleFirst, SampleThereafter)] + [Fields(ServiceFields(cfg))];
  }

  /** "json" is already lower case. */
  lemma JsonSelected()
    ensures Lower("json") == "json"
  {
    LowerOfLowercase("json");
  }

  // ---- New ----

  /** The loop of `New` that appends one core per output path. */
  method PathCores(enc: Encoder, level: Level, paths: seq<string>) returns (cores: seq<Core>)
    ensures cores == OutputCores(enc, level, paths)
  {
    cores := [];
    for i := 0 to |paths|
      invariant cores == OutputCores(enc, level, paths[..i])
    {
      assert paths[..i + 1][..i] == paths[..i];
      cores := cores + [Core(enc, WriterFor(paths[i]), level)];
    }
    assert paths[..|paths|] == paths;
  }

  /** The first half of `New`: the output-path cores, then the file core. */
  method Cores(cfg: Config) returns (cores: seq<Core>)
    ensures cores == CoresFor(cfg)
  {
    var level := ParseLevel(cfg.level);
    var enc := EncoderFor(cfg);
    var paths := cfg.outputPaths;
    if |paths| == 0 {
      paths := ["stdout"];
    }
    cores := PathCores(enc, level, paths);
    assert cores == OutputCores(enc, level, EffectivePaths(cfg));
    if cfg.file.enable && cfg.file.filename != "" {
      var fw := RotatingFile(cfg.file.filename, DefaultInt(cfg.file.maxSize, DefaultMaxSize),
                             DefaultInt(cfg.file.maxBackups, DefaultMaxBackups),
                             DefaultInt(cfg.file.maxAge, DefaultMaxAge), cfg.file.compress);
      cores := cores + [Core(enc, fw, level)];
    }
  }

  /** `New`: builds the cores by appending one per output path and the
      options by a chain of appends. It never reports an error. */
  method New(cfg: Config, opts: seq<LogOption>) returns (logger: Logger, err: Option<string>)
    ensures err == None
    ensures logger == LoggerFor(cfg, opts)
  {
    var cores := Cores(cfg);
    var options := opts;
    if cfg.enableCaller {
      options := options + [AddCaller, AddCallerSkip(1)];
    }
    if cfg.enableStacktrace {
      options := options + [AddStacktrace(Error)];
    }
    if cfg.sampling {
      options := options + [Sampler(SecondNanos, SampleFirst, SampleThereafter)];
    }
    options := options + [Fields([Field("svc", cfg.serviceName), Field("env", cfg.environment)])];
    logger := Logger(cores, options, []);
    err := None;
  }

  // ---- WithContext ----

  /** A key stored in a `context.Context`. `LocalKey` values have the type
      `ctxKey` that `WithContext` declares inside its own body; `ForeignKey`
      stands for a key of any other type. */
  datatype CtxKey = LocalKey(name: string) | ForeignKey(typeName: string, name: string)

  /** A value stored in a context: a string or anything else. */
  datatype CtxValue = Str(s: string) | NonStr

  type Context = map<CtxKey, CtxValue>

  /** `ctx.Value(ctxKey(name)).(string)` with the failed assertion giving "". */
  function StringValue(ctx: Context, name: string): string {
    var k := LocalKey(name);
    if k in ctx && ctx[k].Str? then ctx[k].s else ""
  }

  /** The fields `WithContext` would add, in order, before dropping empty ones. */
  function Candidates(ctx: Context): seq<Field> {
    [Field("trace_id", StringValue(ctx, "trace_id")),
     Field("request_id", StringValue(ctx, "request_id")),
     Field("user_id", StringValue(ctx, "user_id"))]
  }

  /** Keeps the fields whose value is non-empty, in order (reference definition). */
  function NonEmpty(fs: seq<Field>): (r: seq<Field>)
    ensures |r| <= |fs|
    ensures forall f :: f in r ==> f in fs && f.value != ""
    ensures forall f :: f in fs && f.value != "" ==> f in r
  {
    if fs == [] then []
    else if fs[0].value != "" then [fs[0]] + NonEmpty(fs[1..])
    else NonEmpty(fs[1..])
  }

  /** The ID fields `WithContext` appends: trace, request, user, each only when non-empty. */
  function ContextFields(ctx: Context): (fs: seq<Field>)
    ensures forall f :: f in fs ==> f.value != ""
    ensures forall k :: 0 <= k < |fs| ==> fs[k].key in ["trace_id", "request_id", "user_id"]
  {
    var trace := StringValue(ctx, "trace_id");
    var user := StringValue(ctx, "user_id");
    var req := StringValue(ctx, "request_id");
    (if trace != "" then [Field("trace_id", trace)] else [])
      + (if req != "" then [Field("request_id", req)] else [])
      + (if user != "" then [Field("user_id", user)] else [])
  }

  /** The conditional appends select exactly the non-empty candidates, in order. */
  lemma ContextFieldsAreNonEmptyCandidates(ctx: Context)
    ensures ContextFields(ctx) == NonEmpty(Candidates(ctx))
  {
    var cs := Candidates(ctx);
    assert NonEmpty(cs[2..]) == (if cs[2].value != "" then [cs[2]] else []) by {
      assert cs[2..][1..] == [];
    }
    assert NonEmpty(cs[1..]) == (if cs[1].value != "" then [cs[1]] else []) + NonEmpty(cs[2..]) by {
      assert cs[1..][1..] == cs[2..];
    }
    assert NonEmpty(cs) == (if cs[0].value != "" then [cs[0]] else []) + NonEmpty(cs[1..]);
  }

  /** `l.With(fields...)`: a child logger carrying the extra fields. */
  function With(l: Logger, fs: seq<Field>): Logger {
    l.(context := l.context + fs)
  }

  /** What `WithContext` returns for base logger `l`. */
  function Decorate(l: Logger, ctx: Option<Context>): (r: Logger)
    ensures ctx.None? ==> r == l
    ensures ctx.Some? && ContextFields(ctx.value) == [] ==> r == l
    ensures r.cores == l.cores && r.options == l.options
    ensures ctx.Some? ==> r.context == l.context + ContextFields(ctx.value)
  {
    if ctx.None? then l
    else
      var fs := ContextFields(ctx.value);
      if |fs| == 0 then l else With(l, fs)
  }

  /** A context any caller outside `WithContext` can build: since `ctxKey` is
      local to that function, no caller can store a key of that type. */
  ghost predicate CallerBuilt(ctx: Context) {
    forall k :: k in ctx ==> k.ForeignKey?
  }

  /** So for every context a caller can build, `WithContext` adds nothing and
      returns the base logger unchanged. */
  lemma WithContextAddsNothing(l: Logger, ctx: Context)
    requires CallerBuilt(ctx)
    ensures ContextFields(ctx) == []
    ensures Decorate(l, Some(ctx)) == l
  {
    assert LocalKey("trace_id") !in ctx && LocalKey("request_id") !in ctx && LocalKey("user_id") !in ctx;
  }

  // ---- process-wide state ----

  /** The logger `L` falls back to or keeps. */
  function Current(g: Option<Logger>): (l: Logger)
    ensures g.Some? ==> l == g.value
  {
    if g.Some? then g.value else LoggerFor(DevConfig(), [])
  }

  function SugarOf(g: Option<Logger>): Option<SugaredLogger> {
    if g.Some? then Some(Sugared(g.value)) else None
  }

  /** The package globals `globalLogger`/`globalSugar`, what
      `zap.ReplaceGlobals` last installed (`None` while zap still has its own
      default), and the log calls made through `L` so far. */
  class Registry {
    var globalLogger: Option<Logger>
    var globalSugar: Option<SugaredLogger>
    var zapGlobal: Option<Logger>
    var journal: seq<Entry>

    /** The two globals are set together: the sugared one wraps the plain one,
        and zap's globals follow them. */
    ghost predicate Valid()
      reads this
    {
      && globalSugar == SugarOf(globalLogger)
      && (globalLogger.Some? ==> zapGlobal == globalLogger)
    }

    /** Process start: nothing installed. */
    constructor ()
      ensures Valid()
      ensures globalLogger == None && zapGlobal == None && journal == []
    {
      globalLogger := None;
      globalSugar := None;
      zapGlobal := None;
      journal := [];
    }

    /** `InitGlobal`: build a logger and install it in both globals and in zap. */
    method InitGlobal(cfg: Config, opts: seq<LogOption>) returns (err: Option<string>)
      modifies this
      ensures Valid()
      ensures err == None
      ensures globalLogger == Some(LoggerFor(cfg, opts))
      ensures journal == old(journal)
    {
      var logger, e := New(cfg, opts);
      if e.Some? {
        return e;
      }
      globalLogger := Some(logger);
      globalSugar := Some(Sugared(logger));
      zapGlobal := Some(logger);
      err := None;
    }

    /** `L`: install the development preset if nothing is installed, and
        return the installed logger. */
    method L() returns (l: Logger)
      requires Valid()
      modifies this
      ensures Valid()
      ensures l == Current(old(globalLogger))
      ensures globalLogger == Some(l)
      ensures old(globalLogger).Some? ==> unchanged(this)
      ensures journal == old(journal)
    {
      if globalLogger.None? {
        var _ := InitGlobal(DevConfig(), []);
      }
      l := globalLogger.value;
    }

    /** `S`: the same for the sugared logger. */
    method S() returns (s: SugaredLogger)
      requires Valid()
      modifies this
      ensures Valid()
      ensures s == Sugared(Current(old(globalLogger)))
      ensures globalSugar == Some(s)
      ensures old(globalSugar).Some? ==> unchanged(this)
      ensures journal == old(journal)
    {
      if globalSugar.None? {
        var _ := InitGlobal(DevConfig(), []);
      }
      s := globalSugar.value;
    }

    /** `WithContext`: the current logger (via `L`) decorated with the IDs found in `ctx`. */
    method WithContext(ctx: Option<Context>) returns (l: Logger)
      requires Valid()
      modifies this
      ensures Valid()
      ensures l == Decorate(Current(old(globalLogger)), ctx)
      ensures globalLogger == Some(Current(old(globalLogger)))
      ensures old(globalLogger).Some? ==> unchanged(this)
      ensures journal == old(journal)
    {
      var base := L();
      if ctx.None? {
        return base;
      }
      var fields := ContextFields(ctx.value);
      if |fields| == 0 {
        return base;
      }
      l := With(base, fields);
    }

    /** `L().Info(msg)`: one Info call through the current logger. */
    method Info(msg: string)
      requires Valid()
      modifies this
      ensures Valid()
      ensures globalLogger == Some(Current(old(globalLogger)))
      ensures zapGlobal == if old(globalLogger).Some? then old(zapGlobal) else globalLogger
      ensures journal == old(journal) + [Entry(Current(old(globalLogger)), Level.Info, msg)]
    {
      var l := L();
      journal := journal + [Entry(l, Level.Info, msg)];
    }
  }
}
