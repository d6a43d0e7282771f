/** From a Config to the pieces zap is given: encoder, writer, level gate and options. */
module Pipeline {
  import opened Wrappers
  import opened Levels
  import opened Configuration

  // ---------------------------------------------------------------- encoder

  datatype EncoderFormat = Json | Console

  /** How level names are written: colour capitals, plain capitals, or lower case. */
  datatype LevelLabels = CapitalColorLabels | CapitalLabels | LowercaseLabels

  datatype TimeFormat = ISO8601Time | EpochTime

  datatype CallerFormat = ShortCaller | FullCaller

  /** Which of zap's two stock encoder configurations the encoder starts from
      (they also differ in key names and duration format, which are not modelled). */
  datatype Preset = DevelopmentPreset | ProductionPreset

  datatype EncoderConfig = EncoderConfig(
    preset: Preset,
    levelLabels: LevelLabels,
    time: TimeFormat,
    caller: CallerFormat)

  datatype EncoderSpec = EncoderSpec(format: EncoderFormat, config: EncoderConfig)

  /** zap.NewDevelopmentEncoderConfig and zap.NewProductionEncoderConfig, restricted to the
      three encoders getEncoder touches. */
  function PresetConfig(p: Preset): EncoderConfig {
    match p
    case DevelopmentPreset => EncoderConfig(DevelopmentPreset, CapitalLabels, ISO8601Time, ShortCaller)
    case ProductionPreset => EncoderConfig(ProductionPreset, LowercaseLabels, EpochTime, ShortCaller)
  }

  /** Config.getEncoder, with the writes to the local encoderConfig folded into updates. */
  function GetEncoder(c: Config): (e: EncoderSpec)
    ensures e.format == Json <==> c.encoding == "json"
    ensures e.config.preset == DevelopmentPreset <==> c.development
    ensures e.config.levelLabels == CapitalColorLabels <==> c.development
    ensures !c.development ==> e.config.levelLabels == LowercaseLabels
    ensures e.config.time == ISO8601Time
    ensures e.config.caller == ShortCaller
  {
    var base :=
      if c.development then PresetConfig(DevelopmentPreset).(levelLabels := CapitalColorLabels)
      else PresetConfig(ProductionPreset);
    var encoderConfig := base.(time := ISO8601Time, caller := ShortCaller);
    if c.encoding == "json" then EncoderSpec(Json, encoderConfig)
    else EncoderSpec(Console, encoderConfig)
  }

  /** The encoder depends on exactly two facts about the config: the mode, and whether the
      encoding is the exact string "json". */
  lemma EncoderDeterminedByModeAndJson(c1: Config, c2: Config)
    ensures GetEncoder(c1) == GetEncoder(c2) <==>
      c1.development == c2.development && (c1.encoding == "json") == (c2.encoding == "json")
  {
  }

  // ---------------------------------------------------------------- writer

  /** The sink: the process's standard output, or a lumberjack rotating file. */
  datatype WriterSpec =
    | Stdout
    | RotatingFile(filename: string, maxSize: int, maxBackups: int, maxAge: int, compress: bool)

  /** Config.getWriter. */
  function GetWriter(c: Config): (w: WriterSpec)
    ensures c.development ==> w == Stdout
    ensures !c.development ==> w.RotatingFile?
    ensures !c.development ==> w.filename == c.outputPath
    ensures !c.development ==> w.maxSize == c.rotation.maxSize && w.maxBackups == c.rotation.maxBackups
    ensures !c.development ==> w.maxAge == c.rotation.maxAge && w.compress == c.rotation.compress
  {
    if c.development then Stdout
    else RotatingFile(c.outputPath, c.rotation.maxSize, c.rotation.maxBackups,
                      c.rotation.maxAge, c.rotation.compress)
  }

  /** The parameters a sink was built with, as its owner could read them back. */
  function SinkParameters(w: WriterSpec): Option<(string, RotationConfig)> {
    match w
    case Stdout => None
    case RotatingFile(f, size, backups, age, compress) =>
      Some((f, RotationConfig(size, backups, age, compress)))
  }

  /** In production mode the sink's parameters give back the output path and rotation policy
      exactly; in development mode there are none to read. */
  lemma WriterParametersRoundTrip(c: Config)
    ensures SinkParameters(GetWriter(c)) ==
      if c.development then None else Some((c.outputPath, c.rotation))
  {
  }

  /** In development mode the output path and the rotation block have no effect on the writer. */
  lemma DevelopmentWriterIgnoresFileFields(c1: Config, c2: Config)
    requires c1.development && c2.development
    ensures GetWriter(c1) == GetWriter(c2)
  {
  }

  // ---------------------------------------------------------------- options

  /** time.Second, in Go's nanosecond durations. */
  const ONE_SECOND: int := 1_000_000_000

  /** zap.Option values buildLogger passes; WrapSampler is the WrapCore closure around
      zapcore.NewSamplerWithOptions(core, tick, first, thereafter). */
  datatype LoggerOption =
    | AddCaller
    | AddStacktrace(threshold: Level)
    | WrapSampler(tick: int, first: int, thereafter: int)

  /** The option list buildLogger ends up with. */
  function LoggerOptions(c: Config): (opts: seq<LoggerOption>)
    ensures |opts| == if c.sampling.Some? then 3 else 2
    ensures opts[0] == AddCaller && opts[1] == AddStacktrace(Error)
    ensures c.sampling.Some? ==>
      opts[2] == WrapSampler(ONE_SECOND, c.sampling.value.initial, c.sampling.value.thereafter)
  {
    var options := [AddCaller, AddStacktrace(Error)];
    if c.sampling.Some? then
      options + [WrapSampler(ONE_SECOND, c.sampling.value.initial, c.sampling.value.thereafter)]
    else options
  }

  /** The sampling policy a list of options applies, read back from its sampler wrap. */
  function SamplingOf(opts: seq<LoggerOption>): Option<SamplingConfig> {
    if |opts| > 2 && opts[2].WrapSampler? then Some(SamplingConfig(opts[2].first, opts[2].thereafter))
    else None
  }

  /** The options carry the config's sampling policy unchanged, and the sampler wrap is present
      exactly when the config has a sampling block. */
  lemma SamplingRoundTrip(c: Config)
    ensures SamplingOf(LoggerOptions(c)) == c.sampling
    ensures (exists i :: 0 <= i < |LoggerOptions(c)| && LoggerOptions(c)[i].WrapSampler?) <==> c.sampling.Some?
  {
  }

  // ---------------------------------------------------------------- core and logger

  /** zapcore.NewCore(encoder, writer, level): `level` is the shared cell itself. */
  datatype Core = Core(encoder: EncoderSpec, writer: WriterSpec, level: AtomicLevel)

  /** A *zap.Logger: the no-op logger, or one built by zap.New(core, options...). */
  datatype Logger = Nop | Built(core: Core, options: seq<LoggerOption>)

  /** The logger buildLogger returns for `c` when the process's level cell is `cell`. */
  function BuiltLogger(c: Config, cell: AtomicLevel): (lg: Logger)
    ensures lg.Built? && lg.core.level == cell
    ensures lg.core.encoder == GetEncoder(c) && lg.core.writer == GetWriter(c)
    ensures lg.options == LoggerOptions(c)
  {
    Built(Core(GetEncoder(c), GetWriter(c), cell), LoggerOptions(c))
  }

  /** Config.setLogLevel: store the parsed level, falling back to Info; it cannot fail. */
  method SetLogLevel(c: Config, parse: LevelParser, cell: AtomicLevel)
    modifies cell
    ensures cell.level == LevelOrDefault(parse, c.level)
  {
    var parsedLevel := parse(c.level);
    var l: Level;
    if parsedLevel.None? {
      l := Info;
    } else {
      l := parsedLevel.value;
    }
    cell.SetLevel(l);
  }

  /** Config.buildLogger: set the shared level, build the core over it, collect the options and
      append the sampler wrap when sampling is configured. It always yields a logger. */
  method BuildLogger(c: Config, parse: LevelParser, cell: AtomicLevel) returns (lg: Logger)
    modifies cell
    ensures cell.level == LevelOrDefault(parse, c.level)
    ensures lg == BuiltLogger(c, cell)
  {
    SetLogLevel(c, parse, cell);
    var core := Core(GetEncoder(c), GetWriter(c), cell);
    var options := [AddCaller, AddStacktrace(Error)];
    if c.sampling.Some? {
      options := options + [WrapSampler(ONE_SECOND, c.sampling.value.initial, c.sampling.value.thereafter)];
    }
    lg := Built(core, options);
  }
}
