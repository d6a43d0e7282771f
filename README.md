# zap_h8 logger factory, modelled in Dafny

The package `zap_h8` (file `configuration.go`) builds one process-wide zap logger from a YAML
file. It loads the file into a `Config`, derives from it an encoder (JSON or console, with
development or production labels), a writer (standard output or a lumberjack rotating file), a
level stored in a shared `AtomicLevel` cell, and a list of logger options (caller capture, stack
traces at Error, and an optional sampler). `GetLogger` runs this load-and-build sequence once,
guarded by `sync.Once`, and caches the result. When loading fails it caches a no-op logger
instead.

The model has five modules:

- `Wrappers`: `Option` (Go's nil pointers) and `Result` (Go's `(value, error)` returns).
- `Levels`: zapcore's levels, the level-parser parameter, the Info fallback, and the
  `AtomicLevel` cell as a class.
- `Configuration`: the `Config` record, `loadConfig` with its two error kinds, their messages,
  and `Config.String`.
- `Pipeline`: `getEncoder`, `getWriter`, the option list, `setLogLevel` and `buildLogger`.
  The results are descriptors of what zap would be given, not zap itself.
- `Factory`: `GetLogger` in two forms. One is a pure state machine (`Step`, and `Run` over any
  sequence of calls) with lemmas about it. The other is the class `LoggerFactory`, whose fields
  are the package variables and whose method `GetLogger` is proved to follow `Step`.

These foreign calls are function-valued parameters, bundled in `Factory.Env`:

- `os.ReadFile` is `FileReader`: a path gives bytes or an error message.
- `yaml.Unmarshal` is `Decoder`: bytes give a `Config` or an error message.
- `zapcore.ParseLevel` is `LevelParser`: a partial map from level names to levels.

`sync.Once` becomes the test "the state is still `Uninitialized`", with one caller at a time.

On a load failure, line 119 caches `zap.NewNop()`, but lines 135-136 still give the first caller
a nil logger together with the error; only later callers receive the cached no-op logger. See
`Factory.Initialize` and `Factory.FailureSplit`.

## Model

| member | source | states |
|---|---|---|
| `Levels.LevelOrDefault` | configuration.go:67-71 | the stored level is the parsed level when the label parses, and Info when it does not |
| `Levels.AtomicLevel.constructor` | configuration.go:16 | a new shared level cell holds Info |
| `Levels.AtomicLevel.SetLevel` | configuration.go:72 | setting the cell stores exactly the given level |
| `Configuration.Message` | configuration.go:40-45 | a load error's text is a 26-character prefix, "error reading log config: " for read errors and "error parsing log config: " for parse errors, followed by the wrapped cause |
| `Configuration.MessagesTellKindsApart` | configuration.go:40-45 | no read error's text equals any parse error's text, whatever the causes |
| `Configuration.LoadConfig` | configuration.go:37-48 | an unreadable file gives a read error carrying the reader's error; readable bytes that do not decode give a parse error carrying the decoder's error; otherwise the result is the decoded config |
| `Configuration.ReadFailureSkipsDecoding` | configuration.go:38-41 | when the read fails, the result is the same for every decoder, so decoding is never attempted |
| `Configuration.ToString` | configuration.go:108-110 | the rendering is "Level: ", the level, ", Development: ", "true" or "false", ", OutputPath: ", then the path, each part at a fixed position |
| `Configuration.ToStringDeterminesFields` | configuration.go:108-110 | two configs whose levels have the same length and whose renderings are equal agree on level, development flag and output path |
| `Pipeline.GetEncoder` | configuration.go:50-65 | the encoder is JSON iff the encoding is exactly "json", console otherwise; colour capital labels and the development preset are used iff in development mode, lowercase labels otherwise; time is ISO8601 and callers are short in both modes |
| `Pipeline.EncoderDeterminedByModeAndJson` | configuration.go:50-65 | two configs get the same encoder iff they agree on the development flag and on whether the encoding equals "json" |
| `Pipeline.GetWriter` | configuration.go:74-85 | development mode writes to stdout; otherwise the writer is a rotating file with the config's output path, max size, max backups, max age and compress flag |
| `Pipeline.WriterParametersRoundTrip` | configuration.go:78-84 | reading the parameters back from the writer gives exactly the config's output path and rotation block in production, and nothing in development |
| `Pipeline.DevelopmentWriterIgnoresFileFields` | configuration.go:75-77 | in development mode the writer is the same whatever the output path and rotation |
| `Pipeline.LoggerOptions` | configuration.go:95-104 | the options start with AddCaller then AddStacktrace(Error); a third option, a sampler with a one-second window and the config's initial and thereafter, is present iff sampling is configured |
| `Pipeline.SamplingRoundTrip` | configuration.go:100-104 | the options carry the config's sampling policy unchanged, and some option is a sampler wrap iff sampling is configured |
| `Pipeline.BuiltLogger` | configuration.go:89-106 | the built logger is never the no-op logger; its core uses the shared level cell itself, the config's encoder and writer, and the config's option list |
| `Pipeline.SetLogLevel` | configuration.go:67-73 | after the call the shared cell holds the parsed level, or Info when the label does not parse |
| `Pipeline.BuildLogger` | configuration.go:87-107 | sets the shared level, then returns the logger over that same cell with the config's encoder, writer and options; it returns a logger on every path |
| `Factory.Initialize` | configuration.go:114-138 | a load failure caches the no-op logger and returns a nil logger and the error; a successful load caches the built logger and returns it with no error |
| `Factory.Step` | configuration.go:112-139 | a call loads iff the factory is uninitialised; a later call keeps the state and returns the cached logger with no error |
| `Factory.Run` | configuration.go:112-139 | a sequence of calls gives one reply per call |
| `Factory.RunWhenInitialized` | configuration.go:114-138 | once initialised, no call loads or changes the state, and every call returns the cached logger with no error, whatever its path |
| `Factory.FirstCallDecides` | configuration.go:112-139 | from the start, only the first call loads; it fixes the final state, and every later call returns the logger it cached |
| `Factory.AtMostOnce` | configuration.go:114-133 | over any sequence of calls the configuration is loaded at most once, and exactly once iff the factory starts uninitialised and is called at least once |
| `Factory.LaterPathsIgnored` | configuration.go:112-115 | the final state depends only on the first call's path |
| `Factory.FailureSplit` | configuration.go:113-138 | on a load failure the first caller gets a nil logger and the wrapped error, and every later caller gets the no-op logger and no error |
| `Factory.SuccessShared` | configuration.go:122-138 | on a successful load every caller, the first included, gets the same built logger and no error |
| `Factory.LoggerFactory.constructor` | configuration.go:15-19 | the package starts uninitialised, nothing loaded, no records logged, with a fresh level cell at Info |
| `Factory.LoggerFactory.GetLogger` | configuration.go:112-139 | the new state and the reply are those of `Step`; the first successful call sets the shared level and logs one "Logger initialized" record with level, development and output_path; every other call leaves level and records unchanged |

## Left out

- YAML decoding and file reading are parameters of the model: which documents decode, and to
  which `Config`, is not modelled. Zero values for missing fields belong to the decoder.
- The labels `zapcore.ParseLevel` accepts are not modelled; the parser is any partial function.
- Zap internals are not modelled. This covers the sampler's counting rule (which repeated
  messages pass), the bytes the JSON and console encoders write, ISO8601 rendering, and the key
  names and duration format of the two stock encoder configurations. `PresetConfig` records
  only the three encoders `getEncoder` touches, with zap's documented defaults.
- Lumberjack's rotation mechanics are not modelled; only the parameters handed to it are.
- Concurrency is not modelled: the blocking of concurrent `sync.Once` callers, and the atomic
  visibility of `AtomicLevel`. Calls are taken one at a time.
- The console messages printed with `fmt.Printf` and `fmt.Println` (lines 117 and 130) are
  output and are not modelled.
- The branch for a nil logger after `buildLogger` (lines 129-132) cannot be taken, because
  `zap.New` never returns nil. `BuildLogger` returns a `Logger` on every path, so the branch is
  absent.
- `Factory.LoggerFactory.GetLogger` records the call to `logger.Info`. Whether that record
  passes the level gate and reaches the sink is not modelled.
