/** GetLogger: the process-wide logger, built at most once and cached, modelled for one caller
    at a time. The sync.Once guard is "the state is still Uninitialized". */
module Factory {
  import opened Wrappers
  import opened Levels
  import opened Configuration
  import opened Pipeline

  /** The foreign calls the factory depends on: os.ReadFile, yaml.Unmarshal, zapcore.ParseLevel. */
  datatype Env = Env(readFile: FileReader, unmarshal: Decoder, parseLevel: LevelParser)

  /** The package-level `logger` together with the `once` guard. */
  datatype FactoryState = Uninitialized | Ready(handle: Logger) | Degraded(nop: Logger)

  /** What one GetLogger call returns: a possibly nil logger, and a possibly nil error. */
  datatype Reply = Reply(handle: Option<Logger>, err: Option<LoadError>)

  /** The outcome of one call: the new state, the reply, and whether the file was loaded. */
  datatype StepResult = StepResult(state: FactoryState, reply: Reply, loaded: bool)

  /** The logger cached once initialisation has run. */
  function Cached(st: FactoryState): Logger
    requires !st.Uninitialized?
  {
    match st
    case Ready(h) => h
    case Degraded(n) => n
  }

  /** The body of once.Do followed by the return: on a load failure the no-op logger is cached
      but this caller gets a nil handle and the error; otherwise the built logger is cached and
      returned. */
  function Initialize(env: Env, cell: AtomicLevel, path: string): (r: StepResult)
    ensures r.loaded && !r.state.Uninitialized?
    ensures r.reply.err.Some? <==> LoadConfig(env.readFile, env.unmarshal, path).Failure?
    ensures r.reply.err.Some? ==>
      r.reply == Reply(None, Some(LoadConfig(env.readFile, env.unmarshal, path).error)) &&
      r.state == Degraded(Nop)
    ensures r.reply.err.None? ==>
      var lg := BuiltLogger(LoadConfig(env.readFile, env.unmarshal, path).value, cell);
      r.state == Ready(lg) && r.reply == Reply(Some(lg), None)
  {
    match LoadConfig(env.readFile, env.unmarshal, path)
    case Failure(e) => StepResult(Degraded(Nop), Reply(None, Some(e)), true)
    case Success(cfg) =>
      var lg := BuiltLogger(cfg, cell);
      StepResult(Ready(lg), Reply(Some(lg), None), true)
  }

  /** One GetLogger(path) call from state `st`. */
  function Step(env: Env, cell: AtomicLevel, st: FactoryState, path: string): (r: StepResult)
    ensures r.loaded <==> st.Uninitialized?
    ensures !st.Uninitialized? ==> r.state == st && r.reply == Reply(Some(Cached(st)), None)
  {
    if st.Uninitialized? then Initialize(env, cell, path)
    else StepResult(st, Reply(Some(Cached(st)), None), false)
  }

  /** A sequence of calls: the final state, every reply in order, and how many times the
      configuration was loaded. */
  datatype Trace = Trace(state: FactoryState, replies: seq<Reply>, loads: nat)

  function Run(env: Env, cell: AtomicLevel, st: FactoryState, paths: seq<string>): (t: Trace)
    ensures |t.replies| == |paths|
    decreases |paths|
  {
    if paths == [] then Trace(st, [], 0)
    else
      var first := Step(env, cell, st, paths[0]);
      var rest := Run(env, cell, first.state, paths[1..]);
      Trace(rest.state, [first.reply] + rest.replies, (if first.loaded then 1 else 0) + rest.loads)
  }

  /** Once initialised, no call loads again or changes the state, and every call gets the cached
      logger and no error, whatever path it passes. */
  lemma {:induction false} RunWhenInitialized(env: Env, cell: AtomicLevel, st: FactoryState, paths: seq<string>)
    requires !st.Uninitialized?
    ensures Run(env, cell, st, paths).state == st
    ensures Run(env, cell, st, paths).loads == 0
    ensures forall i :: 0 <= i < |paths| ==>
      Run(env, cell, st, paths).replies[i] == Reply(Some(Cached(st)), None)
    decreases |paths|
  {
    if paths != [] {
      RunWhenInitialized(env, cell, st, paths[1..]);
    }
  }

  /** From the start, the first call alone loads and decides the final state; every later call
      receives the logger it cached, with no error. */
  lemma {:induction false} FirstCallDecides(env: Env, cell: AtomicLevel, paths: seq<string>)
    requires |paths| > 0
    ensures var first := Initialize(env, cell, paths[0]);
      && Run(env, cell, Uninitialized, paths).state == first.state
      && Run(env, cell, Uninitialized, paths).loads == 1
      && Run(env, cell, Uninitialized, paths).replies[0] == first.reply
      && forall i :: 1 <= i < |paths| ==>
           Run(env, cell, Uninitialized, paths).replies[i] == Reply(Some(Cached(first.state)), None)
  {
    var first := Initialize(env, cell, paths[0]);
    RunWhenInitialized(env, cell, first.state, paths[1..]);
  }

  /** Over any sequence of calls the configuration is loaded at most once, and exactly once when
      the factory starts uninitialised and is called at all. */
  lemma AtMostOnce(env: Env, cell: AtomicLevel, st: FactoryState, paths: seq<string>)
    ensures Run(env, cell, st, paths).loads <= 1
    ensures Run(env, cell, st, paths).loads == 1 <==> st.Uninitialized? && |paths| > 0
  {
    if st.Uninitialized? {
      if paths != [] {
        FirstCallDecides(env, cell, paths);
      }
    } else {
      RunWhenInitialized(env, cell, st, paths);
    }
  }

  /** The final state depends only on the first path: later paths, even ones that cannot be
      read, are never looked at. */
  lemma LaterPathsIgnored(env: Env, cell: AtomicLevel, p: string, ps: seq<string>, qs: seq<string>)
    ensures Run(env, cell, Uninitialized, [p] + ps).state == Run(env, cell, Uninitialized, [p] + qs).state
  {
    FirstCallDecides(env, cell, [p] + ps);
    FirstCallDecides(env, cell, [p] + qs);
  }

  /** When loading fails, the first caller gets a nil logger and the wrapped error; every later
      caller gets the cached no-op logger and no error. */
  lemma FailureSplit(env: Env, cell: AtomicLevel, paths: seq<string>)
    requires |paths| > 0
    requires LoadConfig(env.readFile, env.unmarshal, paths[0]).Failure?
    ensures Run(env, cell, Uninitialized, paths).state == Degraded(Nop)
    ensures Run(env, cell, Uninitialized, paths).replies[0] ==
      Reply(None, Some(LoadConfig(env.readFile, env.unmarshal, paths[0]).error))
    ensures forall i :: 1 <= i < |paths| ==>
      Run(env, cell, Uninitialized, paths).replies[i] == Reply(Some(Nop), None)
  {
    FirstCallDecides(env, cell, paths);
  }

  /** When loading succeeds, every caller, the first included, gets the same built logger over
      the shared level cell, and no error. */
  lemma SuccessShared(env: Env, cell: AtomicLevel, paths: seq<string>)
    requires |paths| > 0
    requires LoadConfig(env.readFile, env.unmarshal, paths[0]).Success?
    ensures var lg := BuiltLogger(LoadConfig(env.readFile, env.unmarshal, paths[0]).value, cell);
      Run(env, cell, Uninitialized, paths).state == Ready(lg) &&
      forall i :: 0 <= i < |paths| ==> Run(env, cell, Uninitialized, paths).replies[i] == Reply(Some(lg), None)
  {
    FirstCallDecides(env, cell, paths);
  }

  /** The Info record logged once the logger is ready, with its three fields. */
  datatype Announcement = Announcement(message: string, level: string, development: bool, outputPath: string)

  /** The factory object: the package variables `atomicLevel`, `once` and `logger`. */
  class LoggerFactory {
    const env: Env
    const cell: AtomicLevel
    var state: FactoryState
    /** The Info calls made on the built logger, in order. */
    var announcements: seq<Announcement>
    /** How many times the load/build sequence has run. */
    ghost var loads: nat

    ghost predicate Valid()
      reads this
    {
      && (loads == if state.Uninitialized? then 0 else 1)
      && (state.Ready? ==> state.handle.Built? && state.handle.core.level == cell)
      && (state.Degraded? ==> state.nop == Nop)
      && |announcements| == (if state.Ready? then 1 else 0)
    }

    /** The package before any call: a fresh level cell at Info, nothing loaded. */
    constructor (env: Env)
      ensures Valid()
      ensures this.env == env && fresh(cell) && cell.level == Info
      ensures state == Uninitialized && announcements == [] && loads == 0
    {
      this.env := env;
      cell := new AtomicLevel();
      state := Uninitialized;
      announcements := [];
      loads := 0;
    }

    method GetLogger(configPath: string) returns (logger: Option<Logger>, err: Option<LoadError>)
      requires Valid()
      modifies this, cell
      ensures Valid()
      ensures var r := Step(env, cell, old(state), configPath);
        state == r.state && Reply(logger, err) == r.reply &&
        loads == old(loads) + (if r.loaded then 1 else 0)
      ensures var loaded := LoadConfig(env.readFile, env.unmarshal, configPath);
        if old(state).Uninitialized? && loaded.Success? then
          && cell.level == LevelOrDefault(env.parseLevel, loaded.value.level)
          && announcements == old(announcements) +
               [Announcement("Logger initialized", loaded.value.level, loaded.value.development,
                             loaded.value.outputPath)]
        else
          cell.level == old(cell.level) && announcements == old(announcements)
    {
      var initErr: Option<LoadError> := None;
      if state.Uninitialized? {
        loads := loads + 1;
        var loaded := LoadConfig(env.readFile, env.unmarshal, configPath);
        if loaded.Failure? {
          initErr := Some(loaded.error);
          state := Degraded(Nop);
        } else {
          var cfg := loaded.value;
          var lg := BuildLogger(cfg, env.parseLevel, cell);
          state := Ready(lg);
          announcements := announcements +
            [Announcement("Logger initialized", cfg.level, cfg.development, cfg.outputPath)];
        }
      }
      if initErr.Some? {
        return None, initErr;
      }
      return Some(Cached(state)), None;
    }
  }
}
