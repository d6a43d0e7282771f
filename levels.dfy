/** Severity levels and the shared, runtime-adjustable level cell (zap's AtomicLevel). */
module Levels {
  import opened Wrappers

  /** zapcore's levels, from least to most severe. */
  datatype Level = Debug | Info | Warn | Error | DPanic | Panic | Fatal

  /** zapcore.ParseLevel is a library call whose accepted labels are not part of this model:
      it is any partial map from labels to levels. */
  type LevelParser = string -> Option<Level>

  /** The level setLogLevel stores: the parsed level, or Info when the text does not parse. */
  function LevelOrDefault(parse: LevelParser, text: string): (l: Level)
    ensures parse(text).Some? ==> l == parse(text).value
    ensures parse(text).None? ==> l == Info
  {
    parse(text).GetOr(Info)
  }

  /** A mutable severity threshold shared by reference with every core built from it. */
  class AtomicLevel {
    var level: Level

    /** zap.NewAtomicLevel starts at Info. */
    constructor ()
      ensures level == Info
    {
      level := Info;
    }

    method SetLevel(l: Level)
      modifies this
      ensures level == l
    {
      level := l;
    }
  }
}
