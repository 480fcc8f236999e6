/**
 * The part of Python's `logging` that the two `ClmLogger`s drive: the level
 * constants, the shared `logging.getLogger("cli-llm")` object with its
 * settable level, and which records a logger lets through.
 */
module PyLogging {

  const NotSet: int := 0
  const Debug: int := 10
  const Info: int := 20
  const Warning: int := 30
  const ErrorLevel: int := 40

  /** `logging.basicConfig(level="WARNING")` sets the root logger's level. */
  const RootLevel: int := Warning

  /** A log call: its level and its formatted message. */
  datatype Record = Record(level: int, message: string)

  /** The `logging.Logger` named "cli-llm"; `getLogger` hands out this one object every time. */
  class Logger {
    var level: int

    constructor ()
      ensures level == NotSet
    {
      level := NotSet;
    }

    /** `logger.setLevel(level)`. */
    method SetLevel(newLevel: int)
      modifies this
      ensures level == newLevel
    {
      level := newLevel;
    }
  }

  /** `getEffectiveLevel()`: a logger left at NOTSET defers to the root logger. */
  function EffectiveLevel(level: int): int
  {
    if level == NotSet then RootLevel else level
  }

  /** `isEnabledFor(recordLevel)` for a logger whose own level is `level`. */
  predicate EnabledFor(level: int, recordLevel: int)
  {
    recordLevel >= EffectiveLevel(level)
  }
}
