/**
 * `_logging.py`: the singleton `ClmLogger` whose `verbose` level comes from
 * the `-v` count and the `-q` flag, and which gates `print` on it; and the
 * `spinner` decorator.
 */
module PrivateLogging {
  import opened Strings
  import opened PyLogging

  /** `NO_LOGGING = logging.ERROR`. */
  const NoLogging: int := ErrorLevel

  /** The level `__init__` starts from. */
  const DefaultVerbose: int := Warning

  /** `VERBOSE_COUNT.get(count, 10)`: each `-v` lowers the level one step, down to DEBUG. */
  function VerboseCount(count: int): (level: int)
    ensures 0 <= count <= 2 ==> level == Warning - 10 * count
    ensures !(0 <= count <= 2) ==> level == Debug
  {
    if count == 0 then 30 else if count == 1 then 20 else if count == 2 then 10 else 10
  }

  /** The `verbose` that `set_verbosity` leaves: ERROR when quiet, whatever the count. */
  function Verbosity(count: int, quiet: bool): (level: int)
    ensures quiet ==> level == NoLogging
    ensures !quiet ==> level == VerboseCount(count) && Debug <= level <= Warning
  {
    if quiet then NoLogging else VerboseCount(count)
  }

  /** More `-v` never raises the level. */
  lemma VerbosityNonIncreasing(c1: int, c2: int)
    requires 0 <= c1 <= c2
    ensures Verbosity(c2, false) <= Verbosity(c1, false)
  {
  }

  /** `print` writes iff `verbose < NO_LOGGING`: after `set_verbosity`, iff not quiet. */
  lemma PrintsIffNotQuiet(count: int, quiet: bool)
    ensures Verbosity(count, quiet) < NoLogging <==> !quiet
  {
  }

  /**
   * Which discovery diagnostics reach the log after `set_verbosity`: none when
   * quiet; warnings otherwise; debug records only from a count other than 0 or 1.
   */
  lemma DiagnosticShown(count: int, quiet: bool, level: int)
    requires level == Debug || level == Warning
    ensures EnabledFor(Verbosity(count, quiet), level) <==>
            !quiet && (level == Warning || !(0 <= count <= 1))
  {
  }

  class ClmLogger {
    var verbose: int
    var log: Logger

    /** `object.__new__` followed by the first `__init__`. */
    constructor (log: Logger)
      ensures verbose == DefaultVerbose && this.log == log
    {
      verbose := DefaultVerbose;
      this.log := log;
    }

    /** `__init__`: back to the default level; the shared logger's own level is left as it was. */
    method Init(log: Logger)
      modifies this
      ensures verbose == DefaultVerbose && this.log == log
    {
      verbose := DefaultVerbose;
      this.log := log;
    }

    /** `set_verbosity`: sets `verbose` and, in both branches, the logger's level to it. */
    method SetVerbosity(count: int, quiet: bool)
      modifies this, log
      ensures log == old(log)
      ensures verbose == Verbosity(count, quiet)
      ensures log.level == verbose
    {
      if quiet {
        verbose := NoLogging;
      } else {
        verbose := VerboseCount(count);
      }
      log.SetLevel(verbose);
    }

    /** `print(*objects, sep=sep, end=end)`: the text written, empty when gated off. */
    method Print(objects: seq<string>, sep: string, end: string) returns (out: string)
      ensures verbose < NoLogging ==> out == Join(objects, sep) + end
      ensures verbose >= NoLogging ==> out == ""
    {
      out := "";
      if verbose < NoLogging {
        out := Join(objects, sep) + end;
      }
    }
  }

  /** The class object `ClmLogger` with its `_instance` attribute, and the one "cli-llm" logger. */
  class ClmLoggerClass {
    var instance: ClmLogger?
    const cliLlmLogger: Logger

    ghost predicate Valid()
      reads this, instance
    {
      instance != null ==> instance.log == cliLlmLogger
    }

    constructor (cliLlmLogger: Logger)
      ensures Valid() && instance == null && this.cliLlmLogger == cliLlmLogger
    {
      instance := null;
      this.cliLlmLogger := cliLlmLogger;
    }

    /**
     * `ClmLogger()`: `__new__` hands back the one instance, creating it the
     * first time, and `__init__` runs again on it, resetting `verbose`.
     */
    method Instantiate() returns (l: ClmLogger)
      requires Valid()
      modifies this, instance
      ensures Valid()
      ensures old(instance) != null ==> l == old(instance)
      ensures old(instance) == null ==> fresh(l)
      ensures instance == l
      ensures l.verbose == DefaultVerbose && l.log == cliLlmLogger
      ensures cliLlmLogger.level == old(cliLlmLogger.level)
    {
      if instance == null {
        instance := new ClmLogger(cliLlmLogger);
      }
      l := instance;
      l.Init(cliLlmLogger);
    }
  }

  /** `spinner(message)(func)`: the wrapper returns exactly what `func` returns. */
  function Spinner<A(!new), R>(message: string, func: A -> R): (wrapped: A -> R)
    ensures forall a :: wrapped(a) == func(a)
  {
    a => func(a)
  }
}
