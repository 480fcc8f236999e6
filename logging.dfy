/**
 * `logging.py`: a `ClmLogger` with a strict `VERBOSE_COUNT` lookup and a
 * `NO_LOGGING` of 60, and the module-level instance whose bound methods are
 * exported as `get_logger`, `set_verbosity` and `print`.
 */
module Logging {
  import opened Wrappers
  import opened Strings
  import opened Errors
  import opened PyLogging

  const NoLogging: int := 60
  const DefaultVerbose: int := Warning

  /** `VERBOSE_COUNT[count]`: defined on 0, 1 and 2 only; any other count is a `KeyError`. */
  function VerboseCount(count: int): (r: Result<int, Error>)
    ensures r.Success? <==> 0 <= count <= 2
    ensures r.Success? ==> r.value == Warning - 10 * count
    ensures r.Failure? ==> r.error == KeyErrorFor(count)
  {
    if count == 0 then Success(30)
    else if count == 1 then Success(20)
    else if count == 2 then Success(10)
    else Failure(KeyErrorFor(count))
  }

  /** The `verbose` that `set_verbosity` leaves, or the `KeyError` it raises. */
  function Verbosity(count: int, quiet: bool): (r: Result<int, Error>)
    ensures quiet ==> r == Success(NoLogging)
    ensures !quiet ==> r == VerboseCount(count)
  {
    if quiet then Success(NoLogging) else VerboseCount(count)
  }

  /** `print` writes iff `verbose < NO_LOGGING`: after a `set_verbosity` that returns, iff not quiet. */
  lemma PrintsIffNotQuiet(count: int, quiet: bool)
    requires Verbosity(count, quiet).Success?
    ensures Verbosity(count, quiet).value < NoLogging <==> !quiet
  {
  }

  class ClmLogger {
    var verbose: int
    const log: Logger

    constructor (log: Logger)
      ensures verbose == DefaultVerbose && this.log == log
    {
      verbose := DefaultVerbose;
      this.log := log;
    }

    /** `get_logger`: the shared "cli-llm" logger this instance drives. */
    function GetLogger(): (r: Logger)
      ensures r == log
    {
      log
    }

    /**
     * `set_verbosity`: quiet sets `verbose` to NO_LOGGING and returns before
     * touching the logger's level; otherwise the count is looked up, and the
     * logger's level follows. A count outside 0..2 raises `KeyError` and
     * changes nothing.
     */
    method SetVerbosity(count: int, quiet: bool) returns (r: Outcome<Error>)
      modifies this, log
      ensures quiet ==> r.Pass? && verbose == NoLogging && log.level == old(log.level)
      ensures !quiet && VerboseCount(count).Success? ==>
                r.Pass? && verbose == VerboseCount(count).value && log.level == verbose
      ensures !quiet && VerboseCount(count).Failure? ==>
                r == Fail(VerboseCount(count).error) && verbose == old(verbose) && log.level == old(log.level)
    {
      if quiet {
        verbose := NoLogging;
        return Pass;
      }
      var level := VerboseCount(count);
      if level.Failure? {
        return Fail(level.error);
      }
      verbose := level.value;
      log.SetLevel(verbose);
      r := Pass;
    }

    /** `print(*objects, sep=sep, end=end)`: the text written, empty when gated off. */
    method Print(objects: seq<string>, sep: string, end: string) returns (out: string)
      ensures verbose < NoLogging ==> out == Join(objects, sep) + end
      ensures verbose >= NoLogging ==> out == ""
    {
      out := "";
      if verbose < NoLogging {
        out := Join(objects, sep) + end;
      }
    }
  }

  /**
   * The module `cli_llm.logging`: `_clm_logger = ClmLogger()`, and
   * `get_logger`, `set_verbosity` and `print` are its bound methods, so all
   * three act on this one object.
   */
  class LoggingModule {
    const clmLogger: ClmLogger

    constructor (cliLlmLogger: Logger)
      ensures fresh(clmLogger)
      ensures clmLogger.verbose == DefaultVerbose && clmLogger.log == cliLlmLogger
    {
      clmLogger := new ClmLogger(cliLlmLogger);
    }
  }
}
