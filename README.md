# cli-llm tool discovery and verbosity, in Dafny

cli-llm is a command-line framework that finds "tool" scripts at run time and
offers each one as a subcommand of `run`. This project models the parts of it
that hold real logic, and proves what they promise:

- **Tool discovery and dispatch** (`src/cli_llm/_cli_utils.py`, `src/cli_llm/cli.py`).
  `ToolGatherer.list_commands` goes through the candidate scripts. It loads each
  one through the memoized `load_tool_script`. It keeps a script's name only if
  the load succeeds, the module has a `tool` attribute, `tool` is not `None`,
  and `tool` is a `click.Command`. It logs one diagnostic for each script it
  skips, and sorts the names it keeps. `ToolGatherer.get_command` loads one
  name and returns its `tool`. The two files differ in how they find a script.
  `_cli_utils.py` looks the name up in a `tool_files` dict. `cli.py` loads the
  pair (stem, `tools_dir`) directly.
- **The memo table of `@cache`**: an explicit cache object (`Tools.MemoLoader`).
  A second lookup of a key returns the cached module and runs nothing.
  Exceptions are not cached.
- **The two `ClmLogger`s** (`src/cli_llm/_logging.py`, `src/cli_llm/logging.py`).
  Each holds a mutable `verbose` level, set from the `-v` count and the `-q`
  flag, and `print` writes only when `verbose` is below a "no logging"
  threshold. In `_logging.py`, `ClmLogger()` always returns one instance and
  re-runs `__init__` on it. `logging.py` has a single module-level instance
  and a strict count lookup.
- **The error message of `InvalidModuleError`** (`src/cli_llm/errors.py`).

Modules: `Wrappers` (Option, Result, Outcome), `Strings` (Python's `str` order,
`list.sort()`, `sep.join`, `in`, `str(int)`), `Errors`, `PyLogging` (the
`logging.Logger` level and `isEnabledFor`), `Tools` (what both gatherers
share), `CliUtils` (`_cli_utils.py`), `Cli` (`cli.py`), `PrivateLogging`
(`_logging.py`), `Logging` (`logging.py`).

Running a script's top-level code is not modelled. For `_cli_utils.py` it
becomes a `ScriptOutcome` per path: no spec, ran and bound `tool` (or not), or
raised an exception. `cli.py` imports its loader from `cli_llm.run`, and that
loader is not part of this model. There it is an opaque function from
(stem, `tools_dir`) to a loaded module or an exception. The `_cli_utils.py`
loader carries `@cache`. The `cli.py` loader is assumed to be memoized the
same way, and both are wrapped in the same `MemoLoader`.

The model follows the code where it behaves differently from what one might expect:
- In `cli.py`, `get_command` does no registry check. An unknown name fails with
  the loader's error, not with a usage error.
- Discovery is non-fatal only for subclasses of `Exception`. A script that
  raises `SystemExit` at load time aborts `list_commands`.
- The `InvalidModuleError` message names only the module, not the directory.
- `_cli_utils.py` memoizes by path. If the `cli.py` loader is memoized, its key
  is (stem, directory).
- When a load raises past `except Exception`, the records logged for earlier
  candidates stay logged. `list_commands` returns them along with the error.

The two defects under "## Findings" are the exception. Each has a member that
models the code as written. The methods that put the pieces together
(`CliUtils.NewToolScriptLoader` and both `GetCommand`s) use the corrected
definitions instead.

## Model

| member | source | states |
|---|---|---|
| `Tools.Classify` | src/cli_llm/_cli_utils.py:49-63 | each load result gets exactly one verdict, checked in order: load raised, no `tool`, `tool is None`, not a `click.Command`, accepted; accepted iff the load succeeded and `tool` is a Command, and then the verdict carries that command |
| `Tools.Diagnostic` | src/cli_llm/_cli_utils.py:49-62 | a skipped candidate gets exactly one log record, an accepted one none; the record is DEBUG for `tool is None` and WARNING for the other three reasons, and its message names the candidate |
| `Tools.SkipReasonsDistinguishable` | src/cli_llm/_cli_utils.py:52-61 | for one name, the four skip reasons produce four pairwise different messages |
| `Tools.Dispatch` | src/cli_llm/_cli_utils.py:76-80 | after loading, `get_command` succeeds iff the filter would accept the module, and then returns exactly `module.tool`. A load error passes through unchanged. A module without `tool` fails with AttributeError "module '<name>' has no attribute 'tool'". A `tool` that is not a `click.Command` fails with InvalidToolCommandError, and the message names `module.__name__` |
| `Tools.DispatchAsWritten` | src/cli_llm/_cli_utils.py:77-79 | as written, the success cases agree with `Dispatch`, and a `tool` that is not a `click.Command` (`None`, `1`, ...) fails with AttributeError, because `errors.InvalidToolCommandError` does not exist |
| `Tools.DispatchAsWrittenMissesInvalidToolCommand` | src/cli_llm/_cli_utils.py:77-79 | for a module whose `tool` is `None`, the code as written fails with AttributeError where `Dispatch` fails with InvalidToolCommandError |
| `Tools.MemoLoader.Load` | src/cli_llm/_cli_utils.py:21-22 | the result is always what the uncached loader gives for the key; a hit leaves the cache and the record of loader runs unchanged; a miss runs the loader once and caches only a success |
| `Tools.Gather` | src/cli_llm/_cli_utils.py:44-66 | the listing loop. If a load raises past `except Exception`, the first such error propagates. Otherwise the result is sorted and holds exactly the accepted names (as a multiset). Either way, the records logged are one per skipped candidate, in order, for every candidate before the abort. The cache ends up with exactly the old keys plus every loaded key that succeeded. The loader ran once for each key the cache did not hold at that moment, and for nothing else. After a listing that returns, every candidate whose load succeeds is cached |
| `Tools.ProcessedStopsAtFirstFatal` | src/cli_llm/_cli_utils.py:48-53 | the loop gets exactly as far as the first candidate whose load raises past `except Exception`, and that load's error is the one reported; it gets through every candidate iff none raises so |
| `Tools.CachedAfterHolds` | src/cli_llm/_cli_utils.py:21-22 | loading keys through `@cache` keeps what was cached and adds exactly the loaded keys whose load succeeded; a failed key is not cached |
| `Tools.RunsAfterMisses` | src/cli_llm/_cli_utils.py:21-22 | the loader runs only for keys that are loaded and that the cache did not hold beforehand |
| `Tools.LoadedScriptRunsOnce` | src/cli_llm/_cli_utils.py:21-22 | a script that loads runs at most once however often its key comes up, and never if it was cached beforehand |
| `Tools.SameVerdictsSameListing` | src/cli_llm/_cli_utils.py:48-63 | only the verdicts of the loads decide the listing: two loaders that accept the same candidates and raise the same fatal errors list the same names and abort on the same error |
| `Tools.AcceptedNamesIff` | src/cli_llm/_cli_utils.py:48-63 | a name is kept iff some candidate with that name loads and binds `tool` to a `click.Command` |
| `Tools.OneOutcomePerCandidate` | src/cli_llm/_cli_utils.py:48-63 | kept names plus log records add up to the number of candidates: every candidate is either kept or logged once |
| `Tools.FirstFatalIff` | src/cli_llm/_cli_utils.py:49-53 | listing aborts iff some load raises something outside `Exception`, and what it raises is never an `Exception`; any `Exception` is caught and the loop goes on |
| `Tools.AcceptedNamesOrderIndependent` | src/cli_llm/_cli_utils.py:48-63 | reordering the candidates does not change the multiset of kept names |
| `Tools.ListingOrderIndependent` | src/cli_llm/_cli_utils.py:48-64 | the sorted listing is the same whatever order the candidates are enumerated in |
| `Strings.SortStrings` | src/cli_llm/_cli_utils.py:64 | `rv.sort()` leaves a sorted permutation of `rv` |
| `Strings.SortedUnique` | src/cli_llm/_cli_utils.py:64 | two sorted lists with the same elements are equal, so the sorted listing is determined by the kept names |
| `CliUtils.LoadToolScript` | src/cli_llm/_cli_utils.py:22-38 | a load succeeds iff the script runs to the end, and gives a module named "test" with the script's `tool`; a missing spec or a FileNotFoundError becomes an InvalidModuleError naming the file's stem; any other exception passes through unchanged |
| `CliUtils.LoadToolScriptAsWritten` | src/cli_llm/_cli_utils.py:29-36 | as written, a load succeeds in exactly the same cases as `LoadToolScript` |
| `CliUtils.LoadToolScriptAsWrittenRaisesTypeError` | src/cli_llm/_cli_utils.py:33-36 | as written, a FileNotFoundError from a script becomes a TypeError, which is not a CliLlmError |
| `CliUtils.NewToolScriptLoader` | src/cli_llm/_cli_utils.py:21-22 | the `@cache` table starts empty and caches `load_tool_script` over the scripts' outcomes (loader corrected, see Findings) |
| `CliUtils.Lookup` | src/cli_llm/_cli_utils.py:71-75 | `tool_files[name]` is found iff some entry has that name, and the path returned belongs to such an entry |
| `CliUtils.ListCommands` | src/cli_llm/_cli_utils.py:44-66 | over `tool_files.items()`: sorted, exactly the accepted names, one log record per skipped entry; only a non-`Exception` aborts it, and the records logged before the abort are kept; the new cache and loader runs are those of loading the entries in order, so every script that loaded is cached afterwards (loader corrected, see Findings) |
| `CliUtils.GetCommand` | src/cli_llm/_cli_utils.py:68-80 | a name not in `tool_files` fails with UsageError "Unrecognized tool command `name`" and loads nothing. A known name is loaded through the cache: a hit leaves the cache and the runs unchanged, and a miss runs the loader once and caches a success. The result is then dispatched (dispatch corrected, see Findings) |
| `CliUtils.ListedIffDispatches` | src/cli_llm/_cli_utils.py:48-80 | with unique dict keys, a name is listed by `list_commands` iff `get_command` returns a command for it |
| `CliUtils.ListedNameCached` | src/cli_llm/_cli_utils.py:21-22 | after a listing that returns, the script of every listed name is cached, so `get_command` on that name runs nothing |
| `CliUtils.ListedIffScriptDefinesCommand` | src/cli_llm/_cli_utils.py:48-63 | a name is listed iff one of its files ran to the end and bound `tool` to a `click.Command` |
| `CliUtils.LoadFailuresCaughtUnlessScriptExits` | src/cli_llm/_cli_utils.py:49-53 | if no script raises something outside `Exception`, listing never aborts, including InvalidModuleError from missing files |
| `CliUtils.AsWrittenListsTheSame` | src/cli_llm/_cli_utils.py:29-36 | with the two-argument `InvalidModuleError` call as written, listing keeps the same names and aborts on the same exception as with the corrected loader |
| `Cli.Candidates` | src/cli_llm/cli.py:27-29 | each tool file is a candidate named by its stem and loaded by the pair (stem, `tools_dir`) |
| `Cli.ListCommands` | src/cli_llm/cli.py:23-45 | the same filter and sort over `tool_files()`, with each file loaded by (stem, `tools_dir`); the records logged before an abort are kept; the new cache and loader runs are those of loading the keys in order, so every key that loaded is cached afterwards |
| `Cli.ListedIffStemLoads` | src/cli_llm/cli.py:27-42 | a stem is listed iff some tool file has it and loading (stem, `tools_dir`) passes the four checks; the file's own directory plays no part |
| `Cli.GetCommand` | src/cli_llm/cli.py:47-54 | no registry check: the result is the dispatch of loading (name, `tools_dir`) directly (dispatch corrected, see Findings). A hit leaves the cache and the runs unchanged; a miss runs the loader once and caches a success. The cache around this loader is assumed |
| `Cli.ListedNamesDispatch` | src/cli_llm/cli.py:23-54 | every name `list_commands` returns makes `get_command` return the command its module binds |
| `Cli.ListedStemCached` | src/cli_llm/cli.py:27-29 | after a listing that returns, the key (stem, `tools_dir`) of every listed stem is cached, so `get_command` on it runs nothing |
| `Cli.GetCommandNoUsageError` | src/cli_llm/cli.py:47-54 | `get_command` never raises UsageError itself; an unknown name fails with the loader's error |
| `Cli.CliSettings` | src/cli_llm/cli.py:64-66 | `cli_settings` has the key `ll_model` iff `-m` is truthy, holding that value, and no other key |
| `Cli.Cli` | src/cli_llm/cli.py:57-70 | the verbosity is set first, and a KeyError from it stops the callback before the config is built. After a call that is not quiet and succeeds, `verbose` and the shared logger's level are the count's level. When quiet or on a KeyError, the logger's level is unchanged. The config is built from `cli_settings` and becomes `ctx.obj` only when it builds |
| `PrivateLogging.VerboseCount` | src/cli_llm/_logging.py:45-49 | counts 0, 1 and 2 give WARNING, INFO and DEBUG (30 - 10 * count); any other count gives DEBUG (10) |
| `PrivateLogging.Verbosity` | src/cli_llm/_logging.py:67-72 | quiet gives ERROR (40) whatever the count; otherwise a level between DEBUG and WARNING from the count |
| `PrivateLogging.VerbosityNonIncreasing` | src/cli_llm/_logging.py:45-49 | more `-v` never raises the level |
| `PrivateLogging.PrintsIffNotQuiet` | src/cli_llm/_logging.py:75-78 | after `set_verbosity`, `print` writes iff not quiet |
| `PrivateLogging.DiagnosticShown` | src/cli_llm/_logging.py:67-73 | after `set_verbosity`, no discovery diagnostic reaches the log when quiet; warnings do otherwise; debug records only with a count other than 0 or 1 |
| `PrivateLogging.ClmLogger.constructor` | src/cli_llm/_logging.py:51-59 | a new instance starts at `verbose` 30 on the shared "cli-llm" logger |
| `PrivateLogging.ClmLogger.Init` | src/cli_llm/_logging.py:56-59 | `__init__` resets `verbose` to 30 and rebinds the shared logger |
| `PrivateLogging.ClmLogger.SetVerbosity` | src/cli_llm/_logging.py:67-73 | `verbose` becomes the level for the count and flag, and the logger's level is set to it in both branches |
| `PrivateLogging.ClmLogger.Print` | src/cli_llm/_logging.py:75-78 | writes `sep.join(objects) + end` iff `verbose < 40`, else nothing |
| `PrivateLogging.ClmLoggerClass.Instantiate` | src/cli_llm/_logging.py:51-58 | `ClmLogger()` returns the one instance, creating it only the first time; every call resets `verbose` to 30 and leaves the logger's own level as it was |
| `PrivateLogging.ClmLoggerClass.constructor` | src/cli_llm/_logging.py:43 | the class starts with no instance (`_instance = None`) and holds the one "cli-llm" logger |
| `PrivateLogging.Spinner` | src/cli_llm/_logging.py:26-37 | the wrapped function returns exactly what the original returns, for every argument |
| `Logging.VerboseCount` | src/cli_llm/logging.py:24-28 | defined exactly on counts 0, 1 and 2, giving 30 - 10 * count; any other count is a KeyError for that count |
| `Logging.Verbosity` | src/cli_llm/logging.py:39-45 | quiet gives 60; otherwise the strict lookup of the count |
| `Logging.PrintsIffNotQuiet` | src/cli_llm/logging.py:47-52 | whenever `set_verbosity` returns, `print` writes afterwards iff the call was not quiet |
| `Logging.ClmLogger.constructor` | src/cli_llm/logging.py:30-33 | a new instance starts at `verbose` 30 on the given logger |
| `Logging.ClmLogger.GetLogger` | src/cli_llm/logging.py:35-37 | `get_logger` returns the shared "cli-llm" logger that this instance drives |
| `Logging.ClmLogger.SetVerbosity` | src/cli_llm/logging.py:39-45 | quiet sets `verbose` to 60 and leaves the logger's level alone; a count of 0..2 sets `verbose` and the logger's level to its entry; any other count raises KeyError and changes nothing |
| `Logging.ClmLogger.Print` | src/cli_llm/logging.py:47-52 | writes `sep.join(objects) + end` iff `verbose < 60`, else nothing |
| `Logging.LoggingModule.constructor` | src/cli_llm/logging.py:55-61 | the module builds one instance at `verbose` 30, and `get_logger`, `set_verbosity` and `print` all act on it |
| `Errors.InvalidModuleMessage` | src/cli_llm/errors.py:17-19 | the message is "Invalid module name: ", then the name, then ". It is usually the name of the python file you are trying to use." |
| `Errors.InvalidModuleMessageRoundTrip` | src/cli_llm/errors.py:17-19 | the module name can be read back out of the message |
| `Errors.InvalidModuleMessageInjective` | src/cli_llm/errors.py:11-19 | the message depends only on the module name, and different names give different messages |
| `Errors.InvalidModuleMessageMentions` | src/cli_llm/errors.py:17-19 | the message contains the module name, so a `match` on the name finds it |
| `Errors.NewInvalidModuleError` | src/cli_llm/errors.py:11-19 | `InvalidModuleError(*args)` gives an InvalidModuleError carrying the name iff exactly one argument is passed; any other number of arguments gives a TypeError |
| `Errors.CliLlmErrorIsException` | src/cli_llm/errors.py:4-8 | an InvalidModuleError is a CliLlmError, and so an `Exception` that `except Exception` catches |

## Left out

- Running a tool script (`spec_from_file_location`, `exec_module`): it executes arbitrary Python. It is replaced by a per-path `ScriptOutcome`, which is deterministic, so re-running a script that failed gives the same outcome.
- `cli_llm.run.load_tool_script(stem, tools_dir)`, which `cli.py` imports: it is not part of this model. It is an opaque function of the key, wrapped in the same cache as `_cli_utils.py`'s loader.
- Module identity: a cache hit returns an equal module value. "The same object" and duplicate side effects of re-running a script are captured only through the `Calls` record of `MemoLoader`.
- The `log.info("Loading tool from: ...")` record that `load_tool_script` writes on a cache miss is not included in the listing's diagnostics.
- `ctx.obj` as read by `ToolGatherer`: the configuration is passed in as a value. Only `Cli.Cli` models the `click.Context` object.
- `ClmConfig(**cli_settings)`: pydantic-settings source precedence is a library. It is a parameter from settings to a config or an error. `src/cli_llm/config.py` is not part of this model.
- `common_options`: the click option declarations. The parsed count, flag and model id are parameters.
- Terminal output: rich console rendering and markup, the spinner's display, `logging.basicConfig` handlers and record formatting, and `print`'s `file` and `flush` arguments. `print` is modelled as the text it would write.
- The logger aliases (`self.debug`, `self.info`, ...) bound in `_logging.py`'s `__init__`: each forwards to the shared logger; `PyLogging.EnabledFor` says which records it lets through.
- Exception chaining (`raise ... from e`, `from None`).
- The suffix of a tool file's path: `Tools.Path` keeps only the directory and the stem. How `tool_files` is built is not part of this model. Two files that differ only in their suffix would be one cache entry and one script outcome here, where `@cache` keeps them apart.
- CliUtils.NewToolScriptLoader: caches the corrected `LoadToolScript`, not the two-argument `InvalidModuleError` call as written (see Findings). As written, a load whose script raises FileNotFoundError fails with TypeError, not InvalidModuleError. `CliUtils.AsWrittenListsTheSame` shows that listing is otherwise unchanged.
- CliUtils.GetCommand: dispatches with the corrected `Dispatch` (see Findings). As written, a `tool` that is not a `click.Command` fails with AttributeError, not InvalidToolCommandError. `Tools.DispatchAsWritten` models that case.
- Cli.GetCommand: dispatches with the corrected `Dispatch`, as `CliUtils.GetCommand` does. The loader it imports is not part of this model. That this loader is memoized, and so runs at most once per key, is an assumption.
- `src/cli_llm/run.py`, `response.py`, `helpers.py`, `new.py`, `types.py`: template rendering, the model call, file search and scaffolding are thin wrappers over libraries. The gather/render/process tool runner that the tests use is not in these files.

## Findings

| source | as written | input that shows it | evidently intended | confidence | as-written member | corrected member |
|---|---|---|---|---|---|---|
| src/cli_llm/_cli_utils.py:31-36 | `errors.InvalidModuleError(module_name, tools_dir)` passes two arguments to an `__init__` that takes one (errors.py:11) | a tool script whose top-level code raises FileNotFoundError: the load raises TypeError | an InvalidModuleError whose message names the module | medium (the files may come from different revisions); not executed | `CliUtils.LoadToolScriptAsWrittenRaisesTypeError` | `CliUtils.LoadToolScript` |
| src/cli_llm/_cli_utils.py:77-79 | raises `errors.InvalidToolCommandError`, a name that errors.py does not define (the same at cli.py:51-53) | `run skip`, where `skip.py` sets `tool = None`: the name is in `tool_files`, and `get_command` fails with AttributeError on the `errors` module | InvalidToolCommandError with the message naming the module | medium (the files may come from different revisions); not executed | `Tools.DispatchAsWrittenMissesInvalidToolCommand` | `Tools.Dispatch` |
