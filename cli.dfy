/**
 * `cli.py`: the `cli` group callback that sets the verbosity and builds the
 * configuration, and the `ToolGatherer` that loads each tool by the pair
 * (stem, `tools_dir`) through a loader it imports but that is not part of
 * this model.
 */
module Cli {
  import opened Wrappers
  import opened Strings
  import opened Errors
  import opened Tools
  import opened PyLogging
  import Logging

  /** The resolved configuration: `ll_model`, `tools_dir` and what `tool_files()` returns. */
  datatype ClmConfig = ClmConfig(llModel: string, toolsDir: string, toolFiles: seq<Path>)

  /** The loader's key: `load_tool_script(stem, tools_dir)`. */
  type LoaderKey = (string, string)

  /** Each tool file as a candidate: named by its stem, loaded by (stem, `tools_dir`). */
  function Candidates(config: ClmConfig): (cands: seq<(string, LoaderKey)>)
    ensures |cands| == |config.toolFiles|
    ensures forall i :: 0 <= i < |cands| ==>
              cands[i] == (config.toolFiles[i].stem, (config.toolFiles[i].stem, config.toolsDir))
  {
    seq(|config.toolFiles|, i requires 0 <= i < |config.toolFiles| =>
      (config.toolFiles[i].stem, (config.toolFiles[i].stem, config.toolsDir)))
  }

  /**
   * `ToolGatherer.list_commands`: the same four-stage filter over
   * `tool_files()`, then sort. The records logged before an exception
   * outside `Exception` stay logged, and every key that loaded is cached.
   */
  method ListCommands(config: ClmConfig, loader: MemoLoader<LoaderKey>) returns (r: Result<seq<string>, Error>, logged: seq<Record>)
    requires loader.Valid()
    modifies loader
    ensures loader.Valid()
    ensures FirstFatal(Candidates(config), loader.exec).Some? ==>
              r == Failure(FirstFatal(Candidates(config), loader.exec).value)
    ensures FirstFatal(Candidates(config), loader.exec).None? ==>
              && r.Success?
              && Sorted(r.value)
              && multiset(r.value) == multiset(AcceptedNames(Candidates(config), loader.exec))
              && logged == Diagnostics(Candidates(config), loader.exec)
    ensures logged == Diagnostics(Candidates(config)[..Processed(Candidates(config), loader.exec)], loader.exec)
    ensures loader.cache.Keys == CachedAfter(old(loader.cache).Keys, Loaded(Candidates(config), loader.exec), loader.exec)
    ensures loader.Calls == old(loader.Calls) + RunsAfter(old(loader.cache).Keys, Loaded(Candidates(config), loader.exec), loader.exec)
    ensures FirstFatal(Candidates(config), loader.exec).None? ==>
              forall i :: 0 <= i < |config.toolFiles| && loader.exec((config.toolFiles[i].stem, config.toolsDir)).Success? ==>
                (config.toolFiles[i].stem, config.toolsDir) in loader.cache
  {
    r, logged := Gather(Candidates(config), loader);
  }

  /**
   * A stem is listed iff some tool file has it and loading (stem, `tools_dir`)
   * passes the filter. The path's directory plays no part: two files with one
   * stem are one load, and the stem is listed once per file.
   */
  lemma ListedIffStemLoads(config: ClmConfig, exec: LoaderKey -> Result<Module, Error>, name: string)
    ensures name in AcceptedNames(Candidates(config), exec) <==>
            (exists k :: 0 <= k < |config.toolFiles| && config.toolFiles[k].stem == name)
            && Classify(exec((name, config.toolsDir))).Accepted?
  {
    var cands := Candidates(config);
    AcceptedNamesIff(cands, exec, name);
    if exists k :: 0 <= k < |config.toolFiles| && config.toolFiles[k].stem == name {
      var k :| 0 <= k < |config.toolFiles| && config.toolFiles[k].stem == name;
      assert cands[k].0 == name;
    }
  }

  /**
   * `ToolGatherer.get_command`: no registry check; the name is loaded
   * directly by (name, `tools_dir`) and dispatched, so an unknown name fails
   * with whatever the loader raises.
   */
  method GetCommand(config: ClmConfig, name: string, loader: MemoLoader<LoaderKey>) returns (r: Result<string, Error>)
    requires loader.Valid()
    modifies loader
    ensures loader.Valid()
    ensures r == Dispatch(loader.exec((name, config.toolsDir)))
    ensures (name, config.toolsDir) in old(loader.cache) ==> loader.cache == old(loader.cache) && loader.Calls == old(loader.Calls)
    ensures (name, config.toolsDir) !in old(loader.cache) ==>
              var key := (name, config.toolsDir);
              && loader.Calls == old(loader.Calls) + [key]
              && loader.cache == if loader.exec(key).Success? then old(loader.cache)[key := loader.exec(key).value] else old(loader.cache)
  {
    var loaded := loader.Load((name, config.toolsDir));
    r := Dispatch(loaded);
  }

  /** Every listed name dispatches to the command its module binds. */
  lemma ListedNamesDispatch(config: ClmConfig, exec: LoaderKey -> Result<Module, Error>, name: string)
    requires name in AcceptedNames(Candidates(config), exec)
    ensures Classify(exec((name, config.toolsDir))).Accepted?
    ensures Dispatch(exec((name, config.toolsDir))) == Success(Classify(exec((name, config.toolsDir))).command)
  {
    ListedIffStemLoads(config, exec, name);
  }

  /**
   * After a listing that returns, the key of every listed stem is in the
   * cache, so `get_command` on that stem runs nothing.
   */
  lemma ListedStemCached(config: ClmConfig, exec: LoaderKey -> Result<Module, Error>, cached: set<LoaderKey>, name: string)
    requires FirstFatal(Candidates(config), exec).None?
    requires name in AcceptedNames(Candidates(config), exec)
    ensures (name, config.toolsDir) in CachedAfter(cached, Loaded(Candidates(config), exec), exec)
  {
    var cands := Candidates(config);
    ListedIffStemLoads(config, exec, name);
    ProcessedStopsAtFirstFatal(cands, exec);
    CachedAfterHolds(cached, cands, exec);
    var k :| 0 <= k < |config.toolFiles| && config.toolFiles[k].stem == name;
    assert cands[k].1 == (name, config.toolsDir);
  }

  /** `get_command` itself never raises `UsageError`: any it returns came from the loader. */
  lemma GetCommandNoUsageError(config: ClmConfig, exec: LoaderKey -> Result<Module, Error>, name: string)
    requires Dispatch(exec((name, config.toolsDir))).Failure?
    requires Dispatch(exec((name, config.toolsDir))).error.kind.UsageError?
    ensures exec((name, config.toolsDir)) == Failure(Dispatch(exec((name, config.toolsDir))).error)
  {
  }

  /** `click.Context`, as far as `cli` uses it: its `obj`. */
  class Context {
    var obj: Option<ClmConfig>

    constructor ()
      ensures obj == None
    {
      obj := None;
    }
  }

  /** `ll_model` is truthy: given and not the empty string. */
  predicate Truthy(llModel: Option<string>)
  {
    llModel.Some? && llModel.value != ""
  }

  /** The `cli_settings` dict passed to `ClmConfig(**cli_settings)`. */
  function CliSettings(llModel: Option<string>): (settings: map<string, string>)
    ensures "ll_model" in settings <==> Truthy(llModel)
    ensures settings.Keys <= {"ll_model"}
    ensures "ll_model" in settings ==> settings["ll_model"] == llModel.value
  {
    if Truthy(llModel) then map["ll_model" := llModel.value] else map[]
  }

  /**
   * The `cli` group callback: set the verbosity first, then build the
   * configuration from `cli_settings` and make it `ctx.obj`. A `KeyError`
   * from the verbosity lookup stops it before the configuration is built;
   * an error from building it leaves `ctx.obj` as it was.
   */
  method Cli(ctx: Context, logging: Logging.LoggingModule, llModel: Option<string>, verbose: int, quiet: bool,
             buildConfig: map<string, string> -> Result<ClmConfig, Error>)
    returns (r: Outcome<Error>)
    modifies ctx, logging.clmLogger, logging.clmLogger.log
    ensures Logging.Verbosity(verbose, quiet).Failure? ==>
              && r == Fail(Logging.Verbosity(verbose, quiet).error)
              && ctx.obj == old(ctx.obj)
              && logging.clmLogger.verbose == old(logging.clmLogger.verbose)
    ensures Logging.Verbosity(verbose, quiet).Success? ==>
              logging.clmLogger.verbose == Logging.Verbosity(verbose, quiet).value
    ensures !quiet && Logging.Verbosity(verbose, quiet).Success? ==>
              logging.clmLogger.log.level == Logging.Verbosity(verbose, quiet).value
    ensures quiet || Logging.Verbosity(verbose, quiet).Failure? ==>
              logging.clmLogger.log.level == old(logging.clmLogger.log.level)
    ensures Logging.Verbosity(verbose, quiet).Success? && buildConfig(CliSettings(llModel)).Success? ==>
              r == Pass && ctx.obj == Some(buildConfig(CliSettings(llModel)).value)
    ensures Logging.Verbosity(verbose, quiet).Success? && buildConfig(CliSettings(llModel)).Failure? ==>
              r == Fail(buildConfig(CliSettings(llModel)).error) && ctx.obj == old(ctx.obj)
  {
    var verbosity := logging.clmLogger.SetVerbosity(verbose, quiet);
    if verbosity.Fail? {
      return Fail(verbosity.error);
    }
    var cliSettings: map<string, string> := map[];
    if llModel.Some? && llModel.value != "" {
      cliSettings := cliSettings["ll_model" := llModel.value];
    }
    var finalConfig := buildConfig(cliSettings);
    if finalConfig.Failure? {
      return Fail(finalConfig.error);
    }
    ctx.obj := Some(finalConfig.value);
    r := Pass;
  }
}
