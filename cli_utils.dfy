/**
 * `_cli_utils.py`: the memoized `load_tool_script(filepath)` and the
 * `ToolGatherer` whose registry is the `tool_files` dict of names to paths.
 */
module CliUtils {
  import opened Wrappers
  import opened Strings
  import opened Errors
  import opened Tools
  import opened PyLogging

  /**
   * What `spec_from_file_location` and `exec_module` do with one file. The
   * script's top-level code is not modelled; this is its observable result.
   */
  datatype ScriptOutcome =
    | NoSpec                         // no spec or no loader could be made for the path
    | Defines(tool: Option<ToolValue>) // ran to the end; its `tool` attribute, if any
    | Raises(error: Error)           // its top-level code raised

  /** Every module is created by `spec_from_file_location("test", filepath)`. */
  const LoadedModuleName: string := "test"

  /**
   * `load_tool_script` as written: both failure paths call
   * `errors.InvalidModuleError(module_name, tools_dir)` with two arguments.
   */
  function LoadToolScriptAsWritten(filepath: Path, outcome: ScriptOutcome): (r: Result<Module, Error>)
    ensures r.Success? <==> outcome.Defines?
  {
    match outcome
    case NoSpec => Failure(NewInvalidModuleError([filepath.stem, filepath.parent]))
    case Raises(e) =>
      if e.kind.FileNotFoundError? then Failure(NewInvalidModuleError([filepath.stem, filepath.parent]))
      else Failure(e)
    case Defines(t) => Success(Module(LoadedModuleName, t))
  }

  /** A script that raises `FileNotFoundError` yields a `TypeError`, not an `InvalidModuleError`. */
  lemma LoadToolScriptAsWrittenRaisesTypeError(filepath: Path, e: Error)
    requires e.kind.FileNotFoundError?
    ensures LoadToolScriptAsWritten(filepath, Raises(e)).error.kind.TypeError?
    ensures !LoadToolScriptAsWritten(filepath, Raises(e)).error.IsCliLlmError()
  {
  }

  /**
   * `load_tool_script` with `InvalidModuleError(module_name)` built with its
   * one argument: a missing spec or a `FileNotFoundError` becomes an
   * `InvalidModuleError` naming the file's stem; any other exception passes
   * through unchanged.
   */
  function LoadToolScript(filepath: Path, outcome: ScriptOutcome): (r: Result<Module, Error>)
    ensures r.Success? <==> outcome.Defines?
    ensures outcome.Defines? ==> r.value == Module(LoadedModuleName, outcome.tool)
    ensures outcome.NoSpec? || (outcome.Raises? && outcome.error.kind.FileNotFoundError?) ==>
              r.error.IsCliLlmError() && ModuleNameOf(r.error.message) == Some(filepath.stem)
    ensures outcome.Raises? && !outcome.error.kind.FileNotFoundError? ==> r == Failure(outcome.error)
  {
    match outcome
    case NoSpec => Failure(NewInvalidModuleError([filepath.stem]))
    case Raises(e) =>
      if e.kind.FileNotFoundError? then Failure(NewInvalidModuleError([filepath.stem]))
      else Failure(e)
    case Defines(t) => Success(Module(LoadedModuleName, t))
  }

  /** `@cache def load_tool_script`: one memo table for the process, over the scripts' outcomes. */
  method NewToolScriptLoader(script: Path -> ScriptOutcome) returns (loader: MemoLoader<Path>)
    ensures fresh(loader) && loader.Valid()
    ensures loader.cache == map[] && loader.Calls == []
    ensures forall p :: loader.exec(p) == LoadToolScript(p, script(p))
  {
    loader := new MemoLoader(p => LoadToolScript(p, script(p)));
  }

  /** Dict keys are unique. */
  predicate UniqueNames(toolFiles: seq<(string, Path)>)
  {
    forall i, j :: 0 <= i < j < |toolFiles| ==> toolFiles[i].0 != toolFiles[j].0
  }

  /** `final_config.tool_files.items()`: the registry dict, names to paths, in insertion order. */
  type ToolFiles = toolFiles: seq<(string, Path)> | UniqueNames(toolFiles) witness []

  /** `tool_files[name]`, or `None` where the dict raises `KeyError`. */
  function Lookup(toolFiles: ToolFiles, name: string): (r: Option<Path>)
    ensures r.Some? <==> exists k :: 0 <= k < |toolFiles| && toolFiles[k].0 == name
    ensures r.Some? ==> exists k :: 0 <= k < |toolFiles| && toolFiles[k] == (name, r.value)
  {
    if toolFiles == [] then None
    else if toolFiles[0].0 == name then Some(toolFiles[0].1)
    else
      var r := Lookup(toolFiles[1..], name);
      assert forall k :: 0 < k < |toolFiles| ==> toolFiles[k] == toolFiles[1..][k - 1];
      r
  }

  /**
   * `ToolGatherer.list_commands`: enumerate `tool_files`, keep the valid
   * tools, sort. The records logged before an exception outside `Exception`
   * stay logged, and every script that loaded is cached afterwards.
   */
  method ListCommands(toolFiles: ToolFiles, loader: MemoLoader<Path>) returns (r: Result<seq<string>, Error>, logged: seq<Record>)
    requires loader.Valid()
    modifies loader
    ensures loader.Valid()
    ensures FirstFatal(toolFiles, loader.exec).Some? ==> r == Failure(FirstFatal(toolFiles, loader.exec).value)
    ensures FirstFatal(toolFiles, loader.exec).None? ==>
              && r.Success?
              && Sorted(r.value)
              && multiset(r.value) == multiset(AcceptedNames(toolFiles, loader.exec))
              && logged == Diagnostics(toolFiles, loader.exec)
    ensures logged == Diagnostics(toolFiles[..Processed(toolFiles, loader.exec)], loader.exec)
    ensures loader.cache.Keys == CachedAfter(old(loader.cache).Keys, Loaded(toolFiles, loader.exec), loader.exec)
    ensures loader.Calls == old(loader.Calls) + RunsAfter(old(loader.cache).Keys, Loaded(toolFiles, loader.exec), loader.exec)
    ensures FirstFatal(toolFiles, loader.exec).None? ==>
              forall i :: 0 <= i < |toolFiles| && loader.exec(toolFiles[i].1).Success? ==> toolFiles[i].1 in loader.cache
  {
    r, logged := Gather(toolFiles, loader);
  }

  function UnrecognizedToolMessage(name: string): string
  {
    "Unrecognized tool command `" + name + "`"
  }

  /**
   * `ToolGatherer.get_command`: a name missing from `tool_files` is a
   * `UsageError` and loads nothing; otherwise its path is loaded through the
   * cache and dispatched.
   */
  method GetCommand(toolFiles: ToolFiles, name: string, loader: MemoLoader<Path>) returns (r: Result<string, Error>)
    requires loader.Valid()
    modifies loader
    ensures loader.Valid()
    ensures Lookup(toolFiles, name).None? ==>
              && r == Failure(Error(UsageError, UnrecognizedToolMessage(name)))
              && loader.cache == old(loader.cache) && loader.Calls == old(loader.Calls)
    ensures Lookup(toolFiles, name).Some? ==>
              var p := Lookup(toolFiles, name).value;
              && r == Dispatch(loader.exec(p))
              && (p in old(loader.cache) ==> loader.cache == old(loader.cache) && loader.Calls == old(loader.Calls))
              && (p !in old(loader.cache) ==>
                    && loader.Calls == old(loader.Calls) + [p]
                    && loader.cache == if loader.exec(p).Success? then old(loader.cache)[p := loader.exec(p).value] else old(loader.cache))
  {
    var filepath := Lookup(toolFiles, name);
    if filepath.None? {
      return Failure(Error(UsageError, UnrecognizedToolMessage(name)));
    }
    var loaded := loader.Load(filepath.value);
    r := Dispatch(loaded);
  }

  /** A listed name dispatches to its command, and a name that dispatches is listed. */
  lemma ListedIffDispatches(toolFiles: ToolFiles, exec: Path -> Result<Module, Error>, name: string)
    ensures name in AcceptedNames(toolFiles, exec) <==>
            Lookup(toolFiles, name).Some? && Dispatch(exec(Lookup(toolFiles, name).value)).Success?
  {
    AcceptedNamesIff(toolFiles, exec, name);
    var l := Lookup(toolFiles, name);
    if l.Some? {
      var k :| 0 <= k < |toolFiles| && toolFiles[k] == (name, l.value);
      assert forall k' :: 0 <= k' < |toolFiles| && toolFiles[k'].0 == name ==> k' == k;
    }
  }

  /**
   * After a listing that returns, the script of every listed name is in the
   * cache, so `get_command` on that name runs nothing.
   */
  lemma ListedNameCached(toolFiles: ToolFiles, exec: Path -> Result<Module, Error>, cached: set<Path>, name: string)
    requires FirstFatal(toolFiles, exec).None?
    requires name in AcceptedNames(toolFiles, exec)
    ensures Lookup(toolFiles, name).Some?
    ensures Lookup(toolFiles, name).value in CachedAfter(cached, Loaded(toolFiles, exec), exec)
  {
    ListedIffDispatches(toolFiles, exec, name);
    ProcessedStopsAtFirstFatal(toolFiles, exec);
    CachedAfterHolds(cached, toolFiles, exec);
    var k :| 0 <= k < |toolFiles| && toolFiles[k] == (name, Lookup(toolFiles, name).value);
  }

  /**
   * The four-stage filter on the scripts themselves: a name is listed iff
   * one of its files ran to the end and bound `tool` to a `click.Command`.
   */
  lemma ListedIffScriptDefinesCommand(toolFiles: ToolFiles, script: Path -> ScriptOutcome, name: string)
    ensures name in AcceptedNames(toolFiles, p => LoadToolScript(p, script(p))) <==>
            exists k :: 0 <= k < |toolFiles| && toolFiles[k].0 == name
                        && script(toolFiles[k].1).Defines?
                        && script(toolFiles[k].1).tool.Some?
                        && script(toolFiles[k].1).tool.value.Command?
  {
    var exec := p => LoadToolScript(p, script(p));
    AcceptedNamesIff(toolFiles, exec, name);
    assert forall k :: 0 <= k < |toolFiles| ==> exec(toolFiles[k].1) == LoadToolScript(toolFiles[k].1, script(toolFiles[k].1));
  }

  /** No load from a script in `_cli_utils.py` raises past `except Exception` unless the script itself does. */
  lemma LoadFailuresCaughtUnlessScriptExits(toolFiles: ToolFiles, script: Path -> ScriptOutcome)
    requires forall k :: 0 <= k < |toolFiles| ==> !(script(toolFiles[k].1).Raises? && !script(toolFiles[k].1).error.IsException())
    ensures FirstFatal(toolFiles, p => LoadToolScript(p, script(p))).None?
  {
    var exec := p => LoadToolScript(p, script(p));
    FirstFatalIff(toolFiles, exec);
    forall k | 0 <= k < |toolFiles| ensures !Fatal(exec(toolFiles[k].1)) {
      var o := script(toolFiles[k].1);
      if o.NoSpec? || (o.Raises? && o.error.kind.FileNotFoundError?) {
        CliLlmErrorIsException(exec(toolFiles[k].1).error);
      }
    }
  }

  /**
   * The two-argument `InvalidModuleError` call does not change what is
   * listed: as written, the same names are kept and listing aborts on the
   * same exception; only the text of the warning differs.
   */
  lemma AsWrittenListsTheSame(toolFiles: ToolFiles, script: Path -> ScriptOutcome)
    ensures AcceptedNames(toolFiles, p => LoadToolScriptAsWritten(p, script(p)))
            == AcceptedNames(toolFiles, p => LoadToolScript(p, script(p)))
    ensures FirstFatal(toolFiles, p => LoadToolScriptAsWritten(p, script(p)))
            == FirstFatal(toolFiles, p => LoadToolScript(p, script(p)))
  {
    var asWritten := p => LoadToolScriptAsWritten(p, script(p));
    var corrected := p => LoadToolScript(p, script(p));
    forall i | 0 <= i < |toolFiles|
      ensures Classify(asWritten(toolFiles[i].1)).Accepted? == Classify(corrected(toolFiles[i].1)).Accepted?
      ensures Fatal(asWritten(toolFiles[i].1)) || Fatal(corrected(toolFiles[i].1)) ==>
                asWritten(toolFiles[i].1) == corrected(toolFiles[i].1)
    {
      var p := toolFiles[i].1;
      if script(p).NoSpec? || (script(p).Raises? && script(p).error.kind.FileNotFoundError?) {
        CliLlmErrorIsException(corrected(p).error);
      }
    }
    SameVerdictsSameListing(toolFiles, asWritten, corrected);
  }
}
