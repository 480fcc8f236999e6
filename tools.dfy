/**
 * What the two `ToolGatherer`s share: the tool scripts as the loader sees
 * them, the four-stage filter, its diagnostics, dispatch of a loaded module,
 * `functools.cache` around a loader, and the enumeration loop of
 * `list_commands` with the functions that specify it.
 */
module Tools {
  import opened Wrappers
  import opened Strings
  import opened Errors
  import opened PyLogging

  /**
   * A tool script's file: `filepath.parent` and `filepath.stem`. The suffix
   * is not kept, so two files that differ only in their suffix are one
   * cache key and one script here.
   */
  datatype Path = Path(parent: string, stem: string)

  /** The value bound to a module's `tool` attribute. */
  datatype ToolValue =
    | PyNone                        // `tool = None`: the tool is switched off
    | Command(name: string)         // an instance of `click.Command` (or a subclass)
    | NotACommand(typeName: string) // anything else, e.g. `tool = 1`

  /** A loaded module: its `__name__`, and its `tool` attribute if it has one. */
  datatype Module = Module(name: string, tool: Option<ToolValue>)

  /** The one outcome of the filter in `list_commands` for one candidate, in the order it is tested. */
  datatype Verdict =
    | LoadFailed(error: Error)
    | NoToolAttribute
    | ToolIsNone
    | WrongToolType
    | Accepted(command: string)

  /** Runs the checks of `list_commands` in their order: load, `hasattr`, `is None`, `isinstance`. */
  function Classify(r: Result<Module, Error>): (v: Verdict)
    ensures v.Accepted? <==> r.Success? && r.value.tool.Some? && r.value.tool.value.Command?
    ensures v.Accepted? ==> v.command == r.value.tool.value.name
    ensures v.LoadFailed? <==> r.Failure?
    ensures v.LoadFailed? ==> v.error == r.error
    ensures v.NoToolAttribute? <==> r.Success? && r.value.tool.None?
    ensures v.ToolIsNone? <==> r.Success? && r.value.tool == Some(PyNone)
  {
    match r
    case Failure(e) => LoadFailed(e)
    case Success(m) =>
      match m.tool
      case None => NoToolAttribute
      case Some(PyNone) => ToolIsNone
      case Some(NotACommand(_)) => WrongToolType
      case Some(Command(c)) => Accepted(c)
  }

  /** The log call `list_commands` makes for a skipped candidate; none for an accepted one. */
  function Diagnostic(name: string, v: Verdict): (d: Option<Record>)
    ensures d.None? <==> v.Accepted?
    ensures d.Some? ==> d.value.level == (if v.ToolIsNone? then Debug else Warning)
    ensures d.Some? ==> Contains(d.value.message, name)
  {
    match v
    case Accepted(_) => None
    case LoadFailed(e) =>
      var tail := "` due to: " + e.message;
      ContainsMiddle("Failed to get the tool script from `", name, tail);
      Some(Record(Warning, "Failed to get the tool script from `" + name + tail))
    case NoToolAttribute =>
      ContainsMiddle("The module `", name, "` does not have an attribute `tool`");
      Some(Record(Warning, "The module `" + name + "` does not have an attribute `tool`"))
    case ToolIsNone =>
      ContainsMiddle("Skipping module `", name, "`");
      Some(Record(Debug, "Skipping module `" + name + "`"))
    case WrongToolType =>
      ContainsMiddle("The attribute `tool` in the module `", name, "` is not of type `click.Command`");
      Some(Record(Warning, "The attribute `tool` in the module `" + name + "` is not of type `click.Command`"))
  }

  /** The four reasons to skip a candidate leave four different messages. */
  lemma SkipReasonsDistinguishable(name: string, e: Error, v1: Verdict, v2: Verdict)
    requires !v1.Accepted? && !v2.Accepted?
    requires v1.LoadFailed? ==> v1 == LoadFailed(e)
    requires v2.LoadFailed? ==> v2 == LoadFailed(e)
    requires v1 != v2
    ensures Diagnostic(name, v1).value.message != Diagnostic(name, v2).value.message
  {
    var m1, m2 := Diagnostic(name, v1).value.message, Diagnostic(name, v2).value.message;
    if v1.LoadFailed? || v2.LoadFailed? || v1.ToolIsNone? || v2.ToolIsNone? {
      assert m1[0] != m2[0];
    } else {
      assert m1[4] != m2[4];
    }
  }

  /**
   * `get_command` once the module is loaded: return `module.tool` when it is
   * a `click.Command`, otherwise fail. Reading `module.tool` on a module
   * without it raises `AttributeError`; a `tool` of another type raises
   * `InvalidToolCommandError`.
   */
  function Dispatch(r: Result<Module, Error>): (c: Result<string, Error>)
    ensures c.Success? <==> Classify(r).Accepted?
    ensures c.Success? ==> c.value == Classify(r).command
    ensures r.Failure? ==> c == Failure(r.error)
    ensures r.Success? && r.value.tool.None? ==>
              c == Failure(Error(AttributeError, "module '" + r.value.name + "' has no attribute 'tool'"))
    ensures r.Success? && r.value.tool.Some? && !r.value.tool.value.Command? ==>
              c == Failure(Error(InvalidToolCommandError, WrongToolTypeMessage(r.value.name)))
  {
    match r
    case Failure(e) => Failure(e)
    case Success(m) =>
      match m.tool
      case None => Failure(Error(AttributeError, "module '" + m.name + "' has no attribute 'tool'"))
      case Some(Command(c)) => Success(c)
      case Some(_) => Failure(Error(InvalidToolCommandError, WrongToolTypeMessage(m.name)))
  }

  function WrongToolTypeMessage(moduleName: string): string
  {
    "The attribute `tool` in the module :" + moduleName + " is not of type `click.Command`"
  }

  /**
   * `get_command` as written: `errors.InvalidToolCommandError` is looked up in
   * a module that does not define it, so that lookup raises `AttributeError`
   * before any `InvalidToolCommandError` can be built.
   */
  function DispatchAsWritten(r: Result<Module, Error>): (c: Result<string, Error>)
    ensures c.Success? <==> Dispatch(r).Success?
    ensures c.Success? ==> c == Dispatch(r)
    ensures r.Success? && r.value.tool.Some? && !r.value.tool.value.Command? ==> c.Failure? && c.error.kind.AttributeError?
  {
    match r
    case Failure(e) => Failure(e)
    case Success(m) =>
      match m.tool
      case None => Failure(Error(AttributeError, "module '" + m.name + "' has no attribute 'tool'"))
      case Some(Command(c)) => Success(c)
      case Some(_) =>
        Failure(Error(AttributeError, "module 'cli_llm.errors' has no attribute 'InvalidToolCommandError'"))
  }

  /** A module whose `tool` is `None` shows the difference: as written it fails with `AttributeError`. */
  lemma DispatchAsWrittenMissesInvalidToolCommand(name: string)
    ensures DispatchAsWritten(Success(Module(name, Some(PyNone)))).error.kind == AttributeError
    ensures Dispatch(Success(Module(name, Some(PyNone)))).error.kind == InvalidToolCommandError
  {
  }

  /**
   * `functools.cache` around a loader `exec`: a hit returns the cached module
   * and runs nothing; a miss runs `exec` and keeps its module. An exception is
   * not cached, so a failed key is run again on the next call. `Calls` records
   * every run of `exec`.
   */
  class MemoLoader<K(==)> {
    const exec: K -> Result<Module, Error>
    var cache: map<K, Module>
    ghost var Calls: seq<K>

    /** Every cached module is what `exec` yields for its key. */
    ghost predicate Valid()
      reads this
    {
      forall k :: k in cache ==> exec(k) == Success(cache[k])
    }

    constructor (exec: K -> Result<Module, Error>)
      ensures Valid() && this.exec == exec
      ensures cache == map[] && Calls == []
    {
      this.exec := exec;
      cache := map[];
      Calls := [];
    }

    method Load(k: K) returns (r: Result<Module, Error>)
      requires Valid()
      modifies this
      ensures Valid()
      ensures r == exec(k)
      ensures old(k in cache) ==> cache == old(cache) && Calls == old(Calls)
      ensures !old(k in cache) ==> Calls == old(Calls) + [k]
      ensures !old(k in cache) ==> cache == if r.Success? then old(cache)[k := r.value] else old(cache)
    {
      if k in cache {
        r := Success(cache[k]);
      } else {
        r := exec(k);
        Calls := Calls + [k];
        if r.Success? {
          cache := cache[k := r.value];
        }
      }
    }
  }

  /** A load that raises something `except Exception` does not catch. */
  predicate Fatal(r: Result<Module, Error>)
  {
    r.Failure? && !r.error.IsException()
  }

  /** The names `list_commands` keeps, in candidate order, before sorting. */
  function AcceptedNames<K>(cands: seq<(string, K)>, exec: K -> Result<Module, Error>): seq<string>
  {
    if cands == [] then []
    else
      var last := cands[|cands| - 1];
      AcceptedNames(cands[..|cands| - 1], exec) + (if Classify(exec(last.1)).Accepted? then [last.0] else [])
  }

  /** The log calls `list_commands` makes, in candidate order. */
  function Diagnostics<K>(cands: seq<(string, K)>, exec: K -> Result<Module, Error>): seq<Record>
  {
    if cands == [] then []
    else
      var last := cands[|cands| - 1];
      var d := Diagnostic(last.0, Classify(exec(last.1)));
      Diagnostics(cands[..|cands| - 1], exec) + (if d.Some? then [d.value] else [])
  }

  /** The first candidate whose load raises past `except Exception`, if any. */
  function FirstFatal<K>(cands: seq<(string, K)>, exec: K -> Result<Module, Error>): Option<Error>
  {
    if cands == [] then None
    else
      var prior := FirstFatal(cands[..|cands| - 1], exec);
      var r := exec(cands[|cands| - 1].1);
      if prior.Some? then prior
      else if Fatal(r) then Some(r.error)
      else None
  }

  /** A name is listed iff one of its candidates loads and binds `tool` to a `click.Command`. */
  lemma {:induction false} AcceptedNamesIff<K>(cands: seq<(string, K)>, exec: K -> Result<Module, Error>, n: string)
    ensures n in AcceptedNames(cands, exec) <==>
            exists k :: 0 <= k < |cands| && cands[k].0 == n && Classify(exec(cands[k].1)).Accepted?
  {
    if cands != [] {
      var init := cands[..|cands| - 1];
      AcceptedNamesIff(init, exec, n);
      if n in AcceptedNames(init, exec) {
        var k :| 0 <= k < |init| && init[k].0 == n && Classify(exec(init[k].1)).Accepted?;
        assert cands[k] == init[k];
      }
      if exists k :: 0 <= k < |cands| && cands[k].0 == n && Classify(exec(cands[k].1)).Accepted? {
        var k :| 0 <= k < |cands| && cands[k].0 == n && Classify(exec(cands[k].1)).Accepted?;
        if k < |init| { assert init[k] == cands[k]; }
      }
    }
  }

  /** Every candidate is either listed or logged once, never both and never neither. */
  lemma {:induction false} OneOutcomePerCandidate<K>(cands: seq<(string, K)>, exec: K -> Result<Module, Error>)
    ensures |AcceptedNames(cands, exec)| + |Diagnostics(cands, exec)| == |cands|
  {
    if cands != [] {
      OneOutcomePerCandidate(cands[..|cands| - 1], exec);
    }
  }

  /** Listing stops only for an exception outside `Exception`; any `Exception` is skipped. */
  lemma {:induction false} FirstFatalIff<K>(cands: seq<(string, K)>, exec: K -> Result<Module, Error>)
    ensures FirstFatal(cands, exec).None? <==> forall k :: 0 <= k < |cands| ==> !Fatal(exec(cands[k].1))
    ensures FirstFatal(cands, exec).Some? ==> !FirstFatal(cands, exec).value.IsException()
  {
    if cands != [] {
      var init := cands[..|cands| - 1];
      FirstFatalIff(init, exec);
      assert forall k :: 0 <= k < |init| ==> init[k] == cands[k];
    }
  }

  lemma {:induction false} AcceptedNamesAppend<K>(a: seq<(string, K)>, b: seq<(string, K)>, exec: K -> Result<Module, Error>)
    ensures AcceptedNames(a + b, exec) == AcceptedNames(a, exec) + AcceptedNames(b, exec)
  {
    if b == [] {
      assert a + b == a;
    } else {
      assert (a + b)[..|a + b| - 1] == a + b[..|b| - 1];
      AcceptedNamesAppend(a, b[..|b| - 1], exec);
    }
  }

  /** The order in which candidates are enumerated does not change which names are kept. */
  lemma {:induction false} AcceptedNamesOrderIndependent<K>(a: seq<(string, K)>, b: seq<(string, K)>, exec: K -> Result<Module, Error>)
    requires multiset(a) == multiset(b)
    ensures multiset(AcceptedNames(a, exec)) == multiset(AcceptedNames(b, exec))
    decreases |a|
  {
    if a != [] {
      var x := a[|a| - 1];
      var a' := a[..|a| - 1];
      assert a == a' + [x];
      assert x in multiset(b);
      var j :| 0 <= j < |b| && b[j] == x;
      var b' := b[..j] + b[j + 1..];
      assert b == b[..j] + [x] + b[j + 1..];
      assert multiset(a') == multiset(b') by {
        assert multiset(a) == multiset(a') + multiset{x};
        assert multiset(b) == multiset(b[..j]) + multiset{x} + multiset(b[j + 1..]);
        assert multiset(b') == multiset(b[..j]) + multiset(b[j + 1..]);
        calc {
          multiset(a');
          multiset(a) - multiset{x};
          multiset(b) - multiset{x};
          multiset(b');
        }
      }
      AcceptedNamesOrderIndependent(a', b', exec);
      AcceptedNamesAppend(a', [x], exec);
      AcceptedNamesAppend(b[..j] + [x], b[j + 1..], exec);
      AcceptedNamesAppend(b[..j], [x], exec);
      AcceptedNamesAppend(b[..j], b[j + 1..], exec);
    }
  }

  /**
   * `list_commands` is deterministic: whatever order the candidates come in,
   * the sorted list of kept names is the same.
   */
  lemma ListingOrderIndependent<K>(a: seq<(string, K)>, b: seq<(string, K)>, exec: K -> Result<Module, Error>,
                                   ra: seq<string>, rb: seq<string>)
    requires multiset(a) == multiset(b)
    requires Sorted(ra) && multiset(ra) == multiset(AcceptedNames(a, exec))
    requires Sorted(rb) && multiset(rb) == multiset(AcceptedNames(b, exec))
    ensures ra == rb
  {
    AcceptedNamesOrderIndependent(a, b, exec);
    SortedUnique(ra, rb);
  }


  /**
   * How far `list_commands` gets: the number of candidates it loads and
   * then keeps or logs before one raises past `except Exception`, or all
   * of them.
   */
  function Processed<K>(cands: seq<(string, K)>, exec: K -> Result<Module, Error>): (n: nat)
    ensures n <= |cands|
  {
    if cands == [] then 0
    else
      var init := cands[..|cands| - 1];
      if FirstFatal(init, exec).Some? then Processed(init, exec)
      else if Fatal(exec(cands[|cands| - 1].1)) then |init|
      else |cands|
  }

  /** The loop stops exactly at the first candidate whose load raises past `except Exception`, and reports that error. */
  lemma {:induction false} ProcessedStopsAtFirstFatal<K>(cands: seq<(string, K)>, exec: K -> Result<Module, Error>)
    ensures forall k :: 0 <= k < Processed(cands, exec) ==> !Fatal(exec(cands[k].1))
    ensures Processed(cands, exec) < |cands| ==>
              && Fatal(exec(cands[Processed(cands, exec)].1))
              && FirstFatal(cands, exec) == Some(exec(cands[Processed(cands, exec)].1).error)
    ensures Processed(cands, exec) == |cands| <==> FirstFatal(cands, exec).None?
  {
    if cands != [] {
      var init := cands[..|cands| - 1];
      ProcessedStopsAtFirstFatal(init, exec);
      assert forall k :: 0 <= k < |init| ==> init[k] == cands[k];
    }
  }

  /** The candidates `list_commands` loads: all of them, or those up to and including the first that raises. */
  function Loaded<K>(cands: seq<(string, K)>, exec: K -> Result<Module, Error>): seq<(string, K)>
  {
    var n := Processed(cands, exec);
    if n < |cands| then cands[..n + 1] else cands
  }

  /** The keys a cache holding `cached` holds after loading the candidates' keys in turn. */
  function CachedAfter<K(==)>(cached: set<K>, cands: seq<(string, K)>, exec: K -> Result<Module, Error>): set<K>
  {
    if cands == [] then cached
    else
      var k := cands[|cands| - 1].1;
      CachedAfter(cached, cands[..|cands| - 1], exec) + (if exec(k).Success? then {k} else {})
  }

  /** The runs of the loader, in order, when the candidates' keys are loaded in turn through a cache holding `cached`. */
  function RunsAfter<K(==)>(cached: set<K>, cands: seq<(string, K)>, exec: K -> Result<Module, Error>): seq<K>
  {
    if cands == [] then []
    else
      var init := cands[..|cands| - 1];
      var k := cands[|cands| - 1].1;
      RunsAfter(cached, init, exec) + (if k in CachedAfter(cached, init, exec) then [] else [k])
  }

  /** A cache keeps what it held, and ends up holding exactly the loaded keys whose load succeeded. */
  lemma {:induction false} CachedAfterHolds<K>(cached: set<K>, cands: seq<(string, K)>, exec: K -> Result<Module, Error>)
    ensures cached <= CachedAfter(cached, cands, exec)
    ensures forall i :: 0 <= i < |cands| && exec(cands[i].1).Success? ==> cands[i].1 in CachedAfter(cached, cands, exec)
    ensures forall k :: k in CachedAfter(cached, cands, exec) ==>
              k in cached || (exec(k).Success? && exists i :: 0 <= i < |cands| && cands[i].1 == k)
  {
    if cands != [] {
      var init := cands[..|cands| - 1];
      CachedAfterHolds(cached, init, exec);
      assert forall i :: 0 <= i < |init| ==> init[i] == cands[i];
    }
  }

  /** The loader runs only for candidate keys the cache did not hold beforehand. */
  lemma {:induction false} RunsAfterMisses<K>(cached: set<K>, cands: seq<(string, K)>, exec: K -> Result<Module, Error>)
    ensures forall j :: 0 <= j < |RunsAfter(cached, cands, exec)| ==> RunsAfter(cached, cands, exec)[j] !in cached
    ensures forall j :: 0 <= j < |RunsAfter(cached, cands, exec)| ==>
              exists i :: 0 <= i < |cands| && cands[i].1 == RunsAfter(cached, cands, exec)[j]
  {
    if cands != [] {
      var init := cands[..|cands| - 1];
      RunsAfterMisses(cached, init, exec);
      CachedAfterHolds(cached, init, exec);
      var runs, before := RunsAfter(cached, cands, exec), RunsAfter(cached, init, exec);
      var k := cands[|cands| - 1].1;
      assert runs == before + (if k in CachedAfter(cached, init, exec) then [] else [k]);
      forall j | 0 <= j < |runs|
        ensures runs[j] !in cached
        ensures exists i :: 0 <= i < |cands| && cands[i].1 == runs[j]
      {
        if j < |before| {
          assert runs[j] == before[j];
          var i :| 0 <= i < |init| && init[i].1 == before[j];
          assert cands[i] == init[i];
        } else {
          assert runs[j] == k;
        }
      }
    } else {
      assert RunsAfter(cached, cands, exec) == [];
    }
  }

  /**
   * The point of the cache: a script that loads runs at most once however
   * often its key comes up, and a key cached beforehand never runs.
   */
  lemma {:induction false} LoadedScriptRunsOnce<K>(cached: set<K>, cands: seq<(string, K)>,
                                                  exec: K -> Result<Module, Error>, k: K)
    requires exec(k).Success?
    ensures multiset(RunsAfter(cached, cands, exec))[k] <= 1
    ensures k in cached ==> multiset(RunsAfter(cached, cands, exec))[k] == 0
  {
    if cands != [] {
      var init := cands[..|cands| - 1];
      LoadedScriptRunsOnce(cached, init, exec, k);
      RunsAfterMisses(cached, init, exec);
      CachedAfterHolds(cached, init, exec);
    }
  }

  /**
   * Only the verdicts of the loads decide the listing: two loaders that
   * accept the same candidates and raise the same errors past
   * `except Exception` keep the same names and abort on the same error.
   */
  lemma {:induction false} SameVerdictsSameListing<K>(cands: seq<(string, K)>, e1: K -> Result<Module, Error>,
                                                      e2: K -> Result<Module, Error>)
    requires forall i :: 0 <= i < |cands| ==>
               && Classify(e1(cands[i].1)).Accepted? == Classify(e2(cands[i].1)).Accepted?
               && (Fatal(e1(cands[i].1)) || Fatal(e2(cands[i].1)) ==> e1(cands[i].1) == e2(cands[i].1))
    ensures AcceptedNames(cands, e1) == AcceptedNames(cands, e2)
    ensures FirstFatal(cands, e1) == FirstFatal(cands, e2)
  {
    if cands != [] {
      var init := cands[..|cands| - 1];
      assert forall i :: 0 <= i < |init| ==> init[i] == cands[i];
      SameVerdictsSameListing(init, e1, e2);
    }
  }

  /** One more candidate: how the kept names, the log calls and the search for a fatal load extend. */
  lemma GatherStep<K>(cands: seq<(string, K)>, exec: K -> Result<Module, Error>, i: nat)
    requires i < |cands|
    ensures var c := cands[i]; var d := Diagnostic(c.0, Classify(exec(c.1)));
      && AcceptedNames(cands[..i + 1], exec)
         == AcceptedNames(cands[..i], exec) + (if d.None? then [c.0] else [])
      && Diagnostics(cands[..i + 1], exec)
         == Diagnostics(cands[..i], exec) + (if d.Some? then [d.value] else [])
      && (FirstFatal(cands[..i], exec).None? && !Fatal(exec(c.1)) ==> FirstFatal(cands[..i + 1], exec).None?)
  {
    assert cands[..i + 1][..i] == cands[..i];
  }

  /**
   * One more candidate loaded through a cache that holds only keys whose
   * load succeeded: a hit changes nothing; a miss runs the loader and keeps
   * a success.
   */
  lemma CacheStep<K>(cands: seq<(string, K)>, exec: K -> Result<Module, Error>, cached: set<K>, i: nat,
                     before: map<K, Module>, after: map<K, Module>, base: seq<K>, callsBefore: seq<K>, callsAfter: seq<K>)
    requires i < |cands|
    requires forall k :: k in before ==> exec(k).Success?
    requires before.Keys == CachedAfter(cached, cands[..i], exec)
    requires callsBefore == base + RunsAfter(cached, cands[..i], exec)
    requires cands[i].1 in before ==> after == before && callsAfter == callsBefore
    requires cands[i].1 !in before ==>
               && callsAfter == callsBefore + [cands[i].1]
               && after == if exec(cands[i].1).Success? then before[cands[i].1 := exec(cands[i].1).value] else before
    ensures after.Keys == CachedAfter(cached, cands[..i + 1], exec)
    ensures callsAfter == base + RunsAfter(cached, cands[..i + 1], exec)
  {
    assert cands[..i + 1][..i] == cands[..i];
  }

  /** Where the loop stops: at the first candidate whose load raises past `except Exception`, or at the end. */
  lemma StopsAt<K>(cands: seq<(string, K)>, exec: K -> Result<Module, Error>, i: nat)
    requires i <= |cands|
    requires FirstFatal(cands[..i], exec).None?
    requires i < |cands| ==> Fatal(exec(cands[i].1))
    ensures Processed(cands, exec) == i
    ensures Loaded(cands, exec) == if i < |cands| then cands[..i + 1] else cands
    ensures FirstFatal(cands, exec) == if i < |cands| then Some(exec(cands[i].1).error) else None
  {
    ProcessedStopsAtFirstFatal(cands, exec);
    FirstFatalIff(cands[..i], exec);
    assert forall k :: 0 <= k < i ==> cands[..i][k] == cands[k];
  }

  /**
   * `list_commands`: load each candidate through the cache, skip it with one
   * log call unless it passes the four checks, then sort the kept names. An
   * exception outside `Exception` ends the loop and propagates; the records
   * logged before it stay logged. The cache ends up holding every key that
   * loaded, and the loader ran once for each key the cache did not hold at
   * that moment.
   */
  method Gather<K(==)>(cands: seq<(string, K)>, loader: MemoLoader<K>) returns (r: Result<seq<string>, Error>, logged: seq<Record>)
    requires loader.Valid()
    modifies loader
    ensures loader.Valid()
    ensures FirstFatal(cands, loader.exec).Some? ==> r == Failure(FirstFatal(cands, loader.exec).value)
    ensures FirstFatal(cands, loader.exec).None? ==>
              && r.Success?
              && Sorted(r.value)
              && multiset(r.value) == multiset(AcceptedNames(cands, loader.exec))
              && logged == Diagnostics(cands, loader.exec)
    ensures logged == Diagnostics(cands[..Processed(cands, loader.exec)], loader.exec)
    ensures loader.cache.Keys == CachedAfter(old(loader.cache).Keys, Loaded(cands, loader.exec), loader.exec)
    ensures loader.Calls == old(loader.Calls) + RunsAfter(old(loader.cache).Keys, Loaded(cands, loader.exec), loader.exec)
    ensures FirstFatal(cands, loader.exec).None? ==>
              forall i :: 0 <= i < |cands| && loader.exec(cands[i].1).Success? ==> cands[i].1 in loader.cache
  {
    ghost var exec := loader.exec;
    var rv: seq<string> := [];
    logged := [];
    for i := 0 to |cands|
      invariant loader.Valid()
      invariant FirstFatal(cands[..i], exec).None?
      invariant rv == AcceptedNames(cands[..i], exec)
      invariant logged == Diagnostics(cands[..i], exec)
      invariant loader.cache.Keys == CachedAfter(old(loader.cache).Keys, cands[..i], exec)
      invariant loader.Calls == old(loader.Calls) + RunsAfter(old(loader.cache).Keys, cands[..i], exec)
    {
      GatherStep(cands, exec, i);
      var (name, key) := cands[i];
      ghost var before, callsBefore := loader.cache, loader.Calls;
      var loaded := loader.Load(key);
      CacheStep(cands, exec, old(loader.cache).Keys, i, before, loader.cache, old(loader.Calls), callsBefore, loader.Calls);
      if Fatal(loaded) {
        StopsAt(cands, exec, i);
        return Failure(loaded.error), logged;
      }
      var d := Diagnostic(name, Classify(loaded));
      if d.Some? {
        logged := logged + [d.value];
      } else {
        rv := rv + [name];
      }
    }
    StopsAt(cands, exec, |cands|);
    assert cands[..|cands|] == cands;
    CachedAfterHolds(old(loader.cache).Keys, cands, exec);
    r := Success(SortStrings(rv));
  }
}
