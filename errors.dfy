/**
 * The exceptions of `errors.py` and the Python and click exceptions that the
 * discovery code raises, catches or lets through.
 */
module Errors {
  import opened Wrappers
  import opened Strings

  /** Which exception class was raised. */
  datatype Kind =
    | InvalidModuleError        // errors.InvalidModuleError
    | InvalidToolCommandError   // errors.InvalidToolCommandError, as its callers name it
    | UsageError                // click.UsageError
    | AttributeError
    | KeyError
    | TypeError
    | FileNotFoundError
    | OtherException            // any other subclass of Exception
    | SystemExit                // a BaseException that is not an Exception

  /** An exception: its class and `str()` of it. */
  datatype Error = Error(kind: Kind, message: string) {

    /** `isinstance(e, Exception)`: everything but the BaseException-only classes. */
    predicate IsException() { !kind.SystemExit? }

    /** `isinstance(e, CliLlmError)`: the package's own exceptions. */
    predicate IsCliLlmError() { kind.InvalidModuleError? }
  }

  /** `CliLlmError` derives from `Exception`, so `except Exception` catches it. */
  lemma CliLlmErrorIsException(e: Error)
    requires e.IsCliLlmError()
    ensures e.IsException()
  {
  }

  const InvalidModulePrefix: string := "Invalid module name: "
  const InvalidModuleSuffix: string := ". It is usually the name of the python file you are trying to use."

  /** The message `InvalidModuleError.__init__` gives its exception; it depends on the name alone. */
  function InvalidModuleMessage(moduleName: string): (msg: string)
    ensures |msg| == |InvalidModulePrefix| + |moduleName| + |InvalidModuleSuffix|
    ensures msg[..|InvalidModulePrefix|] == InvalidModulePrefix
    ensures msg[|msg| - |InvalidModuleSuffix|..] == InvalidModuleSuffix
  {
    InvalidModulePrefix + moduleName + InvalidModuleSuffix
  }

  /** Reads the module name back out of a message; `None` for any other text. */
  function ModuleNameOf(msg: string): (r: Option<string>)
    ensures r.Some? ==> |r.value| + |InvalidModulePrefix| + |InvalidModuleSuffix| == |msg|
  {
    var p, q := |InvalidModulePrefix|, |InvalidModuleSuffix|;
    if |msg| >= p + q && msg[..p] == InvalidModulePrefix && msg[|msg| - q..] == InvalidModuleSuffix
    then Some(msg[p..|msg| - q])
    else None
  }

  /** The message carries the module name in full: reading it back gives the name. */
  lemma InvalidModuleMessageRoundTrip(moduleName: string)
    ensures ModuleNameOf(InvalidModuleMessage(moduleName)) == Some(moduleName)
  {
    var msg := InvalidModuleMessage(moduleName);
    var p := |InvalidModulePrefix|;
    assert msg[p..|msg| - |InvalidModuleSuffix|] == moduleName;
  }

  /** Different module names give different messages. */
  lemma InvalidModuleMessageInjective(a: string, b: string)
    requires InvalidModuleMessage(a) == InvalidModuleMessage(b)
    ensures a == b
  {
    InvalidModuleMessageRoundTrip(a);
    InvalidModuleMessageRoundTrip(b);
  }

  /** `pytest.raises(..., match=name)` succeeds: the message contains the module name. */
  lemma InvalidModuleMessageMentions(moduleName: string)
    ensures Contains(InvalidModuleMessage(moduleName), moduleName)
  {
    var msg := InvalidModuleMessage(moduleName);
    var p := |InvalidModulePrefix|;
    assert msg[p..p + |moduleName|] == moduleName;
    assert OccursAt(moduleName, msg, p);
  }

  /**
   * `errors.InvalidModuleError(*args)`: Python binds the positional arguments
   * against `__init__(self, module_name)` and raises `TypeError` when their
   * number is not one.
   */
  function NewInvalidModuleError(args: seq<string>): (e: Error)
    ensures e.kind.InvalidModuleError? <==> |args| == 1
    ensures |args| == 1 ==> ModuleNameOf(e.message) == Some(args[0])
    ensures |args| != 1 ==> e.kind.TypeError?
  {
    if |args| == 1 then
      InvalidModuleMessageRoundTrip(args[0]);
      Error(InvalidModuleError, InvalidModuleMessage(args[0]))
    else if args == [] then
      Error(TypeError, "InvalidModuleError.__init__() missing 1 required positional argument: 'module_name'")
    else
      Error(TypeError, "InvalidModuleError.__init__() takes 2 positional arguments but "
                       + IntToString(|args| + 1) + " were given")
  }

  /** `KeyError(key)` from subscripting a dict with an `int` it does not hold. */
  function KeyErrorFor(key: int): (e: Error)
    ensures e.kind.KeyError? && e.message == IntToString(key)
  {
    Error(KeyError, IntToString(key))
  }
}
