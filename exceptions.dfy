/** The plugin's error taxonomy (`exceptions.py`) and the other failures the
    modelled core can raise. */
module Exceptions {
  import opened Wrappers

  /** The classes of the `PluginGoCQException` hierarchy. */
  datatype ErrorKind =
    | PluginGoCQException
    | ProcessAlreadyStarted
    | ProcessNotFound
    | BotNotFound
    | AccountAlreadyExists
    | RemovePredefinedAccount
    | BadConfigFormat

  /** The class attribute `message` of each error class. */
  function ClassMessage(kind: ErrorKind): string {
    match kind
    case PluginGoCQException => "Unknown error occurred"
    case ProcessAlreadyStarted => "Process already started"
    case ProcessNotFound => "Process not found"
    case BotNotFound => "Bot instance not found"
    case AccountAlreadyExists => "Account already exists"
    case RemovePredefinedAccount => "Predefined account cannot be removed"
    case BadConfigFormat => "Bad config format"
  }

  /** The class attribute `code` of each error class. */
  function ClassCode(kind: ErrorKind): int {
    match kind
    case PluginGoCQException => 500
    case ProcessAlreadyStarted => 409
    case ProcessNotFound => 404
    case BotNotFound => 404
    case AccountAlreadyExists => 409
    case RemovePredefinedAccount => 403
    case BadConfigFormat => 400
  }

  /** An instance of one of those classes: its resolved `message` and `code`,
      and `args`, the arguments handed to `Exception.__init__`. */
  datatype PluginError = PluginError(kind: ErrorKind, message: string, code: int, args: seq<string>)

  /** Python truthiness of an optional string and an optional integer. */
  predicate TruthyText(s: Option<string>) { s.Some? && s.value != "" }
  predicate TruthyCode(c: Option<int>) { c.Some? && c.value != 0 }

  /** `kind(message, code, *extra)`: a supplied message or code is kept only
      when it is truthy, otherwise the class default is used; the resolved
      message is the exception's first argument. */
  function Raise(kind: ErrorKind, message: Option<string>, code: Option<int>, extra: seq<string>): (e: PluginError)
    ensures e.kind == kind
    ensures TruthyText(message) ==> e.message == message.value
    ensures !TruthyText(message) ==> e.message == ClassMessage(kind)
    ensures TruthyCode(code) ==> e.code == code.value
    ensures !TruthyCode(code) ==> e.code == ClassCode(kind)
    ensures |e.args| >= 1 && e.args[0] == e.message && e.args[1..] == extra
  {
    var m := if TruthyText(message) then message.value else ClassMessage(kind);
    var c := if TruthyCode(code) then code.value else ClassCode(kind);
    PluginError(kind, m, c, [m] + extra)
  }

  /** A bare `raise Kind`: no arguments at all. */
  function Default(kind: ErrorKind): PluginError {
    Raise(kind, None, None, [])
  }

  /** A bare raise carries exactly the class message and code. */
  lemma DefaultUsesClassAttributes(kind: ErrorKind)
    ensures Default(kind).message == ClassMessage(kind)
    ensures Default(kind).code == ClassCode(kind)
    ensures Default(kind).args == [ClassMessage(kind)]
  {
  }

  /** However it is constructed, an error never ends up with an empty
      message or a zero code, and supplying `""` or `0` is the same as
      supplying nothing. */
  lemma ResolvedErrorIsNeverFalsy(kind: ErrorKind, message: Option<string>, code: Option<int>, extra: seq<string>)
    ensures Raise(kind, message, code, extra).message != ""
    ensures Raise(kind, message, code, extra).code != 0
    ensures Raise(kind, Some(""), Some(0), extra) == Raise(kind, None, None, extra)
  {
  }

  /** The base class defaults to code 500 with "Unknown error occurred";
      every subclass defaults to a 4xx code. */
  lemma CodeTable(kind: ErrorKind)
    ensures kind == PluginGoCQException <==> ClassCode(kind) == 500
    ensures kind != PluginGoCQException ==> 400 <= ClassCode(kind) < 500
    ensures ClassCode(kind) == 409 <==> kind in {ProcessAlreadyStarted, AccountAlreadyExists}
    ensures ClassCode(kind) == 404 <==> kind in {ProcessNotFound, BotNotFound}
    ensures ClassCode(kind) == 403 <==> kind == RemovePredefinedAccount
    ensures ClassCode(kind) == 400 <==> kind == BadConfigFormat
  {
  }

  /** Codes alone do not identify the error kind, but the default messages do. */
  lemma CodesAreNotUnique()
    ensures exists k1, k2 :: k1 != k2 && ClassCode(k1) == ClassCode(k2)
    ensures forall k1, k2 :: k1 != k2 ==> ClassMessage(k1) != ClassMessage(k2)
  {
    assert ClassCode(ProcessNotFound) == ClassCode(BotNotFound);
  }

  /** Every failure the modelled core can raise. */
  datatype Failure =
    | Plugin(error: PluginError)       // a PluginGoCQException subclass
    | ProcessNotStarted                // imported by process.py but not defined in exceptions.py
    | RuntimeError(message: string)
    | AssertionError(message: string)
    | KeyError(key: int)               // dict.pop of a missing key
    | ValidationError                  // pydantic rejected a model
    | AttributeError                   // an attribute read before it was assigned
    | FileNotFound                     // reading or unlinking a missing file
    | TextDecodeError                  // a binary-written file read as text
    | OsQueryFailed                    // psutil could not query the child process

  datatype Result<+T> = Ok(value: T) | Err(failure: Failure)

  /** `raise Kind` as a failure. */
  function Fail(kind: ErrorKind): Failure {
    Plugin(Default(kind))
  }
}
