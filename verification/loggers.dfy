/**
 * utils/loggers.py: naming a module's logger and setting a logger up at most once.
 *
 * `_filename_wo_ext` and `logger_name` are pure string decisions; the calling
 * module, which the source finds with `inspect`, is an input here. Python's
 * logging registry (`logging.getLogger`, `addHandler`, `setLevel`, `propagate`)
 * and the global `sys.excepthook` are the state `make_json_logger` changes, so
 * they are the fields of `LoggingRegistry`.
 */
module Loggers {
  import opened Wrappers
  import opened Text

  // ----- _filename_wo_ext -----

  /** `os.path.split(path)[1]` on POSIX: everything after the last '/'. */
  function Tail(path: string): (t: string)
    ensures '/' !in t
    ensures |t| <= |path| && path[|path| - |t|..] == t
    ensures |t| < |path| ==> path[|path| - |t| - 1] == '/'
  {
    if path == [] || path[|path| - 1] == '/' then []
    else Tail(path[..|path| - 1]) + [path[|path| - 1]]
  }

  /** `s.split(".", 1)[0]`: everything before the first '.'. */
  function BeforeFirstDot(s: string): (r: string)
    ensures '.' !in r
    ensures r <= s
    ensures |r| < |s| ==> s[|r|] == '.'
  {
    s[..IndexOf(s, '.', 0)]
  }

  /** `_filename_wo_ext`: the last path component up to its first '.'. The result holds
      neither '.' nor '/', is a prefix of the last component, and is all of it when
      the component has no '.'. */
  function FilenameWoExt(filename: string): (r: string)
    ensures '.' !in r && '/' !in r
    ensures r <= Tail(filename)
    ensures '.' !in Tail(filename) ==> r == Tail(filename)
    ensures |r| < |Tail(filename)| ==> Tail(filename)[|r|] == '.'
  {
    BeforeFirstDot(Tail(filename))
  }

  // ----- str.strip -----

  /** The characters Python's `str.isspace` accepts, which `str.strip()` removes. */
  predicate IsSpace(c: char) {
    || ('\U{9}' <= c <= '\U{D}') || ('\U{1C}' <= c <= '\U{20}')
    || c == '\U{85}' || c == '\U{A0}' || c == '\U{1680}'
    || ('\U{2000}' <= c <= '\U{200A}') || c == '\U{2028}' || c == '\U{2029}'
    || c == '\U{202F}' || c == '\U{205F}' || c == '\U{3000}'
  }

  /** The first index at or after `from` that is not whitespace, or `|s|`. */
  function SkipSpace(s: string, from: nat): (r: nat)
    requires from <= |s|
    ensures from <= r <= |s|
    ensures forall k :: from <= k < r ==> IsSpace(s[k])
    ensures r < |s| ==> !IsSpace(s[r])
    decreases |s| - from
  {
    if from == |s| || !IsSpace(s[from]) then from else SkipSpace(s, from + 1)
  }

  /** The end of `s[..upTo]` once its trailing whitespace, down to `floor`, is removed. */
  function SkipSpaceBack(s: string, floor: nat, upTo: nat): (r: nat)
    requires floor <= upTo <= |s|
    ensures floor <= r <= upTo
    ensures forall k :: r <= k < upTo ==> IsSpace(s[k])
    ensures r > floor ==> !IsSpace(s[r - 1])
    decreases upTo
  {
    if upTo == floor || !IsSpace(s[upTo - 1]) then upTo else SkipSpaceBack(s, floor, upTo - 1)
  }

  /** `s.strip()`: the slice of `s` between its leading and its trailing whitespace. */
  function Strip(s: string): (r: string)
    ensures exists lo, hi ::
      && 0 <= lo <= hi <= |s| && r == s[lo..hi]
      && (forall k :: 0 <= k < lo ==> IsSpace(s[k]))
      && (forall k :: hi <= k < |s| ==> IsSpace(s[k]))
    ensures r != [] ==> !IsSpace(r[0]) && !IsSpace(r[|r| - 1])
    ensures r == [] <==> forall k :: 0 <= k < |s| ==> IsSpace(s[k])
  {
    var lo := SkipSpace(s, 0);
    var hi := SkipSpaceBack(s, lo, |s|);
    assert lo < |s| ==> lo < hi;
    s[lo..hi]
  }

  // ----- logger_name -----

  /** The module `inspect.getmodule` found for the caller: its `__name__`, and its
      `__file__` when it has that attribute. */
  datatype Module = Module(name: string, file: Option<string>)

  /** The two `ValueError`s of `logger_name`. */
  datatype LoggerNameError =
    | NoCallingModule  // the calling frame has no module
    | NoModuleFile     // "Cannot determine calling module's name from its __file__ attribute!"

  /** `logger_name(fallback_name=...)` for a caller found (or not) by `inspect`. */
  function LoggerName(caller: Option<Module>, fallbackName: Option<string>): (r: Result<string, LoggerNameError>)
    ensures caller.None? ==> r == Failure(NoCallingModule)
    ensures caller.Some? && caller.value.name != "__main__" ==> r == Success(caller.value.name)
    ensures caller.Some? && caller.value.name == "__main__" && caller.value.file.Some? ==>
      r == Success(FilenameWoExt(caller.value.file.value))
    ensures caller.Some? && caller.value.name == "__main__" && caller.value.file.None? ==>
      && (r.Success? <==> fallbackName.Some? && Strip(fallbackName.value) != "")
      && (r.Success? ==> r.value == Strip(fallbackName.value))
      && (r.Failure? ==> r.error == NoModuleFile)
  {
    match caller
    case None => Failure(NoCallingModule)
    case Some(m) =>
      if m.name != "__main__" then Success(m.name)
      else if m.file.Some? then Success(FilenameWoExt(m.file.value))
      else if fallbackName.Some? && |Strip(fallbackName.value)| > 0 then Success(Strip(fallbackName.value))
      else Failure(NoModuleFile)
  }

  /** A name `logger_name` returns for a `__main__` script never holds '/' or '.', and a
      returned fallback never starts or ends with whitespace. */
  lemma LoggerNameOfScript(caller: Module, fallbackName: Option<string>)
    requires caller.name == "__main__"
    requires LoggerName(Some(caller), fallbackName).Success?
    ensures var n := LoggerName(Some(caller), fallbackName).value;
      caller.file.Some? ==> '/' !in n && '.' !in n
    ensures var n := LoggerName(Some(caller), fallbackName).value;
      caller.file.None? ==> n != [] && !IsSpace(n[0]) && !IsSpace(n[|n| - 1])
  {
  }

  // ----- make_json_logger / make_logger -----

  const NotSet: int := 0
  const Debug: int := 10

  /** The text format of the non-JSON formatter. */
  const LogFormat: string := "%(asctime)s %(levelname)s [%(name)s] [%(filename)s:%(lineno)d] - %(message)s"

  datatype Formatter = JsonFormatter | TextFormatter(format: string)

  /** A handler attached to a logger; `FileHandler` is a subclass of `StreamHandler`. */
  datatype Handler = StreamHandler(formatter: Formatter) | FileHandler | OtherHandler

  predicate IsStreamHandler(h: Handler) {
    h.StreamHandler? || h.FileHandler?
  }

  /** The parts of a `logging.Logger` that `make_json_logger` reads or sets. */
  datatype Logger = Logger(handlers: seq<Handler>, level: int, propagate: bool)

  /** What `logging.getLogger` creates for a name it has not seen. */
  const NewLogger: Logger := Logger([], NotSet, true)

  /** `sys.excepthook`: Python's default, or the hook that logs to the named logger. */
  datatype ExceptHook = DefaultHook | LogUncaughtTo(loggerName: string)

  datatype Registry = Registry(loggers: map<string, Logger>, hook: ExceptHook)

  /** The `name` argument: a string, `None`, or a value of another type. */
  datatype NameArg = StrName(s: string) | NoneName | OtherName

  /** `ValueError("Name must be a non-empty string.")`. */
  datatype InvalidName = InvalidName

  predicate HasStreamHandler(handlers: seq<Handler>) {
    exists h :: h in handlers && IsStreamHandler(h)
  }

  /** The handlers the registry holds for `name` (none for a logger never created). */
  function HandlersOf(reg: Registry, name: string): seq<Handler> {
    if name in reg.loggers then reg.loggers[name].handlers else []
  }

  /** The formatter of a new stream handler: JSON under Kubernetes (a non-empty
      `KUBERNETES_SERVICE_HOST`), the text format elsewhere. */
  function FormatterFor(kubernetesHost: Option<string>): Formatter {
    if kubernetesHost.Some? && kubernetesHost.value != "" then JsonFormatter else TextFormatter(LogFormat)
  }

  /** The effect of `make_json_logger(name, log_level)` on the registry, and the name of
      the logger it returns. */
  function MakeJsonLoggerSpec(reg: Registry, name: NameArg, level: int, kubernetesHost: Option<string>)
    : (Registry, Result<string, InvalidName>)
  {
    if !name.StrName? || name.s == "" then (reg, Failure(InvalidName))
    else
      var n := name.s;
      var logger := if n in reg.loggers then reg.loggers[n] else NewLogger;
      if HasStreamHandler(logger.handlers) then (Registry(reg.loggers[n := logger], reg.hook), Success(n))
      else
        var configured := Logger(logger.handlers + [StreamHandler(FormatterFor(kubernetesHost))], level, false);
        (Registry(reg.loggers[n := configured], LogUncaughtTo(n)), Success(n))
  }

  /** The logging registry and the process-wide exception hook. */
  class LoggingRegistry {
    var loggers: map<string, Logger>
    var hook: ExceptHook

    constructor ()
      ensures loggers == map[] && hook == DefaultHook
    {
      loggers := map[];
      hook := DefaultHook;
    }

    function State(): Registry
      reads this
    {
      Registry(loggers, hook)
    }

    /** `make_json_logger`: validate the name, return a logger that already has a stream
        handler unchanged, otherwise add one handler, set the level, stop propagation
        and route uncaught exceptions to it. */
    method MakeJsonLogger(name: NameArg, level: int, kubernetesHost: Option<string>)
      returns (r: Result<string, InvalidName>)
      modifies this
      ensures (State(), r) == MakeJsonLoggerSpec(old(State()), name, level, kubernetesHost)
    {
      if !name.StrName? || |name.s| == 0 {
        return Failure(InvalidName);
      }
      var n := name.s;
      if n !in loggers {
        loggers := loggers[n := NewLogger];  // logging.getLogger creates it
      }
      var logger := loggers[n];
      if HasStreamHandler(logger.handlers) {
        assert loggers == old(loggers)[n := logger];
        return Success(n);
      }
      logger := logger.(handlers := logger.handlers + [StreamHandler(FormatterFor(kubernetesHost))]);
      logger := logger.(level := level);
      logger := logger.(propagate := false);
      loggers := loggers[n := logger];
      hook := LogUncaughtTo(n);
      assert loggers == old(loggers)[n := logger];
      return Success(n);
    }

    /** `make_logger`: level -1 stands for DEBUG; every other level is passed through. */
    method MakeLogger(name: NameArg, level: int, kubernetesHost: Option<string>)
      returns (r: Result<string, InvalidName>)
      modifies this
      ensures (State(), r) == MakeJsonLoggerSpec(old(State()), name, if level == -1 then Debug else level, kubernetesHost)
    {
      var effective := level;
      if level == -1 {
        effective := Debug;
      }
      r := MakeJsonLogger(name, effective, kubernetesHost);
    }
  }

  /** A second `make_json_logger` for the same name, with any level and environment,
      changes nothing and returns the same logger. */
  lemma MakeJsonLoggerIdempotent(reg: Registry, name: NameArg, level: int, kubernetesHost: Option<string>,
                                 level2: int, kubernetesHost2: Option<string>)
    ensures var (reg1, r1) := MakeJsonLoggerSpec(reg, name, level, kubernetesHost);
      MakeJsonLoggerSpec(reg1, name, level2, kubernetesHost2) == (reg1, r1)
  {
    if name.StrName? && name.s != "" {
      var n := name.s;
      var logger := if n in reg.loggers then reg.loggers[n] else NewLogger;
      if !HasStreamHandler(logger.handlers) {
        var added := StreamHandler(FormatterFor(kubernetesHost));
        assert added in logger.handlers + [added];
      }
      var (reg1, _) := MakeJsonLoggerSpec(reg, name, level, kubernetesHost);
      assert reg1.loggers[n := reg1.loggers[n]] == reg1.loggers;
    }
  }

  /** One call adds at most one handler, to the logger it names and only when that logger
      had no stream handler; every other logger keeps its handlers. */
  lemma MakeJsonLoggerHandlers(reg: Registry, name: NameArg, level: int, kubernetesHost: Option<string>, other: string)
    ensures var (reg1, _) := MakeJsonLoggerSpec(reg, name, level, kubernetesHost);
      HandlersOf(reg1, other) ==
        if name.StrName? && name.s != "" && other == name.s && !HasStreamHandler(HandlersOf(reg, other))
        then HandlersOf(reg, other) + [StreamHandler(FormatterFor(kubernetesHost))]
        else HandlersOf(reg, other)
  {
  }

  /** One `make_json_logger` request. */
  datatype Call = Call(name: NameArg, level: int, kubernetesHost: Option<string>)

  /** The registry after a sequence of `make_json_logger` calls. */
  function MakeAll(reg: Registry, calls: seq<Call>): Registry
    decreases |calls|
  {
    if calls == [] then reg
    else
      var (reg1, _) := MakeJsonLoggerSpec(reg, calls[0].name, calls[0].level, calls[0].kubernetesHost);
      MakeAll(reg1, calls[1..])
  }

  /** The number of stream handlers in a handler list. */
  function StreamCount(handlers: seq<Handler>): nat {
    if handlers == [] then 0
    else StreamCount(handlers[..|handlers| - 1]) + (if IsStreamHandler(handlers[|handlers| - 1]) then 1 else 0)
  }

  lemma {:induction false} StreamCountPositive(handlers: seq<Handler>)
    ensures StreamCount(handlers) > 0 <==> HasStreamHandler(handlers)
    decreases |handlers|
  {
    if handlers != [] {
      var init := handlers[..|handlers| - 1];
      StreamCountPositive(init);
      if HasStreamHandler(init) {
        var h :| h in init && IsStreamHandler(h);
        assert h in handlers;
      }
      if HasStreamHandler(handlers) && !IsStreamHandler(handlers[|handlers| - 1]) {
        var h :| h in handlers && IsStreamHandler(h);
        assert h in init;
      }
    }
  }

  /** One call leaves a logger's count of stream handlers as it was, except that a logger
      it names that had none ends up with exactly one. */
  lemma StreamCountAfterCall(reg: Registry, c: Call, name: string)
    ensures var (reg1, _) := MakeJsonLoggerSpec(reg, c.name, c.level, c.kubernetesHost);
      StreamCount(HandlersOf(reg1, name)) ==
        if StreamCount(HandlersOf(reg, name)) == 0 && c.name == StrName(name) && name != ""
        then 1
        else StreamCount(HandlersOf(reg, name))
  {
    var (reg1, _) := MakeJsonLoggerSpec(reg, c.name, c.level, c.kubernetesHost);
    MakeJsonLoggerHandlers(reg, c.name, c.level, c.kubernetesHost, name);
    var before := HandlersOf(reg, name);
    StreamCountPositive(before);
    if c.name == StrName(name) && name != "" && !HasStreamHandler(before) {
      var after := before + [StreamHandler(FormatterFor(c.kubernetesHost))];
      assert after[..|after| - 1] == before;
    }
  }

  /** Some call in the sequence names the logger `name`. */
  predicate NamedBy(calls: seq<Call>, name: string) {
    name != "" && exists i :: 0 <= i < |calls| && calls[i].name == StrName(name)
  }

  /** A sequence names a logger exactly when its first call or the rest of it does. */
  lemma NamedByUnfolds(calls: seq<Call>, name: string)
    requires calls != []
    ensures NamedBy(calls, name) <==> (name != "" && calls[0].name == StrName(name)) || NamedBy(calls[1..], name)
  {
    if NamedBy(calls, name) {
      var i :| 0 <= i < |calls| && calls[i].name == StrName(name);
      if i > 0 {
        assert calls[1..][i - 1] == calls[i];
      }
    }
    if NamedBy(calls[1..], name) {
      var j :| 0 <= j < |calls[1..]| && calls[1..][j].name == StrName(name);
      assert calls[j + 1] == calls[1..][j];
    }
  }

  /** Named by any number of calls, a logger ends up with exactly one stream handler if it
      started with none, and with the stream handlers it had otherwise: no call sequence
      ever adds a second one. */
  lemma {:induction false} StreamHandlerAddedOnce(reg: Registry, calls: seq<Call>, name: string)
    ensures StreamCount(HandlersOf(MakeAll(reg, calls), name)) ==
      if StreamCount(HandlersOf(reg, name)) == 0 && NamedBy(calls, name)
      then 1
      else StreamCount(HandlersOf(reg, name))
    decreases |calls|
  {
    if calls != [] {
      var c := calls[0];
      var (reg1, _) := MakeJsonLoggerSpec(reg, c.name, c.level, c.kubernetesHost);
      assert MakeAll(reg, calls) == MakeAll(reg1, calls[1..]);
      StreamCountAfterCall(reg, c, name);
      StreamHandlerAddedOnce(reg1, calls[1..], name);
      NamedByUnfolds(calls, name);
    }
  }
}
