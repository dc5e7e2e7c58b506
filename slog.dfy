/**
 * The parts of Go's `log/slog` package that the xlog code touches: levels,
 * dynamic values, attributes, records and loggers. slog itself is not part of
 * this model; a logger is a symbolic term that records how it was derived.
 */
module Slog {
  import opened Wrappers

  /** slog.Level is an int; the four named levels are four apart. */
  type Level = int

  const LevelDebug: Level := -4
  const LevelInfo: Level := 0
  const LevelWarn: Level := 4
  const LevelError: Level := 8

  /** slog.LevelKey: the key under which a handler reports a record's level. */
  const LevelKey: string := "level"

  /** A non-nil Go error, identified by the text of its Error() method. */
  datatype Error = Error(message: string)

  /**
   * A dynamic Go value (`any`), as far as this code distinguishes them:
   * the untyped nil, a string, a slog.Level, a *slog.Logger (which may itself
   * be a nil pointer) and any other value.
   */
  datatype Value =
    | Nil
    | Str(s: string)
    | LevelValue(level: Level)
    | LoggerRef(logger: Option<Logger>)
    | Opaque(id: nat)

  /** slog.Attr: a key and a value. */
  datatype Attr = Attr(key: string, value: Value)

  /** One argument of a variadic `...any` call: a plain value or a prebuilt slog.Attr. */
  datatype Arg = ValueArg(v: Value) | AttrArg(attr: Attr)

  /**
   * A *slog.Logger, seen from outside: the handler it was created over and the
   * argument lists of the `With` calls that derived it, oldest first.
   */
  datatype Logger = Logger(handler: nat, derived: seq<seq<Arg>>)

  /**
   * (*slog.Logger).With: no arguments give back the same logger; otherwise a
   * new logger derived with those arguments.
   */
  function LoggerWith(l: Logger, args: seq<Arg>): (r: Logger)
    ensures args == [] ==> r == l
    ensures args != [] ==> r.handler == l.handler && r.derived == l.derived + [args]
  {
    if |args| == 0 then l else Logger(l.handler, l.derived + [args])
  }

  /** slog.Record: time, message, level and the record's own attributes. */
  datatype Record = Record(time: int, message: string, level: Level, attrs: seq<Attr>)
}
