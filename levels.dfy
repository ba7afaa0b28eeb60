/** Severity levels and the names the backend prints for them. The numeric
    values are the backend's own level numbers; the name tables are the ones
    the emitter installs in the backend, with "fatal" in place of "critical". */
module Levels {
  import opened Values

  const SpdlogLevelTrace: nat := 0
  const SpdlogLevelDebug: nat := 1
  const SpdlogLevelInfo: nat := 2
  const SpdlogLevelWarn: nat := 3
  const SpdlogLevelError: nat := 4
  const SpdlogLevelCritical: nat := 5

  /** The backend's level count: the six severities and "off". */
  const BackendLevels: nat := 7

  datatype Level = Trace | Debug | Info | Warn | Error | Fatal {

    /** The backend level number the severity stands for. */
    function Value(): (n: nat)
      ensures n < BackendLevels - 1
      ensures n == SpdlogLevelCritical <==> this == Fatal
    {
      match this
      case Trace => SpdlogLevelTrace
      case Debug => SpdlogLevelDebug
      case Info => SpdlogLevelInfo
      case Warn => SpdlogLevelWarn
      case Error => SpdlogLevelError
      case Fatal => SpdlogLevelCritical
    }
  }

  /** The severity a backend level number stands for, if any. */
  function FromValue(n: int): (l: Option<Level>)
    ensures l.Some? <==> 0 <= n < BackendLevels - 1
  {
    if n == SpdlogLevelTrace then Some(Trace)
    else if n == SpdlogLevelDebug then Some(Debug)
    else if n == SpdlogLevelInfo then Some(Info)
    else if n == SpdlogLevelWarn then Some(Warn)
    else if n == SpdlogLevelError then Some(Error)
    else if n == SpdlogLevelCritical then Some(Fatal)
    else None
  }

  /** Levels are numbered 0 to 5 in increasing urgency, and the numbering
      loses nothing: it reads back as the same level. */
  lemma LevelNumbering(a: Level, b: Level)
    ensures FromValue(a.Value()) == Some(a)
    ensures a.Value() == b.Value() ==> a == b
    ensures Trace.Value() == 0 && Debug.Value() == 1 && Info.Value() == 2
    ensures Warn.Value() == 3 && Error.Value() == 4 && Fatal.Value() == 5
  {
  }

  /** Long level names, indexed by backend level number. */
  const LevelNames: seq<string> :=
    ["trace", "debug", "info", "warning", "error", "fatal", "off"]

  /** Short level names, indexed by backend level number. */
  const ShortLevelNames: seq<string> := ["T", "D", "I", "W", "E", "F", "O"]

  function Upper(c: char): char {
    if 'a' <= c <= 'z' then (c as int - 'a' as int + 'A' as int) as char else c
  }

  /** The name the backend prints for a severity. */
  function Name(l: Level): (s: string)
    ensures s == "fatal" <==> l == Fatal
    ensures s != "critical"
  {
    LevelNames[l.Value()]
  }

  /** The one-letter name the backend prints for a severity. */
  function ShortName(l: Level): (s: string)
    ensures s == "F" <==> l == Fatal
    ensures s == [Upper(Name(l)[0])]
  {
    ShortLevelNames[l.Value()]
  }

  /** Both tables cover every backend level, "critical" appears in neither,
      and each short name is the upper-cased initial of the long one. */
  lemma NameTables()
    ensures |LevelNames| == BackendLevels && |ShortLevelNames| == BackendLevels
    ensures "critical" !in LevelNames && "C" !in ShortLevelNames
    ensures LevelNames[SpdlogLevelCritical] == "fatal"
    ensures ShortLevelNames[SpdlogLevelCritical] == "F"
    ensures forall i :: 0 <= i < BackendLevels ==>
      |LevelNames[i]| > 0 && ShortLevelNames[i] == [Upper(LevelNames[i][0])]
  {
  }
}
