/** Entries: ordered, append-only sequences of key/value fields, built by
    value-returning calls that never change their receiver, and the severity
    calls that turn an entry and a message into a request to log. */
module Entries {
  import opened Values
  import Levels

  /** A field: a key and a value. Keys are neither checked nor unique. */
  type Field = (string, Value)

  /** The arguments of the private log routine: the source location (empty
      when none is captured), the level, the fields and the message array. */
  datatype Call = Call(
    file: string, line: int, func: string,
    level: Levels.Level, fields: seq<Field>, msg: CharArray)
  {
    predicate HasNoLocation() {
      file == "" && line == 0 && func == ""
    }
  }

  datatype Entry = Entry(fields: seq<Field>) {

    /** A new entry: this entry's fields followed by `fs` in order. */
    function WithFields(fs: seq<Field>): (r: Entry)
      ensures |r.fields| == |fields| + |fs|
      ensures r.fields[..|fields|] == fields
      ensures r.fields[|fields|..] == fs
    {
      Entry(fields + fs)
    }

    /** A new entry with one field more, placed last. */
    function WithField(k: string, v: Value): (r: Entry)
      ensures |r.fields| == |fields| + 1
      ensures r.fields[..|fields|] == fields
      ensures r.fields[|fields|] == (k, v)
    {
      WithFields([(k, v)])
    }

    /** The private log routine's arguments, with a source location. */
    function LogAt(file: string, line: int, func: string, level: Levels.Level, msg: CharArray): (c: Call)
      ensures c.fields == fields && c.level == level && c.msg == msg
      ensures c.file == file && c.line == line && c.func == func
    {
      Call(file, line, func, level, fields, msg)
    }

    /** The private log routine's location-free overload. */
    function Log(level: Levels.Level, msg: CharArray): (c: Call)
      ensures c.fields == fields && c.level == level && c.msg == msg
      ensures c.HasNoLocation()
    {
      LogAt("", 0, "", level, msg)
    }

    function Trace(msg: CharArray): (c: Call)
      ensures c.level.Value() == 0 && c.HasNoLocation() && c.fields == fields && c.msg == msg
    {
      LogAt("", 0, "", Levels.Trace, msg)
    }

    function Debug(msg: CharArray): (c: Call)
      ensures c.level.Value() == 1 && c.HasNoLocation() && c.fields == fields && c.msg == msg
    {
      LogAt("", 0, "", Levels.Debug, msg)
    }

    function Info(msg: CharArray): (c: Call)
      ensures c.level.Value() == 2 && c.HasNoLocation() && c.fields == fields && c.msg == msg
    {
      LogAt("", 0, "", Levels.Info, msg)
    }

    function Warn(msg: CharArray): (c: Call)
      ensures c.level.Value() == 3 && c.HasNoLocation() && c.fields == fields && c.msg == msg
    {
      LogAt("", 0, "", Levels.Warn, msg)
    }

    function Error(msg: CharArray): (c: Call)
      ensures c.level.Value() == 4 && c.HasNoLocation() && c.fields == fields && c.msg == msg
    {
      LogAt("", 0, "", Levels.Error, msg)
    }

    function Fatal(msg: CharArray): (c: Call)
      ensures c.level.Value() == 5 && c.HasNoLocation() && c.fields == fields && c.msg == msg
    {
      LogAt("", 0, "", Levels.Fatal, msg)
    }

    function TraceAt(file: string, line: int, func: string, msg: CharArray): (c: Call)
      ensures c.level.Value() == 0 && c.fields == fields && c.msg == msg
      ensures c.file == file && c.line == line && c.func == func
    {
      LogAt(file, line, func, Levels.Trace, msg)
    }

    function DebugAt(file: string, line: int, func: string, msg: CharArray): (c: Call)
      ensures c.level.Value() == 1 && c.fields == fields && c.msg == msg
      ensures c.file == file && c.line == line && c.func == func
    {
      LogAt(file, line, func, Levels.Debug, msg)
    }

    function InfoAt(file: string, line: int, func: string, msg: CharArray): (c: Call)
      ensures c.level.Value() == 2 && c.fields == fields && c.msg == msg
      ensures c.file == file && c.line == line && c.func == func
    {
      LogAt(file, line, func, Levels.Info, msg)
    }

    function WarnAt(file: string, line: int, func: string, msg: CharArray): (c: Call)
      ensures c.level.Value() == 3 && c.fields == fields && c.msg == msg
      ensures c.file == file && c.line == line && c.func == func
    {
      LogAt(file, line, func, Levels.Warn, msg)
    }

    function ErrorAt(file: string, line: int, func: string, msg: CharArray): (c: Call)
      ensures c.level.Value() == 4 && c.fields == fields && c.msg == msg
      ensures c.file == file && c.line == line && c.func == func
    {
      LogAt(file, line, func, Levels.Error, msg)
    }

    function FatalAt(file: string, line: int, func: string, msg: CharArray): (c: Call)
      ensures c.level.Value() == 5 && c.fields == fields && c.msg == msg
      ensures c.file == file && c.line == line && c.func == func
    {
      LogAt(file, line, func, Levels.Fatal, msg)
    }
  }

  /** The default constructor: an entry with no fields. */
  function Empty(): (e: Entry)
    ensures |e.fields| == 0
  {
    Entry([])
  }

  /** The one-field constructor `Entry(k, v)`. */
  function Single(k: string, v: Value): (e: Entry)
    ensures e.fields == [(k, v)]
    ensures e == Empty().WithField(k, v)
  {
    Entry([(k, v)])
  }

  /** The free with_field: starts from nothing. */
  function WithField(k: string, v: Value): (e: Entry)
    ensures |e.fields| == 1 && e.fields[0] == (k, v)
  {
    Single(k, v)
  }

  /** The free with_fields: the given fields, in order, and nothing else. */
  function WithFields(fs: seq<Field>): (e: Entry)
    ensures e == Empty().WithFields(fs)
  {
    Entry(fs)
  }

  /** The error field: the fixed key "error" with the platform's description
      of the error number, supplied here as `strerror`. */
  function KErr(errnum: int, strerror: int -> CString): (f: Field)
    ensures f.0 == "error"
    ensures f.1 == Borrowed(strerror(errnum))
  {
    FieldConstants();
    (Chars(FieldErrKey), Borrowed(strerror(errnum)))
  }

  /** with_error: an entry holding exactly the error field. */
  function WithError(errnum: int, strerror: int -> CString): (e: Entry)
    ensures |e.fields| == 1 && e.fields[0].0 == "error"
    ensures e == WithField("error", Borrowed(strerror(errnum)))
  {
    Single(KErr(errnum, strerror).0, KErr(errnum, strerror).1)
  }

  /** The KV macro: a key/value pair as a field. */
  function KV(k: string, v: Value): (f: Field)
    ensures f.0 == k && f.1 == v
  {
    (k, v)
  }

  /** Chaining `with_field` once per pair, in order. */
  function Chain(e: Entry, kvs: seq<Field>): Entry
    decreases |kvs|
  {
    if kvs == [] then e else Chain(e.WithField(kvs[0].0, kvs[0].1), kvs[1..])
  }

  /** Chaining `with_field` over a list of pairs is one `with_fields` call with
      the whole list. */
  lemma {:induction false} ChainIsWithFields(e: Entry, kvs: seq<Field>)
    ensures Chain(e, kvs) == e.WithFields(kvs)
    decreases |kvs|
  {
    if kvs != [] {
      var e1 := e.WithField(kvs[0].0, kvs[0].1);
      ChainIsWithFields(e1, kvs[1..]);
      assert e1.fields + kvs[1..] == e.fields + kvs;
    }
  }

  /** The list constructor, used by the LOG_* macros, builds the same entry
      as chaining `with_field` from an empty entry once per pair. */
  lemma ChainFromEmpty(kvs: seq<Field>)
    ensures Chain(Empty(), kvs) == Entry(kvs)
  {
    ChainIsWithFields(Empty(), kvs);
    assert [] + kvs == kvs;
  }

  /** Entries are values: two entries derived from one base each hold the
      base's fields followed by their own field only, and the base keeps
      its fields. */
  lemma Branching(base: Entry, k1: string, v1: Value, k2: string, v2: Value)
    ensures base.WithField(k1, v1).fields == base.fields + [(k1, v1)]
    ensures base.WithField(k2, v2).fields == base.fields + [(k2, v2)]
    ensures (k1, v1) != (k2, v2) ==>
      (k2, v2) !in base.WithField(k1, v1).fields[|base.fields|..] &&
      (k1, v1) !in base.WithField(k2, v2).fields[|base.fields|..]
  {
  }
}
