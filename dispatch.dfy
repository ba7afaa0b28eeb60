/** The severity call surface and the private log routine: the six severity
    calls on entries, the free calls that start from an empty entry, the
    LOG_* macros that take inline key/value pairs, and the routine that
    renders a call into a buffer and hands it to the emitter. */
module Dispatch {
  import opened Values
  import Levels
  import opened Entries
  import opened Rendering
  import Emitter

  /** The five copies that open the buffer give the message part. */
  lemma HeaderCopies(m: string)
    ensures [] + "msg" + "=" + "'" + m + "'" == Header(m)
  {
  }

  /** The format `" {}={}{}{}"` with the quote constant gives a segment. */
  lemma FormattedSegment(f: Field)
    ensures " " + f.0 + "=" + "'" + Text(f.1) + "'" == Segment(f)
  {
    var k, t := f.0, Text(f.1);
    assert " " + k + "=" + "'" == " " + k + "='";
  }

  lemma ConcatAssoc(a: string, b: string, c: string)
    ensures (a + b) + c == a + (b + c)
  {
  }

  /** What the loop appends for a field is that field's segment. */
  lemma FieldCopy(prefix: string, fields: seq<Field>, i: nat)
    requires i < |fields|
    ensures prefix + Segments(fields[..i]) +
            (" " + fields[i].0 + "=" + "'" + Text(fields[i].1) + "'") ==
            prefix + Segments(fields[..i + 1])
  {
    var f := fields[i];
    FormattedSegment(f);
    SegmentsAppend(fields[..i], [f]);
    assert [f][1..] == [];
    assert Segments([f]) == Segment(f);
    assert fields[..i + 1] == fields[..i] + [f];
    ConcatAssoc(prefix, Segments(fields[..i]), Segment(f));
  }

  /** Fills the line buffer: the message part, one segment per field in
      order, and a terminator. */
  method RenderBuffer(fields: seq<Field>, msg: CharArray) returns (buf: seq<char>)
    ensures buf == Render(Chars(msg), fields) + "\0"
  {
    FieldConstants();
    buf := [];
    buf := buf + Chars(FieldMsgKey);
    buf := buf + Chars(FieldDelim);
    buf := buf + Chars(FieldValueQuoted);
    buf := buf + Chars(msg);
    buf := buf + Chars(FieldValueQuoted);
    HeaderCopies(Chars(msg));
    var i := 0;
    while i < |fields|
      invariant 0 <= i <= |fields|
      invariant buf == Header(Chars(msg)) + Segments(fields[..i])
    {
      var s := " " + fields[i].0 + "=" + Chars(FieldValueQuoted) + Text(fields[i].1) + Chars(FieldValueQuoted);
      FieldCopy(Header(Chars(msg)), fields, i);
      buf := buf + s;
      i := i + 1;
    }
    assert fields[..i] == fields;
    buf := buf + ['\0'];
  }

  /** The record the backend receives for a call: the buffer size, which
      counts the terminator, is passed as the length. */
  function Delivery(c: Call): Emitter.Record {
    Emitter.Record(c.file, c.line, c.func, c.level.Value(), Render(Chars(c.msg), c.fields) + "\0")
  }

  /** The delivered text is the rendered line and one terminator; it holds no
      other terminator unless the message, a key or a value text does. */
  lemma DeliveryText(c: Call)
    ensures var t := Delivery(c).text;
      |t| == |Render(Chars(c.msg), c.fields)| + 1 &&
      t[..|t| - 1] == Render(Chars(c.msg), c.fields) &&
      t[|t| - 1] == '\0'
    ensures var t := Delivery(c).text;
      (forall i :: 0 <= i < |t| - 1 ==> t[i] != '\0') <==>
      ('\0' !in Chars(c.msg) && !Mentions(c.fields, '\0'))
    ensures Delivery(c).level == c.level.Value()
    ensures Delivery(c).file == c.file && Delivery(c).line == c.line && Delivery(c).func == c.func
  {
    var line := Render(Chars(c.msg), c.fields);
    var t := Delivery(c).text;
    assert t[..|t| - 1] == line;
    CharInRender(Chars(c.msg), c.fields, '\0');
    if '\0' in line {
      var i :| 0 <= i < |line| && line[i] == '\0';
      assert t[i] == line[i];
    }
  }

  /** The private log routine: renders the call into a buffer and hands the
      whole buffer, terminator included, to the emitter. */
  method Log(c: Call, backend: Emitter.Backend)
    requires !backend.Exited()
    modifies backend
    ensures backend.events == Emitter.AfterLogTo(old(backend.events), Delivery(c), c.level)
    ensures backend.Records() == old(backend.Records()) + [Delivery(c)]
    ensures backend.Exited() <==> c.level == Levels.Fatal
  {
    var buf := RenderBuffer(c.fields, c.msg);
    assert buf[..|buf|] == Delivery(c).text;
    backend.LogTo(c.file, c.line, c.func, c.level, buf, |buf|);
  }

  // Free severity calls: an empty entry, no source location.

  function Trace(msg: CharArray): (c: Call)
    ensures c.fields == [] && c.level.Value() == 0 && c.HasNoLocation() && c.msg == msg
  {
    Empty().Trace(msg)
  }

  function Debug(msg: CharArray): (c: Call)
    ensures c.fields == [] && c.level.Value() == 1 && c.HasNoLocation() && c.msg == msg
  {
    Empty().Debug(msg)
  }

  function Info(msg: CharArray): (c: Call)
    ensures c.fields == [] && c.level.Value() == 2 && c.HasNoLocation() && c.msg == msg
  {
    Empty().Info(msg)
  }

  function Warn(msg: CharArray): (c: Call)
    ensures c.fields == [] && c.level.Value() == 3 && c.HasNoLocation() && c.msg == msg
  {
    Empty().Warn(msg)
  }

  function Error(msg: CharArray): (c: Call)
    ensures c.fields == [] && c.level.Value() == 4 && c.HasNoLocation() && c.msg == msg
  {
    Empty().Error(msg)
  }

  function Fatal(msg: CharArray): (c: Call)
    ensures c.fields == [] && c.level.Value() == 5 && c.HasNoLocation() && c.msg == msg
  {
    Empty().Fatal(msg)
  }

  // Free severity calls with an explicit source location.

  function TraceAt(file: string, line: int, func: string, msg: CharArray): (c: Call)
    ensures c.fields == [] && c.level.Value() == 0 && c.msg == msg
    ensures c.file == file && c.line == line && c.func == func
  {
    Empty().TraceAt(file, line, func, msg)
  }

  function DebugAt(file: string, line: int, func: string, msg: CharArray): (c: Call)
    ensures c.fields == [] && c.level.Value() == 1 && c.msg == msg
    ensures c.file == file && c.line == line && c.func == func
  {
    Empty().DebugAt(file, line, func, msg)
  }

  function InfoAt(file: string, line: int, func: string, msg: CharArray): (c: Call)
    ensures c.fields == [] && c.level.Value() == 2 && c.msg == msg
    ensures c.file == file && c.line == line && c.func == func
  {
    Empty().InfoAt(file, line, func, msg)
  }

  function WarnAt(file: string, line: int, func: string, msg: CharArray): (c: Call)
    ensures c.fields == [] && c.level.Value() == 3 && c.msg == msg
    ensures c.file == file && c.line == line && c.func == func
  {
    Empty().WarnAt(file, line, func, msg)
  }

  function ErrorAt(file: string, line: int, func: string, msg: CharArray): (c: Call)
    ensures c.fields == [] && c.level.Value() == 4 && c.msg == msg
    ensures c.file == file && c.line == line && c.func == func
  {
    Empty().ErrorAt(file, line, func, msg)
  }

  function FatalAt(file: string, line: int, func: string, msg: CharArray): (c: Call)
    ensures c.fields == [] && c.level.Value() == 5 && c.msg == msg
    ensures c.file == file && c.line == line && c.func == func
  {
    Empty().FatalAt(file, line, func, msg)
  }

  // The LOG_* macros without LOGRUS_WITH_LOC: the inline pairs become the
  // entry's fields, and the call is the one chained `with_field` gives.

  function LogTrace(msg: CharArray, kvs: seq<Field>): (c: Call)
    ensures c == Chain(Empty(), kvs).Trace(msg)
  {
    ChainFromEmpty(kvs);
    Entry(kvs).Trace(msg)
  }

  function LogDebug(msg: CharArray, kvs: seq<Field>): (c: Call)
    ensures c == Chain(Empty(), kvs).Debug(msg)
  {
    ChainFromEmpty(kvs);
    Entry(kvs).Debug(msg)
  }

  function LogInfo(msg: CharArray, kvs: seq<Field>): (c: Call)
    ensures c == Chain(Empty(), kvs).Info(msg)
  {
    ChainFromEmpty(kvs);
    Entry(kvs).Info(msg)
  }

  function LogWarn(msg: CharArray, kvs: seq<Field>): (c: Call)
    ensures c == Chain(Empty(), kvs).Warn(msg)
  {
    ChainFromEmpty(kvs);
    Entry(kvs).Warn(msg)
  }

  function LogError(msg: CharArray, kvs: seq<Field>): (c: Call)
    ensures c == Chain(Empty(), kvs).Error(msg)
  {
    ChainFromEmpty(kvs);
    Entry(kvs).Error(msg)
  }

  function LogFatal(msg: CharArray, kvs: seq<Field>): (c: Call)
    ensures c == Chain(Empty(), kvs).Fatal(msg)
  {
    ChainFromEmpty(kvs);
    Entry(kvs).Fatal(msg)
  }

  // The LOG_* macros with LOGRUS_WITH_LOC: the call site's file, line and
  // function name travel with the call.

  function LogTraceAt(file: string, line: int, func: string, msg: CharArray, kvs: seq<Field>): (c: Call)
    ensures c == Chain(Empty(), kvs).TraceAt(file, line, func, msg)
  {
    ChainFromEmpty(kvs);
    Entry(kvs).TraceAt(file, line, func, msg)
  }

  function LogDebugAt(file: string, line: int, func: string, msg: CharArray, kvs: seq<Field>): (c: Call)
    ensures c == Chain(Empty(), kvs).DebugAt(file, line, func, msg)
  {
    ChainFromEmpty(kvs);
    Entry(kvs).DebugAt(file, line, func, msg)
  }

  function LogInfoAt(file: string, line: int, func: string, msg: CharArray, kvs: seq<Field>): (c: Call)
    ensures c == Chain(Empty(), kvs).InfoAt(file, line, func, msg)
  {
    ChainFromEmpty(kvs);
    Entry(kvs).InfoAt(file, line, func, msg)
  }

  function LogWarnAt(file: string, line: int, func: string, msg: CharArray, kvs: seq<Field>): (c: Call)
    ensures c == Chain(Empty(), kvs).WarnAt(file, line, func, msg)
  {
    ChainFromEmpty(kvs);
    Entry(kvs).WarnAt(file, line, func, msg)
  }

  function LogErrorAt(file: string, line: int, func: string, msg: CharArray, kvs: seq<Field>): (c: Call)
    ensures c == Chain(Empty(), kvs).ErrorAt(file, line, func, msg)
  {
    ChainFromEmpty(kvs);
    Entry(kvs).ErrorAt(file, line, func, msg)
  }

  function LogFatalAt(file: string, line: int, func: string, msg: CharArray, kvs: seq<Field>): (c: Call)
    ensures c == Chain(Empty(), kvs).FatalAt(file, line, func, msg)
  {
    ChainFromEmpty(kvs);
    Entry(kvs).FatalAt(file, line, func, msg)
  }

  /** `LOG_INFO(msg, KV(k1, v1), KV(k2, v2))` makes the same call as
      `with_field(k1, v1).with_field(k2, v2).info(msg)`. */
  lemma MacroMatchesChainedCalls(msg: CharArray, k1: string, v1: Value, k2: string, v2: Value)
    ensures LogInfo(msg, [KV(k1, v1), KV(k2, v2)]) == WithField(k1, v1).WithField(k2, v2).Info(msg)
  {
    assert Chain(Empty(), [KV(k1, v1), KV(k2, v2)]) == Chain(Empty().WithField(k1, v1), [(k2, v2)]);
    assert [(k1, v1), (k2, v2)][1..] == [(k2, v2)];
  }

  /** Each free severity call is the location-free log routine of an empty
      entry at that call's level. */
  lemma FreeCallsAreLog(m: CharArray)
    ensures Trace(m) == Empty().Log(Levels.Trace, m)
    ensures Debug(m) == Empty().Log(Levels.Debug, m)
    ensures Info(m) == Empty().Log(Levels.Info, m)
    ensures Warn(m) == Empty().Log(Levels.Warn, m)
    ensures Error(m) == Empty().Log(Levels.Error, m)
    ensures Fatal(m) == Empty().Log(Levels.Fatal, m)
  {
  }

  /** A zero-field call at any level delivers exactly `msg='<msg>'` and a
      terminator, at that level's backend number. */
  lemma ZeroFieldDelivery(s: string, l: Levels.Level)
    ensures Delivery(Empty().Log(l, s + "\0")).text == "msg='" + s + "'" + "\0"
    ensures Delivery(Empty().Log(l, s + "\0")).level == l.Value()
  {
    CharsOfLiteral(s);
  }
}
