# logrus4cpp structured logging core, modelled in Dafny

logrus4cpp is a structured-logging façade over spdlog. Call sites build an
*entry*: an ordered list of key/value *fields*. Each `with_field` /
`with_fields` call returns a new entry and leaves its receiver alone. A
severity call (`trace` … `fatal`) then renders the message and the fields
into one line, `msg='<msg>' k1='<v1>' k2='<v2>'`. `logto` hands that line to
spdlog and exits the process with status 1 when the level is fatal.

The model has one module per component:

- `Values` (values.dfy): the closed value variant, with fixed-width integers
  as bounded newtypes and no 64-bit signed kind. It also holds the C
  character arrays (`strlenConst`, the `msg`/`error`/`=`/`'` constants) and
  the text a value is formatted as. Integers are decimal, proved to read
  back as the same number.
- `Levels` (levels.dfy): the severity enum and its backend numbers 0..5.
  It also holds the long and short level-name tables that put "fatal"/"F"
  in place of "critical"/"C".
- `Entries` (entries.dfy): `Entry` as a value over `seq<(string, Value)>`.
  It covers the builders, the constructors, the free builders, `with_error`,
  `KV`/`KERR`, and the severity members. A severity member produces a `Call`:
  the file, line, function, level, fields and message array the private
  `log` routine receives.
- `Rendering` (rendering.dfy): the rendered line as a function, `Render`.
  It is proved compositional over `with_fields`. It comes with a reader,
  `ParseLine`, proved to recover the message and the fields' key/value texts
  whenever no quote or `=` hides a boundary. A counterexample shows that
  quotes are not escaped.
- `Emitter` (emitter.dfy): the backend and the process as a class holding
  one trace of events (`Delegate(record)`, `Exit(status)`). `LogTo` appends
  exactly one delegation, then `Exit(1)` only for the fatal level.
- `Dispatch` (dispatch.dfy): the private `log` routine as imperative code.
  `RenderBuffer` fills the buffer in a loop, proved against `Render`. `Log`
  hands the whole buffer to `LogTo`. The module also holds the free severity
  functions and the `LOG_*` macros, proved equal to chained `with_field`
  calls.

The buffer size passed to `logto` counts the terminator. So the view the
backend receives is the rendered line followed by one `'\0'` character
(`Dispatch.Delivery`, `Dispatch.DeliveryText`). The model keeps this as the
code has it.

The model follows the code on three points where a structured-logging design might be expected to differ:

- the value variant has no 64-bit signed integer;
- the exit status on fatal is exactly 1;
- the level numbers are spdlog's, with fatal being spdlog's "critical", 5.

## Model

| member | source | states |
|---|---|---|
| Values.StrlenConst | logrus.h:43-46 | the length of a `const char[N]` is N - 1: the array without its terminator slot |
| Values.Chars | logrus.h:122-129 | copying an array with `strlenConst` yields every character but the last, and the array is those characters plus one |
| Values.CharsOfLiteral | logrus.h:43-46 | a literal `s` followed by its terminator copies back as exactly `s` |
| Values.FieldConstants | logrus.h:38-41 | the four field constants (keys `msg` and `error`, the delimiter and the quote) contribute exactly `msg`, `error`, `=` and `'` |
| Values.NatText | logrus.h:136 | an integer's decimal numeral is non-empty, all digits, and has no leading zero unless the number is 0 |
| Values.ParseNatText | logrus.h:136 | reading a natural number's numeral gives back the number |
| Values.ParseIntText | logrus.h:136 | an integer's numeral has the numeral shape (optional minus, digits) and reads back as the same integer |
| Values.TextOfInteger | logrus.h:133-137 | every integer kind of the variant is written as a numeral that reads back as its value and holds neither a quote nor a terminator |
| Values.TextOfBool | logrus.h:136 | a boolean is written `true` or `false`, with no quote or terminator |
| Levels.Level.Value | logrus.h:26-33 | every severity maps to a backend number below 6, and the number is 5 exactly for fatal |
| Levels.FromValue | logrus.h:19-24 | a backend number names a severity exactly when it is in 0..5 |
| Levels.LevelNumbering | logrus.h:19-33 | trace, debug, info, warn, error and fatal are numbered 0 to 5 in that order; the numbering is injective and reads back through `FromValue` |
| Levels.Name | logrus.cpp:12-20 | the long name of a severity is "fatal" exactly for fatal, and never "critical" |
| Levels.ShortName | logrus.cpp:22-24 | the short name is "F" exactly for fatal, and is the upper-cased first letter of the long name |
| Levels.NameTables | logrus.cpp:12-24 | both tables have 7 entries (six levels and off); neither holds "critical"/"C"; index 5 is "fatal"/"F"; each short name is the initial of the long one |
| Entries.Entry.WithFields | logrus.h:69-74 | the new entry holds the receiver's fields as its prefix and exactly the given fields, in order, after them |
| Entries.Entry.WithField | logrus.h:76-84 | the new entry has one field more: the receiver's fields unchanged, then `(k, v)` last |
| Entries.Entry.LogAt | logrus.h:116-118 | the private log routine receives the entry's fields, the level, the message and the given location |
| Entries.Entry.Log | logrus.h:147-150 | the location-free overload passes an empty file, line 0 and an empty function name |
| Entries.Entry.Trace | logrus.h:86-92 | `trace(msg)` passes level 0, no location, the entry's fields and the message |
| Entries.Entry.Debug | logrus.h:86-93 | `debug(msg)` passes level 1, no location, the entry's fields and the message |
| Entries.Entry.Info | logrus.h:86-94 | `info(msg)` passes level 2, no location, the entry's fields and the message |
| Entries.Entry.Warn | logrus.h:86-95 | `warn(msg)` passes level 3, no location, the entry's fields and the message |
| Entries.Entry.Error | logrus.h:86-96 | `error(msg)` passes level 4, no location, the entry's fields and the message |
| Entries.Entry.Fatal | logrus.h:86-97 | `fatal(msg)` passes level 5, no location, the entry's fields and the message |
| Entries.Entry.TraceAt | logrus.h:100-107 | `trace(file, line, func, msg)` passes level 0 and the given location |
| Entries.Entry.DebugAt | logrus.h:100-108 | `debug(file, line, func, msg)` passes level 1 and the given location |
| Entries.Entry.InfoAt | logrus.h:100-109 | `info(file, line, func, msg)` passes level 2 and the given location |
| Entries.Entry.WarnAt | logrus.h:100-110 | `warn(file, line, func, msg)` passes level 3 and the given location |
| Entries.Entry.ErrorAt | logrus.h:100-111 | `error(file, line, func, msg)` passes level 4 and the given location |
| Entries.Entry.FatalAt | logrus.h:100-112 | `fatal(file, line, func, msg)` passes level 5 and the given location |
| Entries.Empty | logrus.h:57 | the default constructor builds an entry with no fields |
| Entries.Single | logrus.h:62-67 | `Entry(k, v)` holds exactly `(k, v)`, the same as an empty entry's `with_field(k, v)` |
| Entries.WithField | logrus.h:158-166 | the free `with_field` builds an entry with exactly one field, `(k, v)` |
| Entries.WithFields | logrus.h:168-171 | the free `with_fields` builds the same entry as an empty entry's `with_fields` |
| Entries.KErr | logrus.h:211 | `KERR(errnum)` is the field with key "error" and the platform description of `errnum` |
| Entries.WithError | logrus.h:173-175 | `with_error(errnum)` holds exactly one field, with key "error"; it equals `with_field("error", strerror(errnum))` |
| Entries.KV | logrus.h:208-209 | `KV(k, v)` is the field `(k, v)` |
| Entries.ChainIsWithFields | logrus.h:69-84 | chaining `with_field` over a list of pairs equals one `with_fields` call with the list, in order |
| Entries.ChainFromEmpty | logrus.h:59-60 | the list constructor builds the same entry as chaining `with_field` from an empty entry |
| Entries.Branching | logrus.h:69-84 | two entries derived from one base each hold the base's fields and their own field only; neither sees the other's field |
| Rendering.SegmentsAppend | logrus.h:131-141 | the field part of a line for `a + b` is the field part for `a` followed by that for `b` |
| Rendering.RenderWithFields | logrus.h:131-141 | `Render(msg, e.with_fields(fs))` is `Render(msg, e)` followed by the segments of `fs` |
| Rendering.RenderWithField | logrus.h:131-141 | one field more appends exactly ` k='<text of v>'` to the line |
| Rendering.RenderBranches | logrus.h:131-141 | each child of a shared base renders the base's line plus its own segment only |
| Rendering.RenderNoFields | logrus.h:121-129 | a zero-field entry renders exactly `msg='<msg>'`, ending at the closing quote |
| Rendering.RenderOneFieldExample | logrus.h:121-141 | message "Listen on" with field port=80 renders `msg='Listen on' port='80'` |
| Rendering.RenderTwoFieldExample | logrus.h:121-141 | with ip and port fields the line is `msg='Listen on' ip='127.0.0.1' port='80'`, in field order |
| Rendering.QuotesAreNotEscaped | logrus.h:133-138 | the message `a' b='c` with no fields renders the same line as message `a` with field b=c |
| Rendering.CharInSegments | logrus.h:131-141 | for every character other than space, `=` and quote, the character is in the field part iff some key or value text holds it |
| Rendering.CharInRender | logrus.h:121-141 | apart from the line's own syntax characters, a character is in the line iff the message, a key or a value text holds it |
| Rendering.ParseSegmentsOfSegments | logrus.h:131-141 | the field part reads back as the fields' keys and value texts, in order, when no key holds `=` and no value text a quote |
| Rendering.ParseRender | logrus.h:121-141 | a line reads back as its message and its fields' keys and value texts when the message holds no quote, no key `=` and no value text a quote |
| Emitter.LogToEffect | logrus.cpp:30-36 | one emit adds exactly its record to what the backend received; the process exits iff the level is fatal, with status 1, right after the delegation |
| Emitter.Backend.LogTo | logrus.cpp:30-36 | one delegation of the level number and the first `n` characters of `data`, then `Exit(1)` only when the level is fatal |
| Dispatch.RenderBuffer | logrus.h:119-142 | the filled buffer is the rendered line for the message and the fields, in order, followed by one terminator |
| Dispatch.DeliveryText | logrus.h:142-144 | the delivered text is the line plus one terminator; its length is the line's plus 1; no other terminator occurs iff none occurs in the message, keys or value texts |
| Dispatch.Log | logrus.h:116-145 | a log call delegates exactly its record (location, level number, line and terminator) once; it exits iff the level is fatal |
| Dispatch.Trace | logrus.h:192-198 | the free `trace(msg)` has no fields, level 0 and no location |
| Dispatch.Debug | logrus.h:192-199 | the free `debug(msg)` has no fields, level 1 and no location |
| Dispatch.Info | logrus.h:192-200 | the free `info(msg)` has no fields, level 2 and no location |
| Dispatch.Warn | logrus.h:192-201 | the free `warn(msg)` has no fields, level 3 and no location |
| Dispatch.Error | logrus.h:192-202 | the free `error(msg)` has no fields, level 4 and no location |
| Dispatch.Fatal | logrus.h:192-203 | the free `fatal(msg)` has no fields, level 5 and no location |
| Dispatch.TraceAt | logrus.h:177-184 | the free located `trace` has no fields, level 0 and the given location |
| Dispatch.DebugAt | logrus.h:177-185 | the free located `debug` has no fields, level 1 and the given location |
| Dispatch.InfoAt | logrus.h:177-186 | the free located `info` has no fields, level 2 and the given location |
| Dispatch.WarnAt | logrus.h:177-187 | the free located `warn` has no fields, level 3 and the given location |
| Dispatch.ErrorAt | logrus.h:177-188 | the free located `error` has no fields, level 4 and the given location |
| Dispatch.FatalAt | logrus.h:177-189 | the free located `fatal` has no fields, level 5 and the given location |
| Dispatch.LogTrace | logrus.h:227 | `LOG_TRACE(msg, kvs...)` makes the same call as chaining `with_field` over the pairs from an empty entry, then `trace(msg)` |
| Dispatch.LogDebug | logrus.h:228 | `LOG_DEBUG` equals the chained `with_field` calls followed by `debug(msg)` |
| Dispatch.LogInfo | logrus.h:229 | `LOG_INFO` equals the chained `with_field` calls followed by `info(msg)` |
| Dispatch.LogWarn | logrus.h:230 | `LOG_WARN` equals the chained `with_field` calls followed by `warn(msg)` |
| Dispatch.LogError | logrus.h:231 | `LOG_ERROR` equals the chained `with_field` calls followed by `error(msg)` |
| Dispatch.LogFatal | logrus.h:232 | `LOG_FATAL` equals the chained `with_field` calls followed by `fatal(msg)` |
| Dispatch.LogTraceAt | logrus.h:213-215 | the located `LOG_TRACE` equals the chained `with_field` calls followed by the located `trace` |
| Dispatch.LogDebugAt | logrus.h:216-217 | the located `LOG_DEBUG` equals the chained calls followed by the located `debug` |
| Dispatch.LogInfoAt | logrus.h:218-219 | the located `LOG_INFO` equals the chained calls followed by the located `info` |
| Dispatch.LogWarnAt | logrus.h:220-221 | the located `LOG_WARN` equals the chained calls followed by the located `warn` |
| Dispatch.LogErrorAt | logrus.h:222-223 | the located `LOG_ERROR` equals the chained calls followed by the located `error` |
| Dispatch.LogFatalAt | logrus.h:224-225 | the located `LOG_FATAL` equals the chained calls followed by the located `fatal` |
| Dispatch.MacroMatchesChainedCalls | logrus.h:208-229 | `LOG_INFO(msg, KV(k1, v1), KV(k2, v2))` equals `with_field(k1, v1).with_field(k2, v2).info(msg)` |
| Dispatch.FreeCallsAreLog | logrus.h:192-204 | each of the six free severity calls is the location-free log routine of an empty entry at its own level |
| Dispatch.ZeroFieldDelivery | logrus.h:198-204 | a zero-field call at any of the six levels delivers exactly `msg='<msg>'` and a terminator, at that level's backend number |

## Left out

- Floating-point formatting: `float` and `double` values carry their rendered text, because the formatter's shortest round-trip output is not modelled.
- `strerror`: the platform's error descriptions are a function parameter of `KErr` and `WithError`; only the key "error" is fixed.
- spdlog itself: `spdlog::log`, `source_loc`, the backend's level filtering, sinks, patterns and thread safety are foreign calls or concurrency. The backend is a trace of the records it receives.
- The long names of the levels other than fatal are spdlog's own defaults ("trace", "debug", "info", "warning", "error", "off"). spdlog's headers are not part of this model.
- Process termination: `std::exit(1)` is an `Exit(1)` event. `Emitter.Backend.LogTo` and `Dispatch.Log` require that the process has not exited, because nothing runs after the exit.
- `fmt::basic_memory_buffer` and its 256-character inline storage: the buffer is a growable sequence, so its allocation strategy is not modelled.
- C++ overload and template machinery: argument types are resolved to the variant before the model sees them. This covers `const T&` against `T&&`, a `char` converting into the variant, and `std::string` against `const char *`. A borrowed `const char *` is a `CString`, a string holding no terminator: the characters a formatter would read before the first terminator. `KErr` and `WithError` take `strerror` with that result type.
- The message is a `const char[N]` and is copied by length (`strlenConst`), as the code does. The model does not treat a terminator inside a literal in any special way.
- benchmark.cpp and example.cpp: a benchmark harness and a demo program, not part of the core.
- `Values.Value.Borrowed`: the source stores the pointer, and fmt reads it only when the line is rendered. The model stores the characters when the field is made. So it does not model later changes to the pointed-to text or the end of its lifetime: `Entries.Branching` and `Rendering.RenderBranches` speak of that stored copy. It also does not model a null pointer, on which fmt throws and `log` neither delegates nor exits.
