/** The emitter: one delegation to the logging backend per call, followed by
    process exit with status 1 when the level is fatal. The backend and the
    process are observed through one trace of events, so that the order of
    delegation and exit can be stated. */
module Emitter {
  import Levels

  /** What the backend receives: source location, level number, and the
      first `n` characters of the rendered buffer. */
  datatype Record = Record(file: string, line: int, func: string, level: int, text: string)

  datatype Event = Delegate(record: Record) | Exit(status: int)

  /** The records delegated to the backend, in order. */
  function RecordsOf(events: seq<Event>): seq<Record> {
    if events == [] then []
    else
      var rest := RecordsOf(events[1..]);
      if events[0].Delegate? then [events[0].record] + rest else rest
  }

  predicate ExitedOf(events: seq<Event>) {
    exists i :: 0 <= i < |events| && events[i].Exit?
  }

  lemma {:induction false} RecordsOfAppend(a: seq<Event>, b: seq<Event>)
    ensures RecordsOf(a + b) == RecordsOf(a) + RecordsOf(b)
    decreases |a|
  {
    if a == [] {
      assert a + b == b;
    } else {
      assert (a + b)[1..] == a[1..] + b;
      RecordsOfAppend(a[1..], b);
    }
  }

  /** The event trace after one emit of record `r` at `level`. */
  function AfterLogTo(events: seq<Event>, r: Record, level: Levels.Level): seq<Event> {
    events + [Delegate(r)] + (if level == Levels.Fatal then [Exit(1)] else [])
  }

  /** One emit adds exactly one record, the given one, to what the backend
      received; it ends the process iff the level is fatal, with status 1,
      and only after the record was delegated. */
  lemma LogToEffect(events: seq<Event>, r: Record, level: Levels.Level)
    ensures RecordsOf(AfterLogTo(events, r, level)) == RecordsOf(events) + [r]
    ensures ExitedOf(AfterLogTo(events, r, level)) <==> ExitedOf(events) || level == Levels.Fatal
    ensures var ev := AfterLogTo(events, r, level);
      ev[|events|] == Delegate(r) &&
      (level == Levels.Fatal ==> |ev| == |events| + 2 && ev[|events| + 1] == Exit(1)) &&
      (level != Levels.Fatal ==> |ev| == |events| + 1)
  {
    var tail := [Delegate(r)] + (if level == Levels.Fatal then [Exit(1)] else []);
    assert AfterLogTo(events, r, level) == events + tail;
    RecordsOfAppend(events, tail);
    assert tail[1..] == (if level == Levels.Fatal then [Exit(1)] else []);
    assert RecordsOf(tail) == [r] + RecordsOf(tail[1..]);
    if level == Levels.Fatal {
      assert tail[1..][1..] == [];
    }
    var ev := AfterLogTo(events, r, level);
    if ExitedOf(events) {
      var i :| 0 <= i < |events| && events[i].Exit?;
      assert ev[i] == events[i];
    }
    if level == Levels.Fatal {
      assert ev[|events| + 1].Exit?;
    }
    if ExitedOf(ev) && level != Levels.Fatal {
      var i :| 0 <= i < |ev| && ev[i].Exit?;
      assert i < |events| && events[i] == ev[i];
    }
  }

  /** The logging backend and the process around it. */
  class Backend {
    var events: seq<Event>

    constructor ()
      ensures events == []
    {
      events := [];
    }

    function Records(): seq<Record>
      reads this
    {
      RecordsOf(events)
    }

    predicate Exited()
      reads this
    {
      ExitedOf(events)
    }

    /** logto: hands the level number and the first `n` characters of `data`
        to the backend, then exits with status 1 if the level is fatal. */
    method LogTo(file: string, line: int, func: string, level: Levels.Level, data: seq<char>, n: nat)
      requires n <= |data|
      requires !Exited()
      modifies this
      ensures events == AfterLogTo(old(events), Record(file, line, func, level.Value(), data[..n]), level)
      ensures Records() == old(Records()) + [Record(file, line, func, level.Value(), data[..n])]
      ensures Exited() <==> level == Levels.Fatal
    {
      var r := Record(file, line, func, level.Value(), data[..n]);
      LogToEffect(events, r, level);
      events := events + [Delegate(r)];
      if level == Levels.Fatal {
        events := events + [Exit(1)];
      }
    }
  }
}
