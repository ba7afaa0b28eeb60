/** The rendered line: `msg='<msg>'` followed by ` <key>='<value>'` for each
    field, in entry order, with no escaping of quotes. This module gives the
    line as a function, proves that it composes with `WithFields`, and gives a
    reader that recovers message, keys and value texts from a line whenever
    no quote hides a boundary. */
module Rendering {
  import opened Values
  import opened Entries

  /** The message part of a line. */
  function Header(msg: string): string {
    "msg='" + msg + "'"
  }

  /** What one field adds to a line. */
  function Segment(f: Field): string {
    " " + f.0 + "='" + Text(f.1) + "'"
  }

  /** The segments of the fields, in order. */
  function Segments(fs: seq<Field>): string {
    if fs == [] then "" else Segment(fs[0]) + Segments(fs[1..])
  }

  /** The line rendered for a message and the fields of an entry. */
  function Render(msg: string, fs: seq<Field>): string {
    Header(msg) + Segments(fs)
  }

  lemma {:induction false} SegmentsAppend(a: seq<Field>, b: seq<Field>)
    ensures Segments(a + b) == Segments(a) + Segments(b)
    decreases |a|
  {
    if a == [] {
      assert a + b == b;
    } else {
      assert (a + b)[1..] == a[1..] + b;
      SegmentsAppend(a[1..], b);
    }
  }

  /** Rendering composes with `WithFields`: the extended entry's line is the
      base entry's line followed by the new fields' segments. */
  lemma RenderWithFields(msg: string, e: Entry, fs: seq<Field>)
    ensures Render(msg, e.WithFields(fs).fields) == Render(msg, e.fields) + Segments(fs)
  {
    SegmentsAppend(e.fields, fs);
  }

  /** One field more adds exactly its segment at the end of the line. */
  lemma RenderWithField(msg: string, e: Entry, k: string, v: Value)
    ensures Render(msg, e.WithField(k, v).fields) == Render(msg, e.fields) + Segment((k, v))
  {
    RenderWithFields(msg, e, [(k, v)]);
    assert [(k, v)][1..] == [];
    assert Segments([(k, v)]) == Segment((k, v));
  }

  /** Two entries derived from one base render their own field only, after
      the base's line, and the base renders as before. */
  lemma RenderBranches(msg: string, base: Entry, k1: string, v1: Value, k2: string, v2: Value)
    ensures Render(msg, base.WithField(k1, v1).fields) == Render(msg, base.fields) + Segment((k1, v1))
    ensures Render(msg, base.WithField(k2, v2).fields) == Render(msg, base.fields) + Segment((k2, v2))
  {
    RenderWithFields(msg, base, [(k1, v1)]);
    RenderWithFields(msg, base, [(k2, v2)]);
  }

  /** A zero-field entry renders exactly the message part, with nothing
      after its closing quote. */
  lemma RenderNoFields(msg: string)
    ensures Render(msg, []) == "msg='" + msg + "'"
    ensures Render(msg, Empty().fields)[|Render(msg, [])| - 1] == '\''
  {
  }

  /** The port field of `RenderOneFieldExample` and `RenderTwoFieldExample`:
      an `int` 80. */
  lemma PortSegment()
    ensures Segment(("port", I32(80))) == " port='80'"
  {
    assert NatText(8) == "8";
    assert NatText(80) == NatText(8) + [Digit(0)];
  }

  /** The ip field of `RenderTwoFieldExample`: a borrowed C string. */
  lemma IpSegment()
    ensures Segment(("ip", Borrowed("127.0.0.1"))) == " ip='127.0.0.1'"
  {
  }

  /** A one-field line. */
  lemma RenderOneFieldExample()
    ensures Render("Listen on", [("port", I32(80))]) == "msg='Listen on' port='80'"
  {
    PortSegment();
    assert Segments([("port", I32(80))]) == Segment(("port", I32(80))) + Segments([]);
  }

  /** A two-field line is the message part followed by both segments. */
  lemma RenderTwoFields(msg: string, f1: Field, f2: Field)
    ensures Render(msg, [f1, f2]) == Header(msg) + Segment(f1) + Segment(f2)
  {
    assert [f1, f2][1..] == [f2];
    assert Segments([f2]) == Segment(f2);
  }

  lemma TwoFieldPieces()
    ensures Header("Listen on") + Segment(("ip", Borrowed("127.0.0.1"))) + Segment(("port", I32(80))) ==
            "msg='Listen on'" + " ip='127.0.0.1'" + " port='80'"
  {
    PortSegment();
    IpSegment();
    assert Header("Listen on") == "msg='Listen on'";
  }

  lemma TwoFieldLiteral()
    ensures "msg='Listen on'" + " ip='127.0.0.1'" + " port='80'" == "msg='Listen on' ip='127.0.0.1' port='80'"
  {
  }

  /** A two-field line keeps the fields in order. */
  lemma RenderTwoFieldExample()
    ensures Render("Listen on", [("ip", Borrowed("127.0.0.1")), ("port", I32(80))]) ==
            "msg='Listen on' ip='127.0.0.1' port='80'"
  {
    RenderTwoFields("Listen on", ("ip", Borrowed("127.0.0.1")), ("port", I32(80)));
    TwoFieldPieces();
    TwoFieldLiteral();
  }

  /** Quotes are not escaped: a message holding a quote renders exactly like
      a shorter message followed by a field. */
  lemma QuotesAreNotEscaped()
    ensures Render("a' b='c", []) == Render("a", [("b", Owned("c"))])
  {
  }

  /** The literal characters a line adds of its own. */
  predicate IsLineSyntax(c: char) {
    c in "msg=' "
  }

  /** Some field mentions `c` in its key or its value text. */
  predicate Mentions(fs: seq<Field>, c: char) {
    exists i :: 0 <= i < |fs| && (c in fs[i].0 || c in Text(fs[i].1))
  }

  lemma {:induction false} CharInSegments(fs: seq<Field>, c: char)
    requires c !in " ='"
    ensures c in Segments(fs) <==> Mentions(fs, c)
    decreases |fs|
  {
    if fs != [] {
      CharInSegments(fs[1..], c);
      var f := fs[0];
      assert Segments(fs) == " " + f.0 + "='" + Text(f.1) + "'" + Segments(fs[1..]);
      assert c in Segment(f) <==> c in f.0 || c in Text(f.1);
      if Mentions(fs, c) {
        var i :| 0 <= i < |fs| && (c in fs[i].0 || c in Text(fs[i].1));
        if i > 0 {
          assert fs[1..][i - 1] == fs[i];
        }
      }
      if Mentions(fs[1..], c) {
        var i :| 0 <= i < |fs[1..]| && (c in fs[1..][i].0 || c in Text(fs[1..][i].1));
        assert fs[i + 1] == fs[1..][i];
      }
    }
  }

  /** Apart from its own syntax, a line holds exactly the characters of the
      message, the keys and the value texts. */
  lemma CharInRender(msg: string, fs: seq<Field>, c: char)
    requires !IsLineSyntax(c)
    ensures c in Render(msg, fs) <==> c in msg || Mentions(fs, c)
  {
    CharInSegments(fs, c);
    assert Render(msg, fs) == "msg='" + msg + "'" + Segments(fs);
  }

  /** Position of the first `c` in `s`, or `|s|` when there is none. */
  function IndexOf(s: string, c: char): (r: nat)
    ensures r <= |s|
    ensures forall j :: 0 <= j < r ==> s[j] != c
    ensures r < |s| ==> s[r] == c
  {
    if s == [] then 0 else if s[0] == c then 0 else 1 + IndexOf(s[1..], c)
  }

  lemma IndexOfFirst(a: string, c: char, b: string)
    requires c !in a
    ensures IndexOf(a + [c] + b, c) == |a|
  {
    var s := a + [c] + b;
    assert s[|a|] == c;
    assert forall j :: 0 <= j < |a| ==> s[j] == a[j];
  }

  /** Reads the field segments of a line back as key and value-text pairs. */
  function ParseSegments(s: string): Option<seq<(string, string)>>
    decreases |s|
  {
    if s == [] then Some([])
    else if s[0] != ' ' then None
    else
      var t := s[1..];
      var k := IndexOf(t, '=');
      if k + 1 >= |t| || t[k + 1] != '\'' then None
      else
        var w := t[k + 2..];
        var j := IndexOf(w, '\'');
        if j == |w| then None
        else
          match ParseSegments(w[j + 1..])
          case None => None
          case Some(rest) => Some([(t[..k], w[..j])] + rest)
  }

  /** Reads a whole line back as its message and its key/value-text pairs. */
  function ParseLine(s: string): Option<(string, seq<(string, string)>)> {
    if |s| < 5 || s[..5] != "msg='" then None
    else
      var w := s[5..];
      var j := IndexOf(w, '\'');
      if j == |w| then None
      else
        match ParseSegments(w[j + 1..])
        case None => None
        case Some(fs) => Some((w[..j], fs))
  }

  /** The keys and value texts of the fields, in order. */
  function TextPairs(fs: seq<Field>): (r: seq<(string, string)>)
    ensures |r| == |fs|
    ensures forall i :: 0 <= i < |fs| ==> r[i] == (fs[i].0, Text(fs[i].1))
  {
    if fs == [] then [] else [(fs[0].0, Text(fs[0].1))] + TextPairs(fs[1..])
  }

  /** No key holds `=` and no value text holds a quote. */
  predicate Readable(fs: seq<Field>) {
    forall i :: 0 <= i < |fs| ==> '=' !in fs[i].0 && '\'' !in Text(fs[i].1)
  }

  /** Reading one segment off the front of a string. */
  lemma ParseOneSegment(key: string, txt: string, rest: string)
    requires '=' !in key && '\'' !in txt
    ensures ParseSegments(" " + key + "='" + txt + "'" + rest) ==
      match ParseSegments(rest)
      case None => None
      case Some(r) => Some([(key, txt)] + r)
  {
    var s := " " + key + "='" + txt + "'" + rest;
    var t := s[1..];
    assert t == key + ['='] + ("'" + txt + "'" + rest);
    IndexOfFirst(key, '=', "'" + txt + "'" + rest);
    assert t[|key| + 1] == '\'';
    var w := t[|key| + 2..];
    assert w == txt + ['\''] + rest;
    IndexOfFirst(txt, '\'', rest);
    assert t[..|key|] == key;
    assert w[..|txt|] == txt;
    assert w[|txt| + 1..] == rest;
  }

  lemma {:induction false} ParseSegmentsOfSegments(fs: seq<Field>)
    requires Readable(fs)
    ensures ParseSegments(Segments(fs)) == Some(TextPairs(fs))
    decreases |fs|
  {
    if fs != [] {
      assert Readable(fs[1..]) by {
        forall i | 0 <= i < |fs[1..]| ensures '=' !in fs[1..][i].0 && '\'' !in Text(fs[1..][i].1) {
          assert fs[1..][i] == fs[i + 1];
        }
      }
      ParseSegmentsOfSegments(fs[1..]);
      ParseOneSegment(fs[0].0, Text(fs[0].1), Segments(fs[1..]));
      assert Segments(fs) == " " + fs[0].0 + "='" + Text(fs[0].1) + "'" + Segments(fs[1..]);
    }
  }

  /** When the message holds no quote, no key an `=` and no value text a
      quote, the line reads back as the message and the fields' keys and
      value texts, in order. */
  lemma ParseRender(msg: string, fs: seq<Field>)
    requires '\'' !in msg
    requires Readable(fs)
    ensures ParseLine(Render(msg, fs)) == Some((msg, TextPairs(fs)))
  {
    var s := Render(msg, fs);
    assert s == "msg='" + (msg + ['\''] + Segments(fs));
    assert s[..5] == "msg='";
    var w := s[5..];
    assert w == msg + ['\''] + Segments(fs);
    IndexOfFirst(msg, '\'', Segments(fs));
    assert w[..|msg|] == msg;
    assert w[|msg| + 1..] == Segments(fs);
    ParseSegmentsOfSegments(fs);
  }
}
