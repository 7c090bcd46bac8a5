/**
 * The `text/event-stream` wire format of the HTML Living Standard, section 9.2 (Server-sent
 * events): the frame formatter every server component writes with, and the browser side's
 * line-based interpretation of the stream, so that what a server writes can be compared with
 * what a client dispatches.
 */
module EventStream {
  import opened Json
  import opened Collections

  /** A payload: a string is written as it is, anything else as its JSON text. */
  datatype Data = Text(s: string) | Value(v: Json)

  function DataText(d: Data): string
  {
    match d
    case Text(s) => s
    case Value(v) => Stringify(v)
  }

  /**
   * One frame: an `event:` line, a `data:` line and the blank line that ends the event. When
   * the name and a string payload hold no line break, a reader sees exactly those three lines.
   */
  function FormatMessage(event: string, d: Data): (frame: string)
    ensures OneLine(event) && (d.Text? ==> OneLine(d.s)) ==>
      Lines(frame) == ["event: " + event, "data: " + DataText(d), ""]
  {
    DataIsOneLine(d);
    FrameTextLines(event, DataText(d), "");
    assert FrameText(event, DataText(d)) + "" == FrameText(event, DataText(d));
    FrameText(event, DataText(d))
  }

  /** A JSON payload's text is always one line; a string payload is one when it has no break. */
  lemma DataIsOneLine(d: Data)
    ensures (d.Text? ==> OneLine(d.s)) ==> OneLine(DataText(d))
  {
    if d.Value? {
      StringifyIsOneLine(d.v);
    }
  }

  function FrameText(event: string, text: string): string
  {
    "event: " + event + "\ndata: " + text + "\n\n"
  }

  /** A dispatched event as a client's event source hands it to its listeners. */
  datatype Event = Event(kind: string, data: string)

  /** The event type buffer and the data buffer of the stream interpretation. */
  datatype Buffers = Buffers(eventType: string, data: string)

  const Empty := Buffers("", "")

  predicate IsBreak(c: char)
  {
    c == '\n' || c == '\r'
  }

  /** Index of the first line feed or carriage return of `s`. */
  function FirstBreak(s: string): (i: nat)
    requires !OneLine(s)
    ensures i < |s| && IsBreak(s[i])
    ensures forall j :: 0 <= j < i ==> !IsBreak(s[j])
    decreases |s|
  {
    if IsBreak(s[0]) then 0
    else
      assert s == [s[0]] + s[1..];
      1 + FirstBreak(s[1..])
  }

  /**
   * The complete lines of a stream. A line ends at a carriage return followed by a line feed,
   * at a lone line feed or at a lone carriage return; an unfinished last line is not yet a line.
   */
  function Lines(s: string): seq<string>
    decreases |s|
  {
    if OneLine(s) then []
    else
      var i := FirstBreak(s);
      var next := if s[i] == '\r' && i + 1 < |s| && s[i + 1] == '\n' then i + 2 else i + 1;
      [s[..i]] + Lines(s[next..])
  }

  /** Field name and value of a non-blank line: split at the first colon, one leading space dropped. */
  function FieldOf(line: string): (string, string)
  {
    if ':' in line then
      var i := IndexOf(line, ':');
      var v := line[i + 1..];
      (line[..i], if |v| > 0 && v[0] == ' ' then v[1..] else v)
    else (line, "")
  }

  /** A blank line dispatches the buffered event, unless no data was buffered. */
  function Dispatch(b: Buffers): (Buffers, seq<Event>)
  {
    if b.data == "" then (Empty, [])
    else (Empty, [Event(if b.eventType == "" then "message" else b.eventType, b.data[..|b.data| - 1])])
  }

  function ProcessLine(b: Buffers, line: string): (Buffers, seq<Event>)
  {
    if line == "" then Dispatch(b)
    else if line[0] == ':' then (b, [])
    else
      var (field, value) := FieldOf(line);
      if field == "event" then (b.(eventType := value), [])
      else if field == "data" then (b.(data := b.data + value + "\n"), [])
      else (b, [])
  }

  function Feed(b: Buffers, lines: seq<string>): (Buffers, seq<Event>)
    decreases |lines|
  {
    if lines == [] then (b, [])
    else
      var (b1, e1) := ProcessLine(b, lines[0]);
      var (b2, e2) := Feed(b1, lines[1..]);
      (b2, e1 + e2)
  }

  /** The events a client dispatches after reading `stream` from its beginning. */
  function Parse(stream: string): seq<Event>
  {
    Feed(Empty, Lines(stream)).1
  }

  /** What a frame looks like on the wire for a dispatched event. */
  function Wire(e: Event): string
  {
    FormatMessage(e.kind, Text(e.data))
  }

  /** The stream made of the frames of `es`, in order. */
  function WireAll(es: seq<Event>): string
  {
    if es == [] then "" else Wire(es[0]) + WireAll(es[1..])
  }

  /** An event a frame can carry unchanged: a named kind and both texts on one line. */
  ghost predicate Carried(e: Event)
  {
    e.kind != "" && OneLine(e.kind) && OneLine(e.data)
  }

  /** The first break of `line + [c] + rest`, for a one-line `line`, is `c`. */
  lemma BreakAfter(line: string, c: char, rest: string)
    requires OneLine(line) && IsBreak(c)
    ensures !OneLine(line + [c] + rest) && FirstBreak(line + [c] + rest) == |line|
  {
    var s := line + [c] + rest;
    assert s[|line|] == c;
    assert forall j :: 0 <= j < |line| ==> s[j] == line[j];
  }

  lemma LinesCons(line: string, rest: string)
    requires OneLine(line)
    ensures Lines(line + "\n" + rest) == [line] + Lines(rest)
  {
    var s := line + "\n" + rest;
    BreakAfter(line, '\n', rest);
    assert s[..|line|] == line;
    assert s[|line| + 1..] == rest;
  }

  /** A lone carriage return ends a line as a line feed does. */
  lemma LinesConsReturn(line: string, rest: string)
    requires OneLine(line) && (rest == [] || rest[0] != '\n')
    ensures Lines(line + "\r" + rest) == [line] + Lines(rest)
  {
    var s := line + "\r" + rest;
    BreakAfter(line, '\r', rest);
    assert s[..|line|] == line;
    assert s[|line| + 1..] == rest;
  }

  /** Carriage return and line feed together end one line, not two. */
  lemma LinesConsReturnFeed(line: string, rest: string)
    requires OneLine(line)
    ensures Lines(line + "\r\n" + rest) == [line] + Lines(rest)
  {
    var s := line + "\r\n" + rest;
    assert s == line + ['\r'] + ("\n" + rest);
    BreakAfter(line, '\r', "\n" + rest);
    assert s[..|line|] == line;
    assert s[|line| + 2..] == rest;
  }

  lemma FrameTextLines(event: string, text: string, rest: string)
    ensures OneLine(event) && OneLine(text) ==>
      Lines(FrameText(event, text) + rest) == ["event: " + event, "data: " + text, ""] + Lines(rest)
  {
    if OneLine(event) && OneLine(text) {
      var l1, l2 := "event: " + event, "data: " + text;
      assert OneLine(l1) && OneLine(l2);
      var r3 := "" + "\n" + rest;
      var r2 := l2 + "\n" + r3;
      FrameSplit(event, text, rest);
      LinesCons("", rest);
      LinesCons(l2, r3);
      LinesCons(l1, r2);
      ConsThree(l1, l2, "", Lines(rest));
    }
  }

  lemma FrameLines(event: string, text: string, rest: string)
    requires OneLine(event) && OneLine(text)
    ensures Lines(FormatMessage(event, Text(text)) + rest)
         == ["event: " + event, "data: " + text, ""] + Lines(rest)
  {
    FrameTextLines(event, text, rest);
  }

  lemma ConsThree<T>(a: T, b: T, c: T, tail: seq<T>)
    ensures [a] + ([b] + ([c] + tail)) == [a, b, c] + tail
  {
  }

  lemma FrameSplit(event: string, text: string, rest: string)
    ensures FrameText(event, text) + rest
         == ("event: " + event) + "\n" + (("data: " + text) + "\n" + ("" + "\n" + rest))
  {
    var f := FrameText(event, text);
    var g := ("event: " + event) + "\n" + (("data: " + text) + "\n" + ("" + "\n" + rest));
    assert |f + rest| == |g|;
    forall i | 0 <= i < |g| ensures (f + rest)[i] == g[i] {
    }
  }

  lemma FieldAfterName(name: string, prefix: string, value: string)
    requires ':' !in name && prefix == name + ": "
    ensures FieldOf(prefix + value) == (name, value)
  {
    var line := prefix + value;
    assert line == name + [':'] + (" " + value);
    IndexOfAfter(name, ':', " " + value);
    assert line[..|name|] == name;
    assert line[|name| + 1..] == " " + value;
  }

  lemma Assoc<T>(a: seq<T>, b: seq<T>, c: seq<T>)
    ensures a + (b + c) == (a + b) + c
  {
  }

  lemma {:induction false} FeedAppend(b: Buffers, xs: seq<string>, ys: seq<string>)
    ensures Feed(b, xs + ys) == (Feed(Feed(b, xs).0, ys).0, Feed(b, xs).1 + Feed(Feed(b, xs).0, ys).1)
    decreases |xs|
  {
    if xs == [] {
      assert xs + ys == ys;
      assert Feed(b, xs) == (b, []);
      var f := Feed(b, ys);
      assert [] + f.1 == f.1;
    } else {
      assert (xs + ys)[0] == xs[0];
      assert (xs + ys)[1..] == xs[1..] + ys;
      var (b1, e1) := ProcessLine(b, xs[0]);
      FeedAppend(b1, xs[1..], ys);
      var m := Feed(b1, xs[1..]);
      var f := Feed(m.0, ys);
      assert Feed(b, xs) == (m.0, e1 + m.1);
      assert Feed(b, xs + ys) == (f.0, e1 + (m.1 + f.1));
      Assoc(e1, m.1, f.1);
    }
  }

  /** A single frame read from the start of a stream yields exactly the event it was made from. */
  lemma FrameYieldsEvent(e: Event)
    requires Carried(e)
    ensures Feed(Empty, ["event: " + e.kind, "data: " + e.data, ""]) == (Empty, [e])
  {
    var l1, l2 := "event: " + e.kind, "data: " + e.data;
    FieldAfterName("event", "event: ", e.kind);
    FieldAfterName("data", "data: ", e.data);
    var b1 := Buffers(e.kind, "");
    assert l1[0] == 'e';
    assert ProcessLine(Empty, l1) == (b1, []);
    var b2 := Buffers(e.kind, e.data + "\n");
    assert l2[0] == 'd';
    assert b1.data + e.data + "\n" == e.data + "\n";
    assert ProcessLine(b1, l2) == (b2, []);
    assert b2.data[..|b2.data| - 1] == e.data;
    assert ProcessLine(b2, "") == (Empty, [e]);
    var lines := [l1, l2, ""];
    assert lines[1..] == [l2, ""] && lines[1..][1..] == [""] && lines[1..][1..][1..] == [];
    assert Feed(b2, [""]) == (Empty, [e] + []);
    assert Feed(b1, [l2, ""]) == (Empty, [] + ([e] + []));
    assert Feed(Empty, lines) == (Empty, [] + ([] + ([e] + [])));
    assert [] + ([] + ([e] + [])) == [e];
  }

  /** Round trip: the client recovers, in order, every event the server framed. */
  lemma {:induction false} ParseWireAll(es: seq<Event>)
    requires forall i :: 0 <= i < |es| ==> Carried(es[i])
    ensures Feed(Empty, Lines(WireAll(es))) == (Empty, es)
  {
    if es != [] {
      var e := es[0];
      var frame := ["event: " + e.kind, "data: " + e.data, ""];
      FrameLines(e.kind, e.data, WireAll(es[1..]));
      FrameYieldsEvent(e);
      FeedAppend(Empty, frame, Lines(WireAll(es[1..])));
      ParseWireAll(es[1..]);
      assert [e] + es[1..] == es;
    }
  }

  /** A payload-carrying frame is read back as its event name and the payload's text. */
  lemma ParseFormatted(event: string, d: Data)
    requires event != "" && OneLine(event)
    requires d.Text? ==> OneLine(d.s)
    ensures Parse(FormatMessage(event, d)) == [Event(event, DataText(d))]
  {
    var text := DataText(d);
    DataIsOneLine(d);
    var e := Event(event, text);
    assert Carried(e);
    var frame := FormatMessage(event, d);
    assert Wire(e) == frame;
    assert WireAll([e]) == frame + WireAll([]);
    assert frame + "" == frame;
    ParseWireAll([e]);
  }

  /**
   * A string payload with a carriage return in it is cut short: the frame writes it raw on
   * the `data:` line, and a reader ends the line at the carriage return and ignores the rest,
   * a line whose field name it does not know.
   */
  lemma CarriageReturnCutsData(kind: string, a: string, b: string)
    requires kind != "" && OneLine(kind) && OneLine(a) && OneLine(b)
    requires b != "" && ':' !in b && b != "event" && b != "data"
    ensures Parse(FormatMessage(kind, Text(a + "\r" + b))) == [Event(kind, a)]
  {
    ReturnFrameText(kind, a, b);
    ReturnSplitsFrame(kind, a, b);
    ReturnLinesFeed(kind, a, b);
  }

  lemma ReturnSplitsFrame(kind: string, a: string, b: string)
    requires OneLine(kind) && OneLine(a) && OneLine(b) && b != ""
    ensures Lines(("event: " + kind) + "\n" + (("data: " + a) + "\r" + (b + "\n" + ("" + "\n" + ""))))
         == ["event: " + kind, "data: " + a, b, ""]
  {
    var l1 := "event: " + kind;
    assert OneLine(l1);
    ReturnedDataLines(a, b);
    LinesCons(l1, ("data: " + a) + "\r" + (b + "\n" + ("" + "\n" + "")));
  }

  lemma ReturnedDataLines(a: string, b: string)
    requires OneLine(a) && OneLine(b) && b != ""
    ensures Lines(("data: " + a) + "\r" + (b + "\n" + ("" + "\n" + ""))) == ["data: " + a, b, ""]
  {
    var l2 := "data: " + a;
    assert OneLine(l2);
    var r3 := "" + "\n" + "";
    var r2 := b + "\n" + r3;
    LinesCons("", "");
    LinesCons(b, r3);
    assert Lines("") == [];
    assert r2[0] == b[0];
    LinesConsReturn(l2, r2);
  }

  lemma ReturnFrameText(kind: string, a: string, b: string)
    ensures FormatMessage(kind, Text(a + "\r" + b))
         == ("event: " + kind) + "\n" + (("data: " + a) + "\r" + (b + "\n" + ("" + "\n" + "")))
  {
    var f := FrameText(kind, a + "\r" + b);
    var g := ("event: " + kind) + "\n" + (("data: " + a) + "\r" + (b + "\n" + ("" + "\n" + "")));
    assert |f| == |g|;
    forall i | 0 <= i < |g| ensures f[i] == g[i] {
    }
  }

  lemma ReturnLinesFeed(kind: string, a: string, b: string)
    requires kind != "" && b != "" && ':' !in b && b != "event" && b != "data"
    ensures Feed(Empty, ["event: " + kind, "data: " + a, b, ""]) == (Empty, [Event(kind, a)])
  {
    var l1, l2 := "event: " + kind, "data: " + a;
    FieldAfterName("event", "event: ", kind);
    FieldAfterName("data", "data: ", a);
    var b1 := Buffers(kind, "");
    var b2 := Buffers(kind, a + "\n");
    var e := Event(kind, a);
    assert l1[0] == 'e' && l2[0] == 'd' && b[0] != ':';
    assert ProcessLine(Empty, l1) == (b1, []);
    assert b1.data + a + "\n" == a + "\n";
    assert ProcessLine(b1, l2) == (b2, []);
    assert ProcessLine(b2, b) == (b2, []);
    assert b2.data[..|b2.data| - 1] == a;
    assert ProcessLine(b2, "") == (Empty, [e]);
    var lines := [l1, l2, b, ""];
    assert lines[1..] == [l2, b, ""] && lines[1..][1..] == [b, ""] && lines[1..][1..][1..] == [""];
    assert [""][1..] == [];
    assert Feed(b2, [""]) == (Empty, [e] + []);
    assert Feed(b2, [b, ""]) == (Empty, [] + ([e] + []));
    assert Feed(b1, [l2, b, ""]) == (Empty, [] + ([] + ([e] + [])));
    assert Feed(Empty, lines) == (Empty, [] + ([] + ([] + ([e] + []))));
    assert [] + ([] + ([] + ([e] + []))) == [e];
  }

  /** For example, the payload `"a\rb"` reaches a browser as `"a"`. */
  lemma ReturnCutExample()
    ensures Parse(FormatMessage("e", Text("a\rb"))) == [Event("e", "a")]
  {
    assert "a\rb" == "a" + "\r" + "b";
    assert OneLine("e") && OneLine("a") && OneLine("b");
    CarriageReturnCutsData("e", "a", "b");
  }
}
