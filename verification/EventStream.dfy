/**
 * The written text as an event stream: how section 9.2.6 of the WHATWG HTML Standard has a client
 * take it apart, which is not how the plugin's scanner does it.
 */
module EventStream {
  import opened Framing

  predicate IsBreak(c: char) { c == '\n' || c == '\r' }

  /** Lines end with a line feed, a carriage return, or both. */
  function CutEventLine(s: string): (r: (string, string))
    ensures s != "" ==> |r.1| < |s|
  {
    if s == "" then ("", "")
    else if s[0] == '\r' && |s| > 1 && s[1] == '\n' then ("", s[2..])
    else if IsBreak(s[0]) then ("", s[1..])
    else
      var (line, rest) := CutEventLine(s[1..]);
      ([s[0]] + line, rest)
  }

  /** The field name is what stands before the first colon. */
  function FieldName(line: string): string {
    if line == "" || line[0] == ':' then "" else [line[0]] + FieldName(line[1..])
  }

  /** Its value is what stands behind that, without one leading space. */
  function FieldValue(line: string): string {
    var behind := line[if |FieldName(line)| < |line| then |FieldName(line)| + 1 else |line|..];
    if behind != "" && behind[0] == ' ' then behind[1..] else behind
  }

  /** What a line adds to the data of the event; other fields and comments add nothing. */
  function DataOf(line: string): string {
    if FieldName(line) == "data" then FieldValue(line) + "\n" else ""
  }

  /** The data of the events, given what has been collected for the first one; a blank line ends an event. */
  function EventsIn(s: string, data: string): seq<string>
    decreases |s|
  {
    if s == "" then []
    else
      var (line, rest) := CutEventLine(s);
      if line != "" then EventsIn(rest, data + DataOf(line))
      else if data == "" then EventsIn(rest, "")
      else [data[..|data| - 1]] + EventsIn(rest, "")
  }

  predicate OneLine(p: string) { forall i :: 0 <= i < |p| ==> !IsBreak(p[i]) }

  // ---- one frame ------------------------------------------------------------------------------

  lemma {:induction false} CutAtFeed(line: string, rest: string)
    requires OneLine(line)
    ensures CutEventLine(line + "\n" + rest) == (line, rest)
  {
    var s := line + "\n" + rest;
    if line == "" {
      assert s[1..] == rest;
    } else {
      assert s[0] == line[0] && s[1..] == line[1..] + "\n" + rest;
      CutAtFeed(line[1..], rest);
      assert [line[0]] + line[1..] == line;
    }
  }

  lemma DataLine(p: string)
    ensures DataOf("data: " + p) == p + "\n"
  {
    var line := "data: " + p;
    assert line[1..] == "ata: " + p && line[2..] == "ta: " + p && line[3..] == "a: " + p && line[4..] == ": " + p;
    assert line[1..][1..] == line[2..] && line[2..][1..] == line[3..] && line[3..][1..] == line[4..];
    assert FieldName(line[4..]) == "" && FieldName(line[3..]) == "a" && FieldName(line[2..]) == "ta";
    assert FieldName(line[1..]) == "ata" && FieldName(line) == "data";
    assert line[5..] == " " + p && (" " + p)[1..] == p;
  }

  lemma {:induction false} FrameIsEvent(p: string, rest: string)
    requires OneLine(p)
    ensures EventsIn(Frame(p) + rest, "") == [p] + EventsIn(rest, "")
  {
    var line, after := "data: " + p, "\n" + rest;
    assert Frame(p) + rest == line + "\n" + after;
    assert OneLine("data: ");
    CutAtFeed(line, after);
    DataLine(p);
    assert "" + DataOf(line) == p + "\n" && (p + "\n")[..|p|] == p;
    assert CutEventLine(after) == ("", rest) by { assert after[1..] == rest; }
  }

  // ---- frames with line breaks in them --------------------------------------------------------

  lemma FirstBreak(q: string) returns (k: nat)
    requires !OneLine(q)
    ensures k < |q| && IsBreak(q[k]) && OneLine(q[..k])
  {
    k := 0;
    while !IsBreak(q[k])
      invariant k < |q| && OneLine(q[..k])
      invariant exists i :: k <= i < |q| && IsBreak(q[i])
      decreases |q| - k
    {
      k := k + 1;
    }
  }

  /** Behind a break; a line feed goes with the carriage return before it. */
  function BehindBreak(c: char, after: string): string {
    if c == '\r' && after != "" && after[0] == '\n' then after[1..] else after
  }

  lemma {:induction false} CutAtBreak(line: string, c: char, after: string)
    requires OneLine(line) && IsBreak(c)
    ensures CutEventLine(line + [c] + after) == (line, BehindBreak(c, after))
  {
    var s := line + [c] + after;
    if line == "" {
      assert s == [c] + after && s[1..] == after;
      assert after != "" ==> s[2..] == after[1..];
    } else {
      assert s[0] == line[0] && s[1..] == line[1..] + [c] + after;
      CutAtBreak(line[1..], c, after);
      assert [line[0]] + line[1..] == line;
    }
  }

  lemma {:induction false} NameIsShort(line: string)
    ensures |FieldName(line)| <= |line|
  {
    if line != "" && line[0] != ':' {
      NameIsShort(line[1..]);
    }
  }

  lemma DataIsShort(line: string)
    ensures |DataOf(line)| <= |line|
  {
    NameIsShort(line);
  }

  /** The next event ends at the latest with the frame, and its data cannot be longer than what is left of that. */
  lemma {:induction false} NextEventIsShort(q: string, after: string, data: string)
    requires data != "" && (q == "" || (after != "" && after[0] == '\n'))
    ensures var events := EventsIn(q + "\n" + after, data); events != [] && |events[0]| < |data| + |q|
    decreases |q|, 0
  {
    var s := q + "\n" + after;
    if q == "" {
      assert s[1..] == after;
    } else if OneLine(q) {
      CutAtFeed(q, after);
      DataIsShort(q);
      assert CutEventLine(after) == ("", after[1..]);
    } else {
      var k := FirstBreak(q);
      var line, left := q[..k], q[k + 1..];
      assert s == line + [q[k]] + (left + "\n" + after);
      CutAtBreak(line, q[k], left + "\n" + after);
      DataIsShort(line);
      NextLineIsShort(q[k], left, after, data + DataOf(line));
    }
  }

  lemma {:induction false} NextLineIsShort(c: char, left: string, after: string, data: string)
    requires data != "" && after != "" && after[0] == '\n'
    ensures var events := EventsIn(BehindBreak(c, left + "\n" + after), data);
            events != [] && |events[0]| < |data| + |left|
    decreases |left|, 1
  {
    var s := left + "\n" + after;
    if c == '\r' && left == "" {
      assert s[1..] == "" + "\n" + after[1..];
      NextEventIsShort("", after[1..], data);
    } else if c == '\r' && left[0] == '\n' {
      assert s[1..] == left[1..] + "\n" + after;
      NextEventIsShort(left[1..], after, data);
    } else {
      NextEventIsShort(left, after, data);
    }
  }

  lemma {:induction false} BrokenFrameIsLost(p: string, rest: string)
    requires !OneLine(p)
    ensures var events := EventsIn(Frame(p) + rest, ""); events == [] || events[0] != p
  {
    var k := FirstBreak(p);
    var line, left, after := "data: " + p[..k], p[k + 1..], "\n" + rest;
    assert Frame(p) + rest == line + [p[k]] + (left + "\n" + after);
    assert OneLine("data: ");
    CutAtBreak(line, p[k], left + "\n" + after);
    DataLine(p[..k]);
    assert "" + DataOf(line) == p[..k] + "\n";
    NextLineIsShort(p[k], left, after, p[..k] + "\n");
  }

  /** What the client gets is this. */
  predicate Gets(s: string, events: seq<string>) { EventsIn(s, "") == events }

  lemma {:induction false} OneMoreEvent(p: string, rest: string, events: seq<string>)
    ensures Gets(Frame(p) + rest, [p] + events) <==> OneLine(p) && Gets(rest, events)
  {
    if OneLine(p) {
      FrameIsEvent(p, rest);
      assert ([p] + EventsIn(rest, ""))[1..] == EventsIn(rest, "");
      assert ([p] + events)[1..] == events;
    } else {
      BrokenFrameIsLost(p, rest);
      assert ([p] + events)[0] == p;
    }
  }

  predicate AllOneLine(payloads: seq<string>) { forall p :: p in payloads ==> OneLine(p) }

  lemma FirstAndRest(payloads: seq<string>)
    requires payloads != []
    ensures AllOneLine(payloads) <==> OneLine(payloads[0]) && AllOneLine(payloads[1..])
  {
    assert payloads == [payloads[0]] + payloads[1..];
  }

  lemma {:induction false} MarkIsEvent(mark: string)
    requires OneLine(mark)
    ensures Gets(Frame(mark), [mark])
  {
    assert Frame(mark) + "" == Frame(mark);
    FrameIsEvent(mark, "");
  }

  lemma {:induction false} GetsIff(payloads: seq<string>, s: string, mark: string)
    requires s == Frames(payloads) + Frame(mark) && OneLine(mark)
    ensures Gets(s, payloads + [mark]) <==> AllOneLine(payloads)
  {
    if payloads == [] {
      MarkIsEvent(mark);
      assert s == Frame(mark) && [] + [mark] == [mark];
    } else {
      var p, more, rest := payloads[0], payloads[1..], Frames(payloads[1..]) + Frame(mark);
      assert s == Frame(p) + rest;
      FirstAndRest(payloads);
      GetsIff(more, rest, mark);
      assert payloads + [mark] == [p] + (more + [mark]);
      OneMoreEvent(p, rest, more + [mark]);
    }
  }

  /**
   * A client gets each payload as one event, and then the mark, exactly if no payload has a line
   * break in it; encoded JSON has none.
   */
  lemma {:induction false} EventsAreIff(payloads: seq<string>)
    ensures EventsIn(Transcript(payloads, ""), "") == payloads + ["[DONE]"]
            <==> forall i :: 0 <= i < |payloads| ==> OneLine(payloads[i])
  {
    var s := Transcript(payloads, "");
    assert OneLine("[DONE]");
    assert s == Frames(payloads) + Frame("[DONE]");
    GetsIff(payloads, s, "[DONE]");
    assert AllOneLine(payloads) <==> forall i :: 0 <= i < |payloads| ==> OneLine(payloads[i]);
  }
}
