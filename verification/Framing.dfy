/**
 * Server-sent events as text: what the gateway writes, and how the plugin's line scanner
 * and payload filter read it back.
 */
module Framing {
  import opened Wrappers
  import opened Upstream

  // ---- writing --------------------------------------------------------------------------------

  /** writeChunk: three writes for one payload. */
  function Frame(payload: string): string { "data: " + payload + "\n\n" }

  function Frames(payloads: seq<string>): string {
    if payloads == [] then "" else Frame(payloads[0]) + Frames(payloads[1..])
  }

  // ---- reading --------------------------------------------------------------------------------

  /** The scanner's buffer limit in bytes. */
  const MAX_LINE: nat := 8 * 1024 * 1024

  function CharBytes(c: char): nat {
    if c < '\U{80}' then 1 else if c < '\U{800}' then 2 else if c < '\U{10000}' then 3 else 4
  }

  function ByteLength(s: string): nat {
    if s == "" then 0 else CharBytes(s[0]) + ByteLength(s[1..])
  }

  function CutLine(s: string): (r: (string, string))
    ensures s != "" ==> |r.1| < |s|
    ensures '\n' !in r.0
  {
    if s == "" then ("", "")
    else if s[0] == '\n' then ("", s[1..])
    else
      var (line, rest) := CutLine(s[1..]);
      ([s[0]] + line, rest)
  }

  function DropCarriageReturn(line: string): string {
    if line != "" && line[|line| - 1] == '\r' then line[..|line| - 1] else line
  }

  /** The scanner's lines, and how it ends; a line that fills the buffer ends it. */
  function Scan(s: string): (r: (seq<string>, BodyEnd))
    decreases |s|
  {
    if s == "" then ([], Eof)
    else
      var (line, rest) := CutLine(s);
      if ByteLength(line) >= MAX_LINE then ([], ReadError("bufio.Scanner: token too long", false))
      else
        var (lines, end) := Scan(rest);
        ([DropCarriageReturn(line)] + lines, end)
  }

  /** The payloads before [DONE]. */
  function Payloads(lines: seq<string>): seq<string> {
    if lines == [] then []
    else
      match PayloadOf(lines[0])
      case None => Payloads(lines[1..])
      case Some(p) => if p == DONE_MARK then [] else [p] + Payloads(lines[1..])
  }

  // ---- trimming ---------------------------------------------------------------------------------

  /** Unicode's white space, by code points. */
  predicate White(c: char) {
    var n := c as int;
    9 <= n <= 13 || 8192 <= n <= 8202 || n in {32, 133, 160, 5760, 8232, 8233, 8239, 8287, 12288}
  }

  predicate AllWhite(s: string) { forall c :: c in s ==> White(c) }

  lemma SpaceIsWhite(c: char)
    ensures IsSpace(c) <==> White(c)
  {
  }

  lemma {:induction false} TrimLeftFacts(s: string)
    ensures var t := TrimLeft(s);
            && |t| <= |s| && t == s[|s| - |t|..] && AllWhite(s[..|s| - |t|])
            && (t != "" ==> !White(t[0]))
  {
    if s != "" {
      SpaceIsWhite(s[0]);
      if IsSpace(s[0]) {
        TrimLeftFacts(s[1..]);
        assert s[..|s| - |TrimLeft(s)|] == [s[0]] + s[1..][..|s| - 1 - |TrimLeft(s)|];
      }
    }
  }

  lemma {:induction false} TrimRightFacts(s: string)
    ensures var t := TrimRight(s);
            && |t| <= |s| && t == s[..|t|] && AllWhite(s[|t|..])
            && (t != "" ==> !White(t[|t| - 1]))
  {
    if s != "" {
      SpaceIsWhite(s[|s| - 1]);
      if IsSpace(s[|s| - 1]) {
        TrimRightFacts(s[..|s| - 1]);
        assert s[|TrimRight(s)|..] == s[..|s| - 1][|TrimRight(s)|..] + [s[|s| - 1]];
      }
    }
  }

  /** White space around something that neither starts nor ends with it. */
  lemma {:induction false} TrimAround(a: string, p: string, b: string)
    requires AllWhite(a) && AllWhite(b) && p != "" && !White(p[0]) && !White(p[|p| - 1])
    ensures TrimSpace(a + p + b) == p
  {
    TrimLeftOff(a, p + b);
    assert a + p + b == a + (p + b);
    TrimRightOff(p, b);
  }

  lemma {:induction false} TrimLeftOff(a: string, s: string)
    requires AllWhite(a) && s != "" && !White(s[0])
    ensures TrimLeft(a + s) == s
  {
    SpaceIsWhite((a + s)[0]);
    if a == "" {
      assert a + s == s;
    } else {
      assert a[0] in a && (a + s)[1..] == a[1..] + s;
      TrimLeftOff(a[1..], s);
    }
  }

  lemma {:induction false} TrimRightOff(s: string, b: string)
    requires AllWhite(b) && s != "" && !White(s[|s| - 1])
    ensures TrimRight(s + b) == s
  {
    SpaceIsWhite((s + b)[|s + b| - 1]);
    if b == "" {
      assert s + b == s;
    } else {
      assert b[|b| - 1] in b && (s + b)[..|s + b| - 1] == s + b[..|b| - 1];
      TrimRightOff(s, b[..|b| - 1]);
    }
  }

  /** Trimming takes white space off both ends. */
  lemma {:induction false} TrimMeans(s: string) returns (a: string, b: string)
    ensures s == a + TrimSpace(s) + b && AllWhite(a) && AllWhite(b)
    ensures var t := TrimSpace(s); t != "" ==> !White(t[0]) && !White(t[|t| - 1])
  {
    var t := TrimLeft(s);
    TrimLeftFacts(s);
    TrimRightFacts(t);
    a, b := s[..|s| - |t|], t[|TrimRight(t)|..];
    assert s == a + (TrimRight(t) + b);
  }

  /** A line with a payload: "data:", the payload, and white space on either side of it. */
  predicate CarriesPayload(line: string, a: string, p: string, b: string) {
    && line == "data:" + a + p + b && AllWhite(a) && AllWhite(b)
    && p != "" && !White(p[0]) && !White(p[|p| - 1])
  }

  /** Which lines have which payload. */
  lemma {:induction false} PayloadMeans(line: string, p: string)
    ensures PayloadOf(line) == Some(p) <==> exists a, b :: CarriesPayload(line, a, p, b)
  {
    if PayloadOf(line) == Some(p) {
      var a, b := TrimMeans(line[5..]);
      assert line == line[..5] + line[5..] && line[..5] == "data:";
      assert "data:" + (a + p + b) == "data:" + a + p + b;
      assert CarriesPayload(line, a, p, b);
    }
    if a, b :| CarriesPayload(line, a, p, b) {
      TrimAround(a, p, b);
      assert "data:" + (a + p + b) == "data:" + a + p + b;
      assert line[5..] == a + p + b;
    }
  }

  // ---- what survives ----------------------------------------------------------------------------

  /** Payloads that the filter hands on unchanged. */
  predicate Clean(p: string) {
    p != "" && '\n' !in p && !White(p[0]) && !White(p[|p| - 1]) && p != "[DONE]"
  }

  /** And whose line is shorter than 8 MiB. */
  predicate Sendable(p: string) { Clean(p) && ByteLength("data: " + p) < 8388608 }

  lemma {:induction false} LinesHaveNoNewline(s: string)
    ensures forall i :: 0 <= i < |Scan(s).0| ==> '\n' !in Scan(s).0[i]
    decreases |s|
  {
    if s != "" {
      LinesHaveNoNewline(CutLine(s).1);
    }
  }

  lemma PayloadIsClean(line: string)
    requires '\n' !in line && PayloadOf(line).Some? && PayloadOf(line).value != DONE_MARK
    ensures Clean(PayloadOf(line).value)
  {
    var a, b := TrimMeans(line[|PREFIX|..]);
    var p := PayloadOf(line).value;
    forall i | 0 <= i < |p| ensures p[i] != '\n' {
      assert line[|PREFIX|..][|a| + i] == p[i] && line[|PREFIX| + |a| + i] == p[i];
    }
  }

  lemma {:induction false} PayloadsAreClean(lines: seq<string>)
    requires forall i :: 0 <= i < |lines| ==> '\n' !in lines[i]
    ensures forall p :: p in Payloads(lines) ==> Clean(p)
  {
    if lines != [] {
      PayloadsAreClean(lines[1..]);
      if PayloadOf(lines[0]).Some? && PayloadOf(lines[0]).value != DONE_MARK {
        PayloadIsClean(lines[0]);
      }
    }
  }

  lemma {:induction false} CutAt(line: string, rest: string)
    requires '\n' !in line
    ensures CutLine(line + "\n" + rest) == (line, rest)
  {
    var s := line + "\n" + rest;
    if line == "" {
      assert s[1..] == rest;
    } else {
      assert s[0] == line[0] && s[1..] == line[1..] + "\n" + rest;
      assert line[0] in line && [line[0]] + line[1..] == line;
      CutAt(line[1..], rest);
    }
  }

  lemma {:induction false} BytesOfConcat(a: string, b: string)
    ensures ByteLength(a + b) == ByteLength(a) + ByteLength(b)
  {
    if a == "" {
      assert a + b == b;
    } else {
      assert (a + b)[0] == a[0] && (a + b)[1..] == a[1..] + b;
      BytesOfConcat(a[1..], b);
    }
  }

  /** The number of bytes of a character in UTF-8: the least that hold 7, 11, 16 and 21 bits. */
  lemma BytesOfChar(c: char)
    ensures var bits := [0, 7, 11, 16, 21]; var n := ByteLength([c]);
            && 1 <= n <= 4 && (n == 1 || c as int >= Power2(bits[n - 1])) && c as int < Power2(bits[n])
  {
    assert Power2(7) == 128 && Power2(11) == 2048 && Power2(16) == 65536 && Power2(21) == 2097152;
    assert [c][1..] == "";
  }

  function Power2(n: nat): nat { if n == 0 then 1 else 2 * Power2(n - 1) }

  /** Upstream may end its lines with a carriage return and a line feed. */
  lemma {:induction false} LineEndsDoNotMatter(line: string, rest: string)
    requires '\n' !in line && (line == "" || line[|line| - 1] != '\r') && ByteLength(line) + 1 < 8388608
    ensures Scan(line + "\r\n" + rest) == Scan(line + "\n" + rest) == ([line] + Scan(rest).0, Scan(rest).1)
  {
    CutAt(line, rest);
    CutAt(line + "\r", rest);
    assert line + "\r\n" + rest == (line + "\r") + "\n" + rest;
    BytesOfConcat(line, "\r");
    BytesOfChar('\r');
  }

  /** A line of 8 MiB or more ends the reading, with the lines before it read. */
  lemma {:induction false} LongLineEndsReading(line: string, rest: string)
    requires '\n' !in line && ByteLength(line) >= 8388608
    ensures Scan(line + "\n" + rest) == ([], ReadError("bufio.Scanner: token too long", false))
  {
    CutAt(line, rest);
  }

  lemma PayloadOfFrame(p: string)
    requires Clean(p) || p == DONE_MARK
    ensures DropCarriageReturn("data: " + p) == "data: " + p
    ensures PayloadOf("data: " + p) == Some(p)
  {
    var line := "data: " + p;
    assert DONE_MARK[0] == '[' && DONE_MARK[5] == ']' && White(' ') && !White('[') && !White(']') && White('\r');
    assert line[|line| - 1] == p[|p| - 1];
    assert line == "data:" + " " + p + "";
    assert CarriesPayload(line, " ", p, "");
    PayloadMeans(line, p);
  }

  /** Scanning one frame: its data line, then the empty line, then the rest. */
  lemma {:induction false} ScanFrame(p: string, rest: string)
    requires '\n' !in p
    ensures var line := "data: " + p;
            Scan(Frame(p) + rest).0
            == if ByteLength(line) >= MAX_LINE then []
               else [DropCarriageReturn(line), ""] + Scan(rest).0
  {
    var line := "data: " + p;
    assert Frame(p) + rest == line + "\n" + ("\n" + rest);
    CutAt(line, "\n" + rest);
    assert "\n" + rest == "" + "\n" + rest;
    CutAt("", rest);
    assert ByteLength("") == 0;
    assert [DropCarriageReturn(line)] + ([""] + Scan(rest).0) == [DropCarriageReturn(line), ""] + Scan(rest).0;
  }

  lemma {:induction false} FirstOfTwo(line: string, tail: seq<string>)
    ensures Payloads([line, ""] + tail)
            == match PayloadOf(line)
               case None => Payloads(tail)
               case Some(p) => if p == DONE_MARK then [] else [p] + Payloads(tail)
  {
    assert ([line, ""] + tail)[0] == line && ([line, ""] + tail)[1..] == [""] + tail;
    assert ([""] + tail)[0] == "" && ([""] + tail)[1..] == tail;
    assert PayloadOf("").None?;
  }

  lemma {:induction false} ReadFrame(p: string, rest: string)
    requires '\n' !in p
    ensures ByteLength("data: " + p) >= MAX_LINE ==> Payloads(Scan(Frame(p) + rest).0) == []
    ensures Sendable(p) ==> Payloads(Scan(Frame(p) + rest).0) == [p] + Payloads(Scan(rest).0)
    ensures p == DONE_MARK ==> Payloads(Scan(Frame(p) + rest).0) == []
  {
    ScanFrame(p, rest);
    if Sendable(p) || p == DONE_MARK {
      PayloadOfFrame(p);
      FirstOfTwo("data: " + p, Scan(rest).0);
    }
    if p == DONE_MARK {
      assert ByteLength("data: [DONE]") < MAX_LINE by { ShortBytes("data: [DONE]"); }
    }
  }

  lemma {:induction false} ShortBytes(s: string)
    ensures ByteLength(s) <= 4 * |s|
  {
    if s != "" {
      ShortBytes(s[1..]);
    }
  }

  /** What the gateway writes for these payloads, and what may follow it on the connection. */
  function Transcript(payloads: seq<string>, rest: string): string {
    Frames(payloads) + (Frame(DONE_MARK) + rest)
  }

  lemma FirstFrame(payloads: seq<string>, rest: string)
    requires payloads != []
    ensures Transcript(payloads, rest) == Frame(payloads[0]) + Transcript(payloads[1..], rest)
  {
  }

  /** Everything after [DONE] is ignored, and before it every sendable payload comes back. */
  lemma ReadBack(payloads: seq<string>, rest: string)
    requires forall p :: p in payloads ==> Sendable(p)
    ensures Payloads(Scan(Transcript(payloads, rest)).0) == payloads
  {
    if payloads == [] {
      assert forall i :: 0 <= i < |DONE_MARK| ==> DONE_MARK[i] != '\n';
      ReadFrame(DONE_MARK, rest);
      assert Transcript([], rest) == Frame(DONE_MARK) + rest;
    } else {
      assert payloads[0] in payloads;
      FirstFrame(payloads, rest);
      ReadFrame(payloads[0], Transcript(payloads[1..], rest));
      ReadBack(payloads[1..], rest);
    }
  }

  lemma {:induction false} FirstIsSendable(p: string, payloads: seq<string>, more: string)
    requires Clean(p) && payloads != [] && payloads[0] == p
    requires Payloads(Scan(Frame(p) + more).0) == payloads
    ensures Sendable(p) && Payloads(Scan(more).0) == payloads[1..]
  {
    ReadFrame(p, more);
    assert Sendable(p) ==> ([p] + Payloads(Scan(more).0))[1..] == Payloads(Scan(more).0);
  }

  lemma LostOtherwise(payloads: seq<string>, rest: string)
    requires Payloads(Scan(Transcript(payloads, rest)).0) == payloads
    requires forall p :: p in payloads ==> Clean(p)
    ensures forall p :: p in payloads ==> Sendable(p)
  {
    if payloads != [] {
      assert payloads[0] in payloads;
      FirstFrame(payloads, rest);
      FirstIsSendable(payloads[0], payloads, Transcript(payloads[1..], rest));
      LostOtherwise(payloads[1..], rest);
    }
  }

  /** The round trip holds for exactly the payloads that are sendable, however many are written. */
  lemma RoundTrip(payloads: seq<string>, rest: string)
    ensures Payloads(Scan(Transcript(payloads, rest)).0) == payloads
            <==> forall p :: p in payloads ==> Sendable(p)
  {
    if forall p :: p in payloads ==> Sendable(p) {
      ReadBack(payloads, rest);
    }
    if Payloads(Scan(Transcript(payloads, rest)).0) == payloads {
      LinesHaveNoNewline(Transcript(payloads, rest));
      PayloadsAreClean(Scan(Transcript(payloads, rest)).0);
      LostOtherwise(payloads, rest);
    }
  }
}
