/**
 * The plugin's side of the translation: what the events it emits tell, how they end, and what of it
 * the client hears.
 */
module Translation {
  import opened Wrappers
  import opened Json
  import opened Events
  import opened Upstream
  import opened Render
  import opened Utterances
  import opened Meaning

  // ---- one chunk ------------------------------------------------------------------------------------

  /** The finish reason of the first choice, "" without choices and with an error. */
  function FinishOf(e: Envelope): string { if e.error.Some? || e.choices == [] then "" else e.choices[0].finish }

  function UsageOf(e: Envelope): Option<Usage> { if e.error.Some? then None else e.usage }

  lemma {:induction false} ToolEventsTell(tcs: seq<ToolDelta>, finish: string)
    ensures Told(ToolEvents(tcs, finish)) == Fragments(tcs)
  {
    if tcs != [] {
      ToolEventsTell(tcs[1..], finish);
      var first := ToolEvent(tcs[0], finish);
      FlatMapConcat(Tells, [first], ToolEvents(tcs[1..], finish));
      FlatMapOne(Tells, first);
      assert Fragments(tcs) == [Fragment(tcs[0])] + Fragments(tcs[1..]);
    }
  }

  lemma ChunkTells(e: Envelope)
    ensures Told(ParseChunk(e).0) == Says(e)
  {
    if e.error.Some? {
      FlatMapOne(Tells, ParseChunk(e).0[0]);
    } else if e.choices != [] {
      var ch := e.choices[0];
      var text :=
        if ch.content.Some? && ch.content.value != ""
        then [Plain(TextDelta).(text := ch.content, finish := ch.finish)] else [];
      FlatMapConcat(Tells, text, ToolEvents(ch.tools, ch.finish));
      ToolEventsTell(ch.tools, ch.finish);
      if text != [] {
        FlatMapOne(Tells, text[0]);
      }
    }
  }

  /**
   * An event of a chunk without error: it bears the chunk's finish reason, and a tool-call event starts
   * a call exactly if it has an id or a name.
   */
  predicate OfChunk(ev: StreamEvent, e: Envelope) {
    && ev.finish == FinishOf(e) && ev.usage.None? && ev.error.None?
    && (ev.text.Some? <==> ev.kind == TextDelta) && (ev.text.Some? <==> ev.tool.None?)
    && (ev.tool.Some? ==>
          ev.kind == if ev.tool.value.id == "" && ev.tool.value.name == "" then ToolCallDelta else ToolCallStart)
  }

  lemma {:induction false} ToolEventsOfChunk(tcs: seq<ToolDelta>, e: Envelope)
    requires e.error.None?
    ensures forall ev :: ev in ToolEvents(tcs, FinishOf(e)) ==> OfChunk(ev, e)
  {
    if tcs != [] {
      ToolEventsOfChunk(tcs[1..], e);
    }
  }

  lemma ChunkEvents(e: Envelope)
    requires e.error.None?
    ensures forall ev :: ev in ParseChunk(e).0 ==> OfChunk(ev, e)
  {
    if e.choices != [] {
      ToolEventsOfChunk(e.choices[0].tools, e);
    }
  }

  /** No event that ends the stream or reports usage; an error says what it is. */
  predicate Endless(evs: seq<StreamEvent>) {
    forall i :: 0 <= i < |evs| ==>
      evs[i].kind != StreamEnd && evs[i].kind != UsageReport && (evs[i].kind == ErrorKind ==> evs[i].error.Some?)
  }

  lemma ChunkEndless(e: Envelope)
    ensures Endless(ParseChunk(e).0)
    ensures SawError(ParseChunk(e).0) <==> e.error.Some?
  {
    var evs := ParseChunk(e).0;
    SawErrorMeans(evs);
    if e.error.None? {
      ChunkEvents(e);
      forall i | 0 <= i < |evs| ensures OfChunk(evs[i], e) { assert evs[i] in evs; }
    } else {
      assert evs[0].kind == ErrorKind;
    }
  }

  // ---- all chunks -------------------------------------------------------------------------------------

  function AbsorbAll(p: Progress, es: seq<Envelope>): Progress
    decreases |es|
  {
    if es == [] then p else AbsorbAll(Absorb(p, es[0]), es[1..])
  }

  /** The last non-empty finish reason, else `finish`. */
  function LastFinishOf(es: seq<Envelope>, finish: string): string {
    if es == [] then finish
    else LastFinishOf(es[1..], if FinishOf(es[0]) != "" then FinishOf(es[0]) else finish)
  }

  /** The last usage that is not null, else `usage`. */
  function LastUsageOf(es: seq<Envelope>, usage: Option<Usage>): Option<Usage> {
    if es == [] then usage
    else LastUsageOf(es[1..], if UsageOf(es[0]).Some? then UsageOf(es[0]) else usage)
  }

  predicate ReportsError(es: seq<Envelope>) { exists i :: 0 <= i < |es| && es[i].error.Some? }

  lemma {:induction false} SawErrorConcat(a: seq<StreamEvent>, b: seq<StreamEvent>)
    ensures SawError(a + b) <==> SawError(a) || SawError(b)
  {
    if b == [] {
      assert a + b == a;
    } else {
      var init := b[..|b| - 1];
      assert (a + b)[..|a + b| - 1] == a + init;
      SawErrorConcat(a, init);
    }
  }

  /** Every chunk is told, and the last values are kept. */
  lemma {:induction false} AbsorbedTells(p: Progress, es: seq<Envelope>)
    requires Endless(p.out)
    ensures var q := AbsorbAll(p, es);
            && Told(q.out) == Told(p.out) + Said(es) && Endless(q.out)
            && q.finish == LastFinishOf(es, p.finish) && q.usage == LastUsageOf(es, p.usage)
            && (SawError(q.out) <==> SawError(p.out) || ReportsError(es))
    decreases |es|
  {
    if es != [] {
      var e, rest := es[0], es[1..];
      var events := ParseChunk(e).0;
      ChunkEndless(e);
      SawErrorConcat(p.out, events);
      FlatMapConcat(Tells, p.out, events);
      ChunkTells(e);
      AbsorbedTells(Absorb(p, e), rest);
      FirstReports(es);
    }
  }

  lemma FirstReports(es: seq<Envelope>)
    requires es != []
    ensures ReportsError(es) <==> es[0].error.Some? || ReportsError(es[1..])
  {
    if i :| 0 <= i < |es[1..]| && es[1..][i].error.Some? {
      assert es[i + 1].error.Some?;
    }
    if i :| 0 < i < |es| && es[i].error.Some? {
      assert es[1..][i - 1].error.Some?;
    }
  }

  // ---- where the reader stops ------------------------------------------------------------------------------

  /** The chunks that are read: before [DONE], before one that does not decode, while the context lives. */
  function Envelopes(decode: string -> Option<Json>, lines: seq<string>, live: nat): seq<Envelope>
    decreases |lines|
  {
    if AtEnd(decode, lines, live) then []
    else
      match PayloadOf(lines[0])
      case None => Envelopes(decode, lines[1..], live - 1)
      case Some(data) => [Chunk(decode, data).value] + Envelopes(decode, lines[1..], live - 1)
  }

  /** The reader goes on behind this line: it has no payload, or one that is a chunk. */
  predicate ReadsOn(decode: string -> Option<Json>, line: string) {
    PayloadOf(line).Some? ==> PayloadOf(line).value != "[DONE]" && Chunk(decode, PayloadOf(line).value).Some?
  }

  /** Nothing is read any more: the lines, the context or what can be read is at an end. */
  predicate AtEnd(decode: string -> Option<Json>, lines: seq<string>, live: nat) {
    lines == [] || live == 0 || !ReadsOn(decode, lines[0])
  }

  predicate PassesTo(decode: string -> Option<Json>, lines: seq<string>, n: int)
    requires 0 <= n <= |lines|
  {
    forall i :: 0 <= i < n ==> ReadsOn(decode, lines[i])
  }

  /** The context ends before all lines are read. */
  predicate CutOff(decode: string -> Option<Json>, lines: seq<string>, live: nat) {
    live < |lines| && PassesTo(decode, lines, live)
  }

  /**
   * The reader breaks off at line `n`, which may be the end of the lines: with the context alive it
   * finds a payload that is no chunk, or knows of a read error when it stops.
   */
  predicate BreaksAt(decode: string -> Option<Json>, lines: seq<string>, end: BodyEnd, live: nat, n: int) {
    && 0 <= n <= |lines| && n < live && PassesTo(decode, lines, n)
    && if n == |lines| then end.ReadError?
       else
         match PayloadOf(lines[n])
         case None => false
         case Some(data) =>
           if data == "[DONE]" then end.ReadError? && end.early && n + 1 < live else Chunk(decode, data).None?
  }

  lemma OneBreak(decode: string -> Option<Json>, lines: seq<string>, end: BodyEnd, live: nat, n: int, k: int)
    requires BreaksAt(decode, lines, end, live, n) && BreaksAt(decode, lines, end, live, k)
    ensures n == k
  {
  }

  /** What it reports then. */
  function BreakError(
      decode: string -> Option<Json>, lines: seq<string>, end: BodyEnd, live: nat, n: int): ProviderError
    requires BreaksAt(decode, lines, end, live, n)
  {
    var badChunk := n < |lines| && PayloadOf(lines[n]).value != "[DONE]";
    ProviderError(if badChunk then BAD_CHUNK else end.message, "provider_error", "malformed_sse", Null, 502)
  }

  ghost predicate Breaks(decode: string -> Option<Json>, lines: seq<string>, end: BodyEnd, live: nat) {
    exists n :: BreaksAt(decode, lines, end, live, n)
  }

  /** Everything the reader emits: what the chunks it reads give, and then one of three ends. */
  ghost predicate ThreeEnds(decode: string -> Option<Json>, p: Progress, lines: seq<string>, end: BodyEnd, live: nat) {
    var q, evs := AbsorbAll(p, Envelopes(decode, lines, live)), Emit(decode, p, lines, end, live);
    && (CutOff(decode, lines, live) ==> evs == q.out)
    && (forall n :: BreaksAt(decode, lines, end, live, n) ==>
          evs == q.out + [ErrorEvent(BreakError(decode, lines, end, live, n))])
    && (!CutOff(decode, lines, live) && !Breaks(decode, lines, end, live) ==> evs == Conclude(q))
  }

  /** What is said of a line the reader goes on behind is said of the next. */
  lemma NextLine(decode: string -> Option<Json>, lines: seq<string>, end: BodyEnd, live: nat, n: int)
    requires !AtEnd(decode, lines, live)
    ensures CutOff(decode, lines, live) <==> CutOff(decode, lines[1..], live - 1)
    ensures BreaksAt(decode, lines, end, live, n) <==> BreaksAt(decode, lines[1..], end, live - 1, n - 1)
    ensures BreaksAt(decode, lines, end, live, n) ==>
              BreakError(decode, lines, end, live, n) == BreakError(decode, lines[1..], end, live - 1, n - 1)
  {
    var rest := lines[1..];
    assert forall i :: 0 <= i < |rest| ==> rest[i] == lines[i + 1];
    assert forall i :: 0 < i < |lines| ==> lines[i] == rest[i - 1];
  }

  lemma {:induction false} OneLineFurther(
      decode: string -> Option<Json>, p: Progress, q: Progress, lines: seq<string>, end: BodyEnd, live: nat)
    requires !AtEnd(decode, lines, live)
    requires q == if PayloadOf(lines[0]).None? then p else Absorb(p, Chunk(decode, PayloadOf(lines[0]).value).value)
    requires ThreeEnds(decode, q, lines[1..], end, live - 1)
    ensures ThreeEnds(decode, p, lines, end, live)
  {
    var rest := lines[1..];
    assert Emit(decode, p, lines, end, live) == Emit(decode, q, rest, end, live - 1);
    assert AbsorbAll(p, Envelopes(decode, lines, live)) == AbsorbAll(q, Envelopes(decode, rest, live - 1));
    forall n { NextLine(decode, lines, end, live, n); }
    if Breaks(decode, rest, end, live - 1) {
      var n :| BreaksAt(decode, rest, end, live - 1, n);
      NextLine(decode, lines, end, live, n + 1);
    }
  }

  lemma {:induction false} LastLine(
      decode: string -> Option<Json>, p: Progress, lines: seq<string>, end: BodyEnd, live: nat)
    requires AtEnd(decode, lines, live)
    ensures ThreeEnds(decode, p, lines, end, live)
  {
    assert PassesTo(decode, lines, 0);
    if Emit(decode, p, lines, end, live) != Conclude(p) && !CutOff(decode, lines, live) {
      assert BreaksAt(decode, lines, end, live, 0);
    }
  }

  lemma {:induction false} EveryStreamHasThreeEnds(
      decode: string -> Option<Json>, p: Progress, lines: seq<string>, end: BodyEnd, live: nat)
    ensures ThreeEnds(decode, p, lines, end, live)
    decreases |lines|
  {
    if AtEnd(decode, lines, live) {
      LastLine(decode, p, lines, end, live);
    } else {
      var q := if PayloadOf(lines[0]).None? then p else Absorb(p, Chunk(decode, PayloadOf(lines[0]).value).value);
      EveryStreamHasThreeEnds(decode, q, lines[1..], end, live - 1);
      OneLineFurther(decode, p, q, lines, end, live);
    }
  }

  // ---- what upstream said reaches the client ---------------------------------------------------------------

  /** What the first event and then the chunks that are read say. */
  function SaidByUpstream(decode: string -> Option<Json>, lines: seq<string>, live: nat): seq<Utterance> {
    [Opening("assistant", "")] + Said(Envelopes(decode, lines, live))
  }

  lemma {:induction false} BegunAbsorbs(es: seq<Envelope>)
    ensures var q := AbsorbAll(BEGUN, es);
            && Told(q.out) == [Opening("assistant", "")] + Said(es) && Endless(q.out)
            && q.finish == LastFinishOf(es, "") && q.usage == LastUsageOf(es, None)
            && (SawError(q.out) <==> ReportsError(es))
  {
    FlatMapOne(Tells, StreamEvent(StreamStart, None, None, None, "", None));
    AbsorbedTells(BEGUN, es);
  }

  lemma ConcludeTells(p: Progress)
    ensures Told(Conclude(p)) == Told(p.out)
    ensures SawError(Conclude(p)) <==> SawError(p.out)
  {
    var report := if p.usage.Some? then [Plain(UsageReport).(usage := p.usage)] else [];
    var end := Plain(StreamEnd).(finish := if p.finish == "" then "stop" else p.finish, usage := p.usage);
    OneMoreTold(p.out + report, end);
    FlatMapConcat(Tells, p.out, report);
    SawErrorConcat(p.out + report, [end]);
    SawErrorConcat(p.out, report);
    if report != [] {
      FlatMapOne(Tells, report[0]);
    }
  }

  lemma ErrorEventTells(evs: seq<StreamEvent>, e: ProviderError)
    ensures Told(evs + [ErrorEvent(e)]) == Told(evs) + [Problem(e)]
    ensures SawError(evs + [ErrorEvent(e)])
  {
    OneMoreTold(evs, ErrorEvent(e));
  }

  /**
   * Whatever comes from upstream, the plugin's events tell what the chunks it read said, errors
   * included, in order, and after that the error it breaks off with, if it does.
   */
  lemma {:induction false} PluginTellsWhatItRead(
      decode: string -> Option<Json>, lines: seq<string>, end: BodyEnd, live: nat)
    ensures var told := Told(Emit(decode, BEGUN, lines, end, live));
            var said := SaidByUpstream(decode, lines, live);
            && (forall n :: BreaksAt(decode, lines, end, live, n) ==>
                  told == said + [Problem(BreakError(decode, lines, end, live, n))])
            && (!Breaks(decode, lines, end, live) ==> told == said)
  {
    var q := AbsorbAll(BEGUN, Envelopes(decode, lines, live));
    BegunAbsorbs(Envelopes(decode, lines, live));
    EveryStreamHasThreeEnds(decode, BEGUN, lines, end, live);
    ConcludeTells(q);
    forall n | BreaksAt(decode, lines, end, live, n)
      ensures Told(Emit(decode, BEGUN, lines, end, live))
              == Told(q.out) + [Problem(BreakError(decode, lines, end, live, n))]
    {
      ErrorEventTells(q.out, BreakError(decode, lines, end, live, n));
    }
  }

  /** Line `n` is read and its chunk reports an error. */
  predicate ErrorAt(decode: string -> Option<Json>, lines: seq<string>, live: nat, n: int) {
    && 0 <= n < |lines| && n < live && PassesTo(decode, lines, n + 1)
    && PayloadOf(lines[n]).Some? && Chunk(decode, PayloadOf(lines[n]).value).value.error.Some?
  }

  ghost predicate Reports(decode: string -> Option<Json>, lines: seq<string>, live: nat) {
    exists n :: ErrorAt(decode, lines, live, n)
  }

  predicate FirstIsError(decode: string -> Option<Json>, lines: seq<string>)
    requires lines != [] && ReadsOn(decode, lines[0])
  {
    PayloadOf(lines[0]).Some? && Chunk(decode, PayloadOf(lines[0]).value).value.error.Some?
  }

  lemma NextLineReports(decode: string -> Option<Json>, lines: seq<string>, live: nat, n: int)
    requires !AtEnd(decode, lines, live)
    ensures n > 0 ==> (ErrorAt(decode, lines, live, n) <==> ErrorAt(decode, lines[1..], live - 1, n - 1))
    ensures ErrorAt(decode, lines, live, 0) <==> FirstIsError(decode, lines)
  {
    var rest := lines[1..];
    assert forall i :: 0 <= i < |rest| ==> rest[i] == lines[i + 1];
    assert forall i :: 0 < i < |lines| ==> lines[i] == rest[i - 1];
  }

  lemma {:induction false} ReportsStep(decode: string -> Option<Json>, lines: seq<string>, live: nat)
    requires !AtEnd(decode, lines, live)
    ensures Reports(decode, lines, live) <==> FirstIsError(decode, lines) || Reports(decode, lines[1..], live - 1)
  {
    var fewer: nat := live - 1;
    NextLineReports(decode, lines, live, 0);
    if Reports(decode, lines, live) {
      var n :| ErrorAt(decode, lines, live, n);
      NextLineReports(decode, lines, live, n);
    }
    if Reports(decode, lines[1..], fewer) {
      var n :| ErrorAt(decode, lines[1..], fewer, n);
      NextLineReports(decode, lines, live, n + 1);
      assert ErrorAt(decode, lines, live, n + 1);
    }
  }

  lemma {:induction false} EnvelopesStep(decode: string -> Option<Json>, lines: seq<string>, live: nat)
    requires !AtEnd(decode, lines, live)
    ensures ReportsError(Envelopes(decode, lines, live))
            <==> FirstIsError(decode, lines) || ReportsError(Envelopes(decode, lines[1..], live - 1))
  {
    var es := Envelopes(decode, lines, live);
    if PayloadOf(lines[0]).Some? {
      FirstReports(es);
      assert es[1..] == Envelopes(decode, lines[1..], live - 1);
    }
  }

  lemma {:induction false} NothingReports(decode: string -> Option<Json>, lines: seq<string>, live: nat)
    requires AtEnd(decode, lines, live)
    ensures !Reports(decode, lines, live)
  {
  }

  lemma {:induction false} ReportsMeans(decode: string -> Option<Json>, lines: seq<string>, live: nat)
    ensures ReportsError(Envelopes(decode, lines, live)) <==> Reports(decode, lines, live)
    decreases |lines|
  {
    if AtEnd(decode, lines, live) {
      NothingReports(decode, lines, live);
    } else {
      ReportsStep(decode, lines, live);
      EnvelopesStep(decode, lines, live);
      ReportsMeans(decode, lines[1..], live - 1);
    }
  }

  /** The plugin emits an error exactly if a chunk it reads reports one or it breaks off. */
  lemma {:induction false} SawErrorIff(decode: string -> Option<Json>, lines: seq<string>, end: BodyEnd, live: nat)
    ensures SawError(Emit(decode, BEGUN, lines, end, live))
            <==> Reports(decode, lines, live) || Breaks(decode, lines, end, live)
  {
    var es := Envelopes(decode, lines, live);
    var q := AbsorbAll(BEGUN, es);
    BegunAbsorbs(es);
    ReportsMeans(decode, lines, live);
    EveryStreamHasThreeEnds(decode, BEGUN, lines, end, live);
    ConcludeTells(q);
    if n :| BreaksAt(decode, lines, end, live, n) {
      ErrorEventTells(q.out, BreakError(decode, lines, end, live, n));
    }
  }

  // ---- how the plugin's events end -------------------------------------------------------------------------

  /** A beginning without an end leaves neither finish reason of an end nor usage. */
  lemma {:induction false} EndlessHasNoUsage(evs: seq<StreamEvent>)
    requires Endless(evs)
    ensures LastUsage(evs) == None
  {
    if evs != [] {
      var init := evs[..|evs| - 1];
      assert forall i :: 0 <= i < |init| ==> init[i] == evs[i];
      EndlessHasNoUsage(init);
    }
  }

  lemma {:induction false} OneMoreEvent(evs: seq<StreamEvent>, ev: StreamEvent)
    ensures LastFinish(evs + [ev]) == if ev.finish != "" then ev.finish else LastFinish(evs)
    ensures LastUsage(evs + [ev])
            == if ev.kind == UsageReport || (ev.kind == StreamEnd && ev.usage.Some?) then ev.usage else LastUsage(evs)
  {
    assert (evs + [ev])[..|evs|] == evs;
  }

  lemma {:induction false} ConcludeEnds(p: Progress)
    requires Endless(p.out)
    ensures var evs, finish := Conclude(p), FinishOr(p.finish);
            && evs != [] && Last(evs) == StreamEvent(StreamEnd, None, None, p.usage, finish, None)
            && (forall i :: 0 <= i < |evs| - 1 ==> evs[i].kind != StreamEnd)
            && (forall i :: 0 <= i < |evs| ==> evs[i].kind == ErrorKind ==> evs[i].error.Some?)
            && LastFinish(evs) == finish && LastUsage(evs) == p.usage
  {
    var end := StreamEvent(StreamEnd, None, None, p.usage, FinishOr(p.finish), None);
    EndlessHasNoUsage(p.out);
    if p.usage.Some? {
      var report := Plain(UsageReport).(usage := p.usage);
      assert Conclude(p) == (p.out + [report]) + [end];
      OneMoreEvent(p.out, report);
      OneMoreEvent(p.out + [report], end);
    } else {
      assert Conclude(p) == p.out + [end] by { assert p.out + [] == p.out; }
      OneMoreEvent(p.out, end);
    }
  }

  function Last(evs: seq<StreamEvent>): StreamEvent
    requires evs != []
  {
    evs[|evs| - 1]
  }

  /**
   * The events end with a stream_end exactly if the reader neither breaks off nor is cut off; it is the only one and
   * carries the last finish reason, else "stop", and the last usage of the chunks that were read.
   */
  lemma {:induction false} PluginEndsLikeUpstream(
      decode: string -> Option<Json>, lines: seq<string>, end: BodyEnd, live: nat)
    ensures var evs, es := Emit(decode, BEGUN, lines, end, live), Envelopes(decode, lines, live);
            var finish, usage := FinishOr(LastFinishOf(es, "")), LastUsageOf(es, None);
            && evs != [] && (forall i :: 0 <= i < |evs| - 1 ==> evs[i].kind != StreamEnd)
            && (forall i :: 0 <= i < |evs| ==> evs[i].kind == ErrorKind ==> evs[i].error.Some?)
            && (Last(evs).kind == StreamEnd <==> !CutOff(decode, lines, live) && !Breaks(decode, lines, end, live))
            && (Last(evs).kind == StreamEnd ==>
                  && Last(evs) == StreamEvent(StreamEnd, None, None, usage, finish, None)
                  && LastFinish(evs) == finish && LastUsage(evs) == usage)
            && (CutOff(decode, lines, live) ==> Endless(evs))
  {
    var es := Envelopes(decode, lines, live);
    var q := AbsorbAll(BEGUN, es);
    BegunAbsorbs(es);
    EveryStreamHasThreeEnds(decode, BEGUN, lines, end, live);
    ConcludeEnds(q);
    FirstStays(BEGUN, es);
    if n :| BreaksAt(decode, lines, end, live, n) {
      assert Emit(decode, BEGUN, lines, end, live) == q.out + [ErrorEvent(BreakError(decode, lines, end, live, n))];
    }
  }

  lemma {:induction false} FirstStays(p: Progress, es: seq<Envelope>)
    ensures p.out <= AbsorbAll(p, es).out
    decreases |es|
  {
    if es != [] {
      FirstStays(Absorb(p, es[0]), es[1..]);
    }
  }

  /** No chunk reports an error, the reader does not break off, and the context lives to the end. */
  ghost predicate ErrorFree(decode: string -> Option<Json>, lines: seq<string>, end: BodyEnd, live: nat) {
    !Reports(decode, lines, live) && !Breaks(decode, lines, end, live) && !CutOff(decode, lines, live)
  }

  /** How a stream ends whose upstream finished with `finish` and counted `usage`. */
  function Ended(finish: string, usage: Option<Usage>): seq<Utterance> {
    [Finished(if finish == "" then "stop" else finish)]
    + if usage.None? then []
      else
        var u := usage.value;
        [Counted(u.inputTokens, u.outputTokens, Wrap64(u.inputTokens + u.outputTokens))]
  }

  lemma EndsOnce(evs: seq<StreamEvent>)
    requires evs != [] && Last(evs).kind == StreamEnd && !SawError(evs)
    requires forall i :: 0 <= i < |evs| - 1 ==> evs[i].kind != StreamEnd
    ensures EndsAtTerminal(evs) && HasTerminal(evs)
  {
    SawErrorMeans(evs);
    assert Terminal(evs[|evs| - 1]);
  }

  /**
   * For an error-free upstream the client hears in the end upstream's last finish reason, else "stop", and upstream's
   * last usage if there was any; the same goes on record.
   */
  lemma {:induction false} LastValuesConserved(
      decode: string -> Option<Json>, lines: seq<string>, end: BodyEnd, live: nat)
    requires ErrorFree(decode, lines, end, live)
    ensures var evs, es := Emit(decode, BEGUN, lines, end, live), Envelopes(decode, lines, live);
            var finish, usage := LastFinishOf(es, ""), LastUsageOf(es, None);
            && EndsAtTerminal(evs) && HasTerminal(evs) && !SawError(evs)
            && Ending(evs) == Ended(finish, usage)
            && Success(evs) == Record(200, "ok", if finish == "" then "stop" else finish,
                                      if usage.Some? then usage.value.inputTokens else 0,
                                      if usage.Some? then usage.value.outputTokens else 0, "", "", "")
  {
    var evs := Emit(decode, BEGUN, lines, end, live);
    PluginEndsLikeUpstream(decode, lines, end, live);
    SawErrorIff(decode, lines, end, live);
    EndsOnce(evs);
  }

  // ---- reassembly ---------------------------------------------------------------------------------

  function TextIn(us: seq<Utterance>): string { FlatMap((u: Utterance) => if u.Text? then u.text else "", us) }

  function FragmentOf(u: Utterance): seq<ToolDelta> { if u.Fragment? then [u.delta] else [] }

  function FragmentsIn(us: seq<Utterance>): seq<ToolDelta> { FlatMap(FragmentOf, us) }

  /** A tool call as its reader assembles it: last non-empty id and name, arguments joined. */
  datatype Call = Call(id: string, name: string, arguments: string)

  function Assemble(ds: seq<ToolDelta>, index: Int64): Call {
    if ds == [] then Call("", "", "")
    else
      var sofar, d := Assemble(ds[..|ds| - 1], index), ds[|ds| - 1];
      if d.index != index then sofar
      else Call(if d.id != "" then d.id else sofar.id,
                if d.name != "" then d.name else sofar.name,
                sofar.arguments + d.arguments)
  }

  /** Two fragments that differ only in their types. */
  predicate SameButType(a: ToolDelta, b: ToolDelta) { a.(typ := "") == b.(typ := "") }

  lemma {:induction false} TypesDoNotMatter(a: seq<ToolDelta>, b: seq<ToolDelta>, index: Int64)
    requires |a| == |b| && forall i :: 0 <= i < |a| ==> SameButType(a[i], b[i])
    ensures Assemble(a, index) == Assemble(b, index)
  {
    if a != [] {
      TypesDoNotMatter(a[..|a| - 1], b[..|b| - 1], index);
      assert SameButType(a[|a| - 1], b[|b| - 1]);
    }
  }

  /** Being sent costs no text, and no more of a fragment than an empty type. */
  lemma {:induction false} SentKeepsTextAndFragments(us: seq<Utterance>)
    ensures TextIn(AllAsSent(us)) == TextIn(us)
    ensures var a, b := FragmentsIn(AllAsSent(us)), FragmentsIn(us);
            |a| == |b| && forall i :: 0 <= i < |a| ==> a[i] == Typed(b[i])
  {
    if us != [] {
      SentKeepsTextAndFragments(us[1..]);
      assert AllAsSent(us)[0] == AsSent(us[0]) && AllAsSent(us)[1..] == AllAsSent(us[1..]);
    }
  }

  lemma TextAndFragmentsOf(a: seq<Utterance>, b: seq<Utterance>)
    requires forall i :: 0 <= i < |b| ==> !b[i].Text? && !b[i].Fragment?
    ensures TextIn(a + b) == TextIn(a) && FragmentsIn(a + b) == FragmentsIn(a)
  {
    FlatMapConcat((u: Utterance) => if u.Text? then u.text else "", a, b);
    FlatMapConcat(FragmentOf, a, b);
    NeitherTextNorFragment(b);
  }

  lemma {:induction false} NeitherTextNorFragment(b: seq<Utterance>)
    requires forall i :: 0 <= i < |b| ==> !b[i].Text? && !b[i].Fragment?
    ensures TextIn(b) == "" && FragmentsIn(b) == []
  {
    if b != [] {
      NeitherTextNorFragment(b[1..]);
    }
  }

  /** Sending, and how the stream ends, cost no text and no call. */
  lemma SentWithEnding(said: seq<Utterance>, rest: seq<Utterance>, index: Int64)
    requires forall i :: 0 <= i < |rest| ==> !rest[i].Text? && !rest[i].Fragment?
    ensures var heard := AllAsSent(said) + rest;
            TextIn(heard) == TextIn(said) && Assemble(FragmentsIn(heard), index) == Assemble(FragmentsIn(said), index)
  {
    TextAndFragmentsOf(AllAsSent(said), rest);
    SentKeepsTextAndFragments(said);
    TypesDoNotMatter(FragmentsIn(AllAsSent(said)), FragmentsIn(said), index);
  }

  /** What the client hears behind what the chunks say. */
  ghost predicate HeardLast(
      decode: string -> Option<Json>, lines: seq<string>, end: BodyEnd, live: nat, rest: seq<Utterance>)
  {
    var es := Envelopes(decode, lines, live);
    && (forall n :: BreaksAt(decode, lines, end, live, n) ==>
          rest == [Problem(BreakError(decode, lines, end, live, n).(httpStatus := 0))])
    && (ErrorFree(decode, lines, end, live) ==> rest == Ended(LastFinishOf(es, ""), LastUsageOf(es, None)))
    && forall i :: 0 <= i < |rest| ==> rest[i].Problem? || rest[i].Finished? || rest[i].Counted?
  }

  lemma {:induction false} HeardAfterBreak(
      m: Meta, decode: string -> Option<Json>, lines: seq<string>, end: BodyEnd, live: nat, n: int)
    requires BreaksAt(decode, lines, end, live, n)
    ensures Heard(Rendered(m, Emit(decode, BEGUN, lines, end, live)))
            == AllAsSent(SaidByUpstream(decode, lines, live))
               + [Problem(BreakError(decode, lines, end, live, n).(httpStatus := 0))]
  {
    var evs := Emit(decode, BEGUN, lines, end, live);
    var problem := Problem(BreakError(decode, lines, end, live, n));
    ClientHearsEvents(m, evs);
    PluginTellsWhatItRead(decode, lines, end, live);
    SawErrorIff(decode, lines, end, live);
    assert Ending(evs) == [];
    SentConcat(SaidByUpstream(decode, lines, live), [problem]);
    SentOne(problem);
  }

  lemma {:induction false} HeardWithoutBreak(
      m: Meta, decode: string -> Option<Json>, lines: seq<string>, end: BodyEnd, live: nat)
    requires !Breaks(decode, lines, end, live)
    ensures var evs, es := Emit(decode, BEGUN, lines, end, live), Envelopes(decode, lines, live);
            && Heard(Rendered(m, evs)) == AllAsSent(SaidByUpstream(decode, lines, live)) + Ending(evs)
            && (ErrorFree(decode, lines, end, live) ==>
                  Ending(evs) == Ended(LastFinishOf(es, ""), LastUsageOf(es, None)))
  {
    ClientHearsEvents(m, Emit(decode, BEGUN, lines, end, live));
    PluginTellsWhatItRead(decode, lines, end, live);
    if ErrorFree(decode, lines, end, live) {
      LastValuesConserved(decode, lines, end, live);
    }
  }

  lemma {:induction false} WhatIsHeard(
      m: Meta, decode: string -> Option<Json>, lines: seq<string>, end: BodyEnd, live: nat)
    returns (rest: seq<Utterance>)
    ensures Heard(Rendered(m, Emit(decode, BEGUN, lines, end, live)))
            == AllAsSent(SaidByUpstream(decode, lines, live)) + rest
    ensures HeardLast(decode, lines, end, live, rest)
  {
    if n :| BreaksAt(decode, lines, end, live, n) {
      rest := [Problem(BreakError(decode, lines, end, live, n).(httpStatus := 0))];
      forall k | BreaksAt(decode, lines, end, live, k) ensures k == n { OneBreak(decode, lines, end, live, n, k); }
      HeardAfterBreak(m, decode, lines, end, live, n);
    } else {
      HeardWithoutBreak(m, decode, lines, end, live);
      rest := Ending(Emit(decode, BEGUN, lines, end, live));
    }
  }

  /**
   * Whatever comes from upstream, the client hears everything the chunks that were read say, errors included, in
   * order, and then only the error the reader broke off with or how the stream ended. So text and assembled calls
   * are upstream's.
   */
  lemma {:induction false} TranslationPreservesMeaning(
      m: Meta, decode: string -> Option<Json>, lines: seq<string>, end: BodyEnd, live: nat, index: Int64)
    ensures var heard := Heard(Rendered(m, Emit(decode, BEGUN, lines, end, live)));
            var said := SaidByUpstream(decode, lines, live);
            && AllAsSent(said) <= heard && HeardLast(decode, lines, end, live, heard[|said|..])
            && TextIn(heard) == TextIn(said)
            && Assemble(FragmentsIn(heard), index) == Assemble(FragmentsIn(said), index)
  {
    var said := SaidByUpstream(decode, lines, live);
    var rest := WhatIsHeard(m, decode, lines, end, live);
    assert (AllAsSent(said) + rest)[|said|..] == rest;
    SentWithEnding(said, rest, index);
  }
}
