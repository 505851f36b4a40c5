/**
 * The OpenAI-compatible plugin's side of a stream: decoding upstream chunks and turning
 * the lines of the upstream body into stream events.
 */
module Upstream {
  import opened Wrappers
  import opened Json
  import opened Events

  datatype Choice = Choice(finish: string, content: Option<string>, tools: seq<ToolDelta>)

  /** The struct that one chat.completion.chunk decodes into. */
  datatype Envelope = Envelope(error: Option<string>, choices: seq<Choice>, usage: Option<Usage>)

  // ---- decoding --------------------------------------------------------------------------

  function DecodeTool(j: Json): Option<ToolDelta> {
    var f :- AsFields(j);
    var index :- AsInt(Field(f, "index"));
    var id :- AsString(Field(f, "id"));
    var typ :- AsString(Field(f, "type"));
    var fn :- AsFields(Field(f, "function"));
    var name :- AsString(Field(fn, "name"));
    var arguments :- AsString(Field(fn, "arguments"));
    Some(ToolDelta(index, id, typ, name, arguments))
  }

  function DecodeTools(js: seq<Json>): Option<seq<ToolDelta>> {
    if js == [] then Some([])
    else
      var head :- DecodeTool(js[0]);
      var tail :- DecodeTools(js[1..]);
      Some([head] + tail)
  }

  function DecodeChoice(j: Json): Option<Choice> {
    var f :- AsFields(j);
    var finish :- AsString(Field(f, "finish_reason"));
    var delta :- AsFields(Field(f, "delta"));
    var content :- AsStringPointer(Field(delta, "content"));
    var calls :- AsItems(Field(delta, "tool_calls"));
    var tools :- DecodeTools(calls);
    Some(Choice(finish, content, tools))
  }

  function DecodeChoices(js: seq<Json>): Option<seq<Choice>> {
    if js == [] then Some([])
    else
      var head :- DecodeChoice(js[0]);
      var tail :- DecodeChoices(js[1..]);
      Some([head] + tail)
  }

  function DecodeError(j: Json): Option<Option<string>> {
    if j.Null? then Some(None)
    else
      var f :- AsFields(j);
      var message :- AsString(Field(f, "message"));
      var _ :- AsString(Field(f, "type"));
      var _ :- AsString(Field(f, "code"));
      Some(Some(message))
  }

  function DecodeUsage(j: Json): Option<Option<Usage>> {
    if j.Null? then Some(None)
    else
      var f :- AsFields(j);
      var prompt :- AsInt(Field(f, "prompt_tokens"));
      var completion :- AsInt(Field(f, "completion_tokens"));
      Some(Some(Usage(prompt, completion)))
  }

  function DecodeChunk(j: Json): Option<Envelope> {
    var f :- AsFields(j);
    var error :- DecodeError(Field(f, "error"));
    var items :- AsItems(Field(f, "choices"));
    var choices :- DecodeChoices(items);
    var usage :- DecodeUsage(Field(f, "usage"));
    Some(Envelope(error, choices, usage))
  }

  // ---- what decodes --------------------------------------------------------------------------

  predicate StringOrNull(j: Json) { j.Str? || j.Null? }

  predicate ObjectOrNull(j: Json) { j.Obj? || j.Null? }

  /** A number that Go's int takes. */
  predicate IntOrNull(j: Json) {
    j.Null? || (j.Int? && -0x8000_0000_0000_0000 <= j.n <= 0x7fff_ffff_ffff_ffff)
  }

  predicate IsTool(j: Json) {
    && ObjectOrNull(j) && ObjectOrNull(Sub(j, "function"))
    && IntOrNull(Sub(j, "index")) && StringOrNull(Sub(j, "id")) && StringOrNull(Sub(j, "type"))
    && StringOrNull(Sub(Sub(j, "function"), "name")) && StringOrNull(Sub(Sub(j, "function"), "arguments"))
  }

  predicate IsChoice(j: Json) {
    var delta := Sub(j, "delta");
    var tools := Sub(delta, "tool_calls");
    && ObjectOrNull(j) && StringOrNull(Sub(j, "finish_reason"))
    && ObjectOrNull(delta) && StringOrNull(Sub(delta, "content"))
    && (tools.Null? || (tools.Arr? && forall x :: x in tools.items ==> IsTool(x)))
  }

  /** A well-formed chunk: every field that is read is missing, null or of its type, in every choice. */
  predicate IsChunk(j: Json) {
    var error, choices, usage := Sub(j, "error"), Sub(j, "choices"), Sub(j, "usage");
    && ObjectOrNull(j) && ObjectOrNull(error) && ObjectOrNull(usage)
    && StringOrNull(Sub(error, "message")) && StringOrNull(Sub(error, "type")) && StringOrNull(Sub(error, "code"))
    && (choices.Null? || (choices.Arr? && forall c :: c in choices.items ==> IsChoice(c)))
    && IntOrNull(Sub(usage, "prompt_tokens")) && IntOrNull(Sub(usage, "completion_tokens"))
  }

  lemma {:induction false} ToolsDecodeIff(js: seq<Json>)
    ensures DecodeTools(js).Some? <==> forall x :: x in js ==> IsTool(x)
  {
    if js != [] {
      assert DecodeTool(js[0]).Some? <==> IsTool(js[0]);
      ToolsDecodeIff(js[1..]);
      assert forall x :: x in js <==> x == js[0] || x in js[1..];
    }
  }

  lemma ChoiceDecodesIff(j: Json)
    ensures DecodeChoice(j).Some? <==> IsChoice(j)
  {
    var tools := Sub(Sub(j, "delta"), "tool_calls");
    ToolsDecodeIff(if tools.Arr? then tools.items else []);
  }

  lemma {:induction false} ChoicesDecodeIff(js: seq<Json>)
    ensures DecodeChoices(js).Some? <==> forall c :: c in js ==> IsChoice(c)
  {
    if js != [] {
      ChoiceDecodesIff(js[0]);
      ChoicesDecodeIff(js[1..]);
      assert forall x :: x in js <==> x == js[0] || x in js[1..];
    }
  }

  /** Which payloads are chunks at all; any other ends the stream with an error. */
  lemma ChunkDecodesIff(j: Json)
    ensures DecodeChunk(j).Some? <==> IsChunk(j)
  {
    var choices := Sub(j, "choices");
    ChoicesDecodeIff(if choices.Arr? then choices.items else []);
  }

  // ---- parseStreamChunk ---------------------------------------------------------------------

  function ToolEvent(tc: ToolDelta, finish: string): StreamEvent {
    Plain(if tc.id != "" || tc.name != "" then ToolCallStart else ToolCallDelta).(tool := Some(tc), finish := finish)
  }

  function ToolEvents(tcs: seq<ToolDelta>, finish: string): seq<StreamEvent> {
    if tcs == [] then [] else [ToolEvent(tcs[0], finish)] + ToolEvents(tcs[1..], finish)
  }

  /** The events, the finish reason and the usage of one chunk; only the first choice counts. */
  function ParseChunk(e: Envelope): (seq<StreamEvent>, string, Option<Usage>) {
    if e.error.Some? then ([ErrorEvent(NewProviderError(502, "provider_error", e.error.value))], "", None)
    else if e.choices == [] then ([], "", e.usage)
    else
      var ch := e.choices[0];
      var text :=
        if ch.content.Some? && ch.content.value != ""
        then [Plain(TextDelta).(text := ch.content, finish := ch.finish)] else [];
      (text + ToolEvents(ch.tools, ch.finish), ch.finish, e.usage)
  }

  // ---- the lines of the upstream body ---------------------------------------------------------

  const PREFIX: string := "data:"

  /** The white space that strings.TrimSpace removes. */
  predicate IsSpace(c: char) {
    '\t' <= c <= '\r' || c == ' ' || c == '\U{85}' || c == '\U{a0}' || c == '\U{1680}' ||
    '\U{2000}' <= c <= '\U{200a}' || c == '\U{2028}' || c == '\U{2029}' || c == '\U{202f}' ||
    c == '\U{205f}' || c == '\U{3000}'
  }

  function TrimLeft(s: string): string {
    if s != [] && IsSpace(s[0]) then TrimLeft(s[1..]) else s
  }

  function TrimRight(s: string): string {
    if s != [] && IsSpace(s[|s| - 1]) then TrimRight(s[..|s| - 1]) else s
  }

  function TrimSpace(s: string): string { TrimRight(TrimLeft(s)) }

  /** The payload of a line, if it is a data line with one. */
  function PayloadOf(line: string): Option<string> {
    if PREFIX <= line then
      var data := TrimSpace(line[|PREFIX|..]);
      if data == "" then None else Some(data)
    else None
  }

  const DONE_MARK: string := "[DONE]"

  // ---- the reader loop ----------------------------------------------------------------------------

  /**
   * How the scanner's input ends. A read error can be `early`: met by the very read that
   * brought the [DONE] line, so that the scanner knows of it although the loop stops there.
   */
  datatype BodyEnd = Eof | ReadError(message: string, early: bool)

  /** Where the reader stands between two lines. */
  datatype Progress = Progress(out: seq<StreamEvent>, finish: string, usage: Option<Usage>)

  const BEGUN: Progress := Progress([Plain(StreamStart)], "", None)

  function Absorb(p: Progress, e: Envelope): Progress {
    var (events, f, u) := ParseChunk(e);
    Progress(p.out + events, if f != "" then f else p.finish, if u.Some? then u else p.usage)
  }

  /** After the last line: usage, if any was seen, and the end of the stream. */
  function Conclude(p: Progress): seq<StreamEvent> {
    var finish := if p.finish == "" then "stop" else p.finish;
    p.out
    + (if p.usage.Some? then [Plain(UsageReport).(usage := p.usage)] else [])
    + [Plain(StreamEnd).(finish := finish, usage := p.usage)]
  }

  function Malformed(message: string): StreamEvent {
    ErrorEvent(NewProviderError(502, "malformed_sse", message))
  }

  /** The text the decoder complains with is not modelled. */
  const BAD_CHUNK: string := "malformed chunk"

  /**
   * Everything the reader emits for the remaining lines. `live` counts for how many more
   * looks at the context it is still alive.
   */
  function Emit(
      decode: string -> Option<Json>, p: Progress, lines: seq<string>, end: BodyEnd, live: nat): seq<StreamEvent>
    decreases |lines|
  {
    if lines == [] then
      if end.ReadError? && live > 0 then p.out + [Malformed(end.message)] else Conclude(p)
    else if live == 0 then p.out
    else
      match PayloadOf(lines[0])
      case None => Emit(decode, p, lines[1..], end, live - 1)
      case Some(data) =>
        if data == DONE_MARK then
          if end.ReadError? && end.early && live > 1 then p.out + [Malformed(end.message)] else Conclude(p)
        else
          match Chunk(decode, data)
          case None => p.out + [Malformed(BAD_CHUNK)]
          case Some(e) => Emit(decode, Absorb(p, e), lines[1..], end, live - 1)
  }

  function Chunk(decode: string -> Option<Json>, data: string): Option<Envelope> {
    var j :- decode(data);
    DecodeChunk(j)
  }

  /** The goroutine of Compat.Stream, given the lines of a successful response. */
  method Stream(decode: string -> Option<Json>, lines: seq<string>, end: BodyEnd, live: nat)
    returns (out: seq<StreamEvent>)
    ensures out == Emit(decode, BEGUN, lines, end, live)
  {
    out := [Plain(StreamStart)];
    var finish, usage := "", None;
    var n, done := 0, false;
    while n < |lines| && !done
      invariant 0 <= n <= |lines| && (!done ==> n <= live)
      invariant Emit(decode, BEGUN, lines, end, live)
                == if done then
                     if end.ReadError? && end.early && n < live then out + [Malformed(end.message)]
                     else Conclude(Progress(out, finish, usage))
                   else Emit(decode, Progress(out, finish, usage), lines[n..], end, live - n)
      decreases |lines| - n, if done then 0 else 1
    {
      if n >= live {
        return;
      }
      assert lines[n..][0] == lines[n] && lines[n..][1..] == lines[n + 1..];
      var payload := PayloadOf(lines[n]);
      n := n + 1;
      if payload.None? {
      } else if payload.value == DONE_MARK {
        done := true;
      } else {
        var e := Chunk(decode, payload.value);
        if e.None? {
          out := out + [Malformed(BAD_CHUNK)];
          return;
        }
        var (events, f, u) := ParseChunk(e.value);
        out := out + events;
        if f != "" {
          finish := f;
        }
        if u.Some? {
          usage := u;
        }
      }
    }
    if end.ReadError? && (end.early || !done) && n < live {
      out := out + [Malformed(end.message)];
      return;
    }
    if usage.Some? {
      out := out + [Plain(UsageReport).(usage := usage)];
    }
    if finish == "" {
      finish := "stop";
    }
    out := out + [Plain(StreamEnd).(finish := finish, usage := usage)];
  }
}
