/** The gateway's side of a stream: rendering events as chat.completion.chunk objects. */
module Render {
  import opened Wrappers
  import opened Json
  import opened Events

  /** What every chunk of one response repeats. */
  datatype Meta = Meta(id: string, model: string, created: Int64)

  /** One server-sent event. */
  datatype Sse = Data(payload: Json) | Done

  /** One call of Session.Finish. */
  datatype Record = Record(
    httpStatus: int,
    status: string,
    finish: string,
    inTok: Int64,
    outTok: Int64,
    errType: string,
    errCode: string,
    errMessage: string)

  // ---- building chunks -----------------------------------------------------------------------

  function ChunkJson(m: Meta, delta: Json, finish: Option<string>): Json {
    var choice := Obj(map[
      "index" := Int(0),
      "delta" := delta,
      "finish_reason" := if finish.Some? then Str(finish.value) else Null]);
    Obj(map[
      "id" := Str(m.id),
      "object" := Str("chat.completion.chunk"),
      "created" := Int(m.created),
      "model" := Str(m.model),
      "choices" := Arr([choice])])
  }

  function FinalChunk(m: Meta, finish: string): Json {
    ChunkJson(m, Obj(map[]), Some(finish))
  }

  function UsageJson(u: Usage): Json {
    Obj(map[
      "prompt_tokens" := Int(u.inputTokens),
      "completion_tokens" := Int(u.outputTokens),
      "total_tokens" := Int(Wrap64(u.inputTokens + u.outputTokens))])
  }

  function UsageChunk(m: Meta, u: Usage): Json {
    Obj(map[
      "id" := Str(m.id),
      "object" := Str("chat.completion.chunk"),
      "created" := Int(m.created),
      "model" := Str(m.model),
      "choices" := Arr([]),
      "usage" := UsageJson(u)])
  }

  /** toolCallDeltaJSON fills its maps key by key. */
  function FunctionJson(d: ToolDelta): Json {
    var named := if d.name != "" then map["name" := Str(d.name)] else map[];
    Obj(if d.arguments != "" then named["arguments" := Str(d.arguments)] else named)
  }

  function ToolJson(d: ToolDelta): Json {
    var item := map["index" := Int(d.index), "function" := FunctionJson(d)];
    var identified := if d.id != "" then item["id" := Str(d.id)] else item;
    Obj(identified["type" := Str(if d.typ != "" then d.typ else "function")])
  }

  function ErrorChunk(e: ProviderError): Json {
    Obj(map["error" := Obj(map[
      "message" := Str(e.message),
      "type" := Str(e.typ),
      "param" := e.param,
      "code" := Str(e.code)])])
  }

  function StartChunk(m: Meta): Json {
    ChunkJson(m, Obj(map["role" := Str("assistant"), "content" := Str("")]), None)
  }

  function TextChunk(m: Meta, text: string): Json {
    ChunkJson(m, Obj(map["content" := Str(text)]), None)
  }

  function ToolChunk(m: Meta, d: ToolDelta): Json {
    ChunkJson(m, Obj(map["tool_calls" := Arr([ToolJson(d)])]), None)
  }

  function FailureRecord(e: ProviderError): Record {
    Record(StatusOr(e, 502), "error", "stream_error", 0, 0, e.typ, e.code, e.message)
  }

  function StatusOr(e: ProviderError, fallback: int): int {
    if e.httpStatus != 0 then e.httpStatus else fallback
  }

  // ---- what one event adds ---------------------------------------------------------------------

  function FramesOf(m: Meta, ev: StreamEvent): seq<Json> {
    match ev.kind
    case StreamStart => [StartChunk(m)]
    case TextDelta =>
      if ev.text.Some? then [TextChunk(m, ev.text.value)] else []
    case ToolCallStart =>
      if ev.tool.Some? then [ToolChunk(m, ev.tool.value)] else []
    case ToolCallDelta =>
      if ev.tool.Some? then [ToolChunk(m, ev.tool.value)] else []
    case ErrorKind => if ev.error.Some? then [ErrorChunk(ev.error.value)] else []
    case _ => []
  }

  function RecordsOf(ev: StreamEvent): seq<Record> {
    if ev.kind == ErrorKind && ev.error.Some? then [FailureRecord(ev.error.value)] else []
  }

  function Body(m: Meta, evs: seq<StreamEvent>): seq<Json> {
    if evs == [] then [] else Body(m, evs[..|evs| - 1]) + FramesOf(m, evs[|evs| - 1])
  }

  function Failures(evs: seq<StreamEvent>): seq<Record> {
    if evs == [] then [] else Failures(evs[..|evs| - 1]) + RecordsOf(evs[|evs| - 1])
  }

  predicate SawError(evs: seq<StreamEvent>) {
    evs != [] && (SawError(evs[..|evs| - 1]) || evs[|evs| - 1].kind == ErrorKind)
  }

  /** The last finish reason that any event carried, "" if none did. */
  function LastFinish(evs: seq<StreamEvent>): string {
    if evs == [] then ""
    else if evs[|evs| - 1].finish != "" then evs[|evs| - 1].finish
    else LastFinish(evs[..|evs| - 1])
  }

  /** A usage event sets the usage even to nothing; the end of the stream only to something. */
  function LastUsage(evs: seq<StreamEvent>): Option<Usage> {
    if evs == [] then None
    else
      var last := evs[|evs| - 1];
      if last.kind == UsageReport || (last.kind == StreamEnd && last.usage.Some?) then last.usage
      else LastUsage(evs[..|evs| - 1])
  }

  function FinishOr(finish: string): string { if finish == "" then "stop" else finish }

  function AsData(js: seq<Json>): (out: seq<Sse>)
    ensures |out| == |js| && forall i :: 0 <= i < |js| ==> out[i] == Data(js[i])
  {
    if js == [] then [] else [Data(js[0])] + AsData(js[1..])
  }

  /** What a client that stays connected is sent for these events. */
  function Rendered(m: Meta, evs: seq<StreamEvent>): seq<Sse> {
    AsData(Body(m, evs)) + Tail(m, evs)
  }

  function Tail(m: Meta, evs: seq<StreamEvent>): seq<Sse> {
    if SawError(evs) then [Done]
    else
      [Data(FinalChunk(m, FinishOr(LastFinish(evs))))]
      + (if LastUsage(evs).Some? then [Data(UsageChunk(m, LastUsage(evs).value))] else [])
      + [Done]
  }

  function Success(evs: seq<StreamEvent>): Record {
    var u := if LastUsage(evs).Some? then LastUsage(evs).value else Usage(0, 0);
    Record(200, "ok", FinishOr(LastFinish(evs)), u.inputTokens, u.outputTokens, "", "", "")
  }

  /** What the switch of the consumer loop writes and records for one event. */
  method Write(m: Meta, ev: StreamEvent) returns (out: seq<Sse>, records: seq<Record>)
    ensures out == AsData(FramesOf(m, ev)) && records == RecordsOf(ev)
  {
    out, records := [], [];
    AsDataOfAtMostOne(FramesOf(m, ev));
    match ev.kind {
      case StreamStart =>
        out := [Data(StartChunk(m))];
      case TextDelta =>
        if ev.text.Some? {
          out := [Data(TextChunk(m, ev.text.value))];
        }
      case ToolCallStart =>
        if ev.tool.Some? {
          out := [Data(ToolChunk(m, ev.tool.value))];
        }
      case ToolCallDelta =>
        if ev.tool.Some? {
          out := [Data(ToolChunk(m, ev.tool.value))];
        }
      case ErrorKind =>
        if ev.error.Some? {
          out := [Data(ErrorChunk(ev.error.value))];
          records := [FailureRecord(ev.error.value)];
        }
      case _ =>
    }
  }

  /** The consumer loop of handleStream over everything it receives. */
  method Consume(m: Meta, events: seq<StreamEvent>)
    returns (out: seq<Sse>, records: seq<Record>, finish: string, usage: Option<Usage>, streamErr: bool)
    ensures out == AsData(Body(m, events)) && records == Failures(events)
    ensures finish == LastFinish(events) && usage == LastUsage(events) && (streamErr <==> SawError(events))
  {
    out, records := [], [];
    finish, usage, streamErr := "", None, false;
    for n := 0 to |events|
      invariant out == AsData(Body(m, events[..n]))
      invariant records == Failures(events[..n])
      invariant streamErr <==> SawError(events[..n])
      invariant finish == LastFinish(events[..n]) && usage == LastUsage(events[..n])
    {
      var ev := events[n];
      OneMore(m, events, n);
      var written, told := Write(m, ev);
      out, records := out + written, records + told;
      match ev.kind {
        case UsageReport =>
          usage := ev.usage;
        case ErrorKind =>
          streamErr := true;
        case StreamEnd =>
          if ev.finish != "" {
            finish := ev.finish;
          }
          if ev.usage.Some? {
            usage := ev.usage;
          }
        case _ =>
      }
      if ev.finish != "" {
        finish := ev.finish;
      }
    }
    assert events[..|events|] == events;
  }

  /** handleStream, once the stream has started: the loop and what follows it. */
  method HandleStream(m: Meta, events: seq<StreamEvent>, disconnected: bool)
    returns (out: seq<Sse>, records: seq<Record>)
    ensures out == if disconnected then AsData(Body(m, events)) else Rendered(m, events)
    ensures records == Failures(events)
                       + if disconnected then
                           [Record(499, "canceled", "client_disconnect", 0, 0,
                                   "canceled", "canceled", "client disconnected")]
                         else if SawError(events) then [] else [Success(events)]
  {
    var finish, usage, streamErr;
    out, records, finish, usage, streamErr := Consume(m, events);
    if disconnected {
      var left := Record(499, "canceled", "client_disconnect", 0, 0, "canceled", "canceled", "client disconnected");
      records := records + [left];
      return;
    }
    if streamErr {
      out := out + [Done];
      return;
    }
    if finish == "" {
      finish := "stop";
    }
    var inTok, outTok: Int64 := 0, 0;
    var tail := [Data(FinalChunk(m, finish))];
    if usage.Some? {
      tail := tail + [Data(UsageChunk(m, usage.value))];
      inTok, outTok := usage.value.inputTokens, usage.value.outputTokens;
    }
    out := out + (tail + [Done]);
    records := records + [Record(200, "ok", finish, inTok, outTok, "", "", "")];
  }

  /** What the specification functions make of one more event. */
  lemma {:induction false} OneMore(m: Meta, evs: seq<StreamEvent>, n: nat)
    requires n < |evs|
    ensures var sofar, more, ev := evs[..n], evs[..n + 1], evs[n];
            && AsData(Body(m, more)) == AsData(Body(m, sofar)) + AsData(FramesOf(m, ev))
            && (SawError(more) <==> SawError(sofar) || ev.kind == ErrorKind)
            && Failures(more) == Failures(sofar) + RecordsOf(ev)
            && LastFinish(more) == (if ev.finish != "" then ev.finish else LastFinish(sofar))
            && LastUsage(more) == if ev.kind == UsageReport || (ev.kind == StreamEnd && ev.usage.Some?)
                                  then ev.usage else LastUsage(sofar)
  {
    assert evs[..n + 1][..n] == evs[..n];
    AsDataConcat(Body(m, evs[..n]), FramesOf(m, evs[n]));
  }

  lemma {:induction false} AsDataOfAtMostOne(js: seq<Json>)
    requires |js| <= 1
    ensures AsData(js) == if js == [] then [] else [Data(js[0])]
  {
  }

  lemma {:induction false} AsDataConcat(a: seq<Json>, b: seq<Json>)
    ensures AsData(a + b) == AsData(a) + AsData(b)
  {
  }

  lemma {:induction false} SawErrorMeans(evs: seq<StreamEvent>)
    ensures SawError(evs) <==> exists i :: 0 <= i < |evs| && evs[i].kind == ErrorKind
  {
    if evs != [] {
      var init := evs[..|evs| - 1];
      SawErrorMeans(init);
      if SawError(init) {
        var i :| 0 <= i < |init| && init[i].kind == ErrorKind;
        assert evs[i].kind == ErrorKind;
      }
      if i :| 0 <= i < |evs| - 1 && evs[i].kind == ErrorKind {
        assert init[i].kind == ErrorKind;
      }
    }
  }

  /** The last event that bears a finish reason decides it. */
  predicate DecidesFinish(evs: seq<StreamEvent>, i: int) {
    0 <= i < |evs| && evs[i].finish != "" && forall k :: i < k < |evs| ==> evs[k].finish == ""
  }

  /** The last usage report, or end with a usage, decides the usage. */
  predicate DecidesUsage(evs: seq<StreamEvent>, i: int) {
    && 0 <= i < |evs| && BearsUsage(evs[i]) && forall k :: i < k < |evs| ==> !BearsUsage(evs[k])
  }

  predicate BearsUsage(ev: StreamEvent) { ev.kind == UsageReport || (ev.kind == StreamEnd && ev.usage.Some?) }

  lemma {:induction false} LastFinishMeans(evs: seq<StreamEvent>, i: int)
    ensures DecidesFinish(evs, i) ==> LastFinish(evs) == evs[i].finish
    ensures (forall k :: 0 <= k < |evs| ==> evs[k].finish == "") ==> LastFinish(evs) == ""
  {
    if evs != [] {
      LastFinishMeans(evs[..|evs| - 1], i);
    }
  }

  lemma {:induction false} LastUsageMeans(evs: seq<StreamEvent>, i: int)
    ensures DecidesUsage(evs, i) ==> LastUsage(evs) == evs[i].usage
    ensures (forall k :: 0 <= k < |evs| ==> !BearsUsage(evs[k])) ==> LastUsage(evs) == None
  {
    if evs != [] {
      LastUsageMeans(evs[..|evs| - 1], i);
    }
  }

  // ---- the shape of every stream -------------------------------------------------------------------

  /** A chunk whose choice carries a finish reason. */
  predicate IsFinal(j: Json) {
    && j.Obj? && Field(j.fields, "choices").Arr? && Field(j.fields, "choices").items != []
    && Field(j.fields, "choices").items[0].Obj?
    && Field(Field(j.fields, "choices").items[0].fields, "finish_reason").Str?
  }

  predicate IsUsage(j: Json) { j.Obj? && "usage" in j.fields }

  predicate IsError(j: Json) { j.Obj? && "error" in j.fields }

  lemma {:induction false} BodyIsPlain(m: Meta, evs: seq<StreamEvent>, j: Json)
    requires j in Body(m, evs)
    ensures !IsFinal(j) && !IsUsage(j)
    ensures IsError(j) ==> SawError(evs)
  {
    var last := |evs| - 1;
    if j in Body(m, evs[..last]) {
      BodyIsPlain(m, evs[..last], j);
    } else {
      assert j in FramesOf(m, evs[last]);
    }
  }

  /** How many payloads satisfy a test. */
  function Count(out: seq<Sse>, test: Json -> bool): nat {
    if out == [] then 0
    else (if out[0].Data? && test(out[0].payload) then 1 else 0) + Count(out[1..], test)
  }

  lemma {:induction false} CountConcat(a: seq<Sse>, b: seq<Sse>, test: Json -> bool)
    ensures Count(a + b, test) == Count(a, test) + Count(b, test)
  {
    if a == [] {
      assert a + b == b;
    } else {
      assert (a + b)[1..] == a[1..] + b;
      CountConcat(a[1..], b, test);
    }
  }

  lemma {:induction false} CountNone(out: seq<Sse>, test: Json -> bool)
    requires forall i :: 0 <= i < |out| && out[i].Data? ==> !test(out[i].payload)
    ensures Count(out, test) == 0
  {
    if out != [] {
      CountNone(out[1..], test);
    }
  }

  /**
   * [DONE] is written exactly once and last. Without an error event exactly one final chunk
   * precedes it, followed by a usage chunk if and only if usage was collected; with an error
   * event there is neither.
   */
  lemma {:induction false} StreamShape(m: Meta, evs: seq<StreamEvent>)
    ensures var out := Rendered(m, evs);
            && |out| > 0 && (forall i :: 0 <= i < |out| ==> (out[i] == Done <==> i == |out| - 1))
            && Count(out, j => IsFinal(j)) == (if SawError(evs) then 0 else 1)
            && Count(out, j => IsUsage(j)) == (if SawError(evs) || LastUsage(evs).None? then 0 else 1)
            && (!SawError(evs) ==>
                  var k := if LastUsage(evs).Some? then 3 else 2;
                  && |out| >= k && out[|out| - k] == Data(FinalChunk(m, FinishOr(LastFinish(evs))))
                  && (k == 3 ==> out[|out| - 2] == Data(UsageChunk(m, LastUsage(evs).value))))
  {
    var body, tail := AsData(Body(m, evs)), Tail(m, evs);
    forall i | 0 <= i < |body| ensures !IsFinal(body[i].payload) && !IsUsage(body[i].payload) {
      BodyIsPlain(m, evs, Body(m, evs)[i]);
    }
    CountNone(body, j => IsFinal(j));
    CountNone(body, j => IsUsage(j));
    CountConcat(body, tail, j => IsFinal(j));
    CountConcat(body, tail, j => IsUsage(j));
    TailCounts(m, evs);
  }

  lemma {:induction false} TailCounts(m: Meta, evs: seq<StreamEvent>)
    ensures Count(Tail(m, evs), j => IsFinal(j)) == if SawError(evs) then 0 else 1
    ensures Count(Tail(m, evs), j => IsUsage(j)) == if SawError(evs) || LastUsage(evs).None? then 0 else 1
  {
    CountOne(Done, j => IsFinal(j));
    CountOne(Done, j => IsUsage(j));
    if !SawError(evs) {
      var final := Data(FinalChunk(m, FinishOr(LastFinish(evs))));
      CountOne(final, j => IsFinal(j));
      CountOne(final, j => IsUsage(j));
      if LastUsage(evs).Some? {
        var usage := Data(UsageChunk(m, LastUsage(evs).value));
        CountOne(usage, j => IsFinal(j));
        CountOne(usage, j => IsUsage(j));
        CountConcat([final], [usage], j => IsFinal(j));
        CountConcat([final], [usage], j => IsUsage(j));
        CountConcat([final] + [usage], [Done], j => IsFinal(j));
        CountConcat([final] + [usage], [Done], j => IsUsage(j));
      } else {
        assert [final] + [] + [Done] == [final] + [Done];
        CountConcat([final], [Done], j => IsFinal(j));
        CountConcat([final], [Done], j => IsUsage(j));
      }
    }
  }

  lemma CountOne(x: Sse, test: Json -> bool)
    ensures Count([x], test) == if x.Data? && test(x.payload) then 1 else 0
  {
  }

  // ---- what every chunk carries ------------------------------------------------------------------

  /**
   * A chunk of this response: id, object, creation time and model are the response's, and there is at
   * most one choice, number 0.
   */
  predicate Carries(m: Meta, j: Json) {
    && Sub(j, "id") == Str(m.id) && Sub(j, "object") == Str("chat.completion.chunk")
    && Sub(j, "created") == Int(m.created) && Sub(j, "model") == Str(m.model)
    && Sub(j, "choices").Arr? && |Sub(j, "choices").items| <= 1
    && forall c :: c in Sub(j, "choices").items ==> Sub(c, "index") == Int(0)
  }

  lemma ChunkCarries(m: Meta, delta: Json, finish: Option<string>)
    ensures Carries(m, ChunkJson(m, delta, finish))
  {
  }

  lemma FrameCarries(m: Meta, ev: StreamEvent, j: Json)
    requires j in FramesOf(m, ev)
    ensures Carries(m, j) || (ev.error.Some? && j == ErrorChunk(ev.error.value))
  {
    ChunkCarries(m, Obj(map["role" := Str("assistant"), "content" := Str("")]), None);
    if ev.text.Some? {
      ChunkCarries(m, Obj(map["content" := Str(ev.text.value)]), None);
    }
    if ev.tool.Some? {
      ChunkCarries(m, Obj(map["tool_calls" := Arr([ToolJson(ev.tool.value)])]), None);
    }
  }

  lemma {:induction false} BodyCarries(m: Meta, evs: seq<StreamEvent>, j: Json)
    requires j in Body(m, evs)
    ensures Carries(m, j) || exists i :: 0 <= i < |evs| && evs[i].error.Some? && j == ErrorChunk(evs[i].error.value)
  {
    var last := |evs| - 1;
    if j in Body(m, evs[..last]) {
      BodyCarries(m, evs[..last], j);
      if i :| 0 <= i < last && evs[..last][i].error.Some? && j == ErrorChunk(evs[..last][i].error.value) {
        assert evs[i].error.Some?;
      }
    } else {
      FrameCarries(m, evs[last], j);
    }
  }

  lemma TailCarries(m: Meta, evs: seq<StreamEvent>, x: Sse)
    requires x in Tail(m, evs) && x.Data?
    ensures Carries(m, x.payload)
  {
    ChunkCarries(m, Obj(map[]), Some(FinishOr(LastFinish(evs))));
  }

  /** Every payload is a chunk of this response or the report of an error event. */
  lemma EveryPayloadIsOurs(m: Meta, evs: seq<StreamEvent>, x: Sse)
    requires x in Rendered(m, evs) && x.Data?
    ensures Carries(m, x.payload)
            || exists i :: 0 <= i < |evs| && evs[i].error.Some? && x.payload == ErrorChunk(evs[i].error.value)
  {
    if x in AsData(Body(m, evs)) {
      var i :| 0 <= i < |Body(m, evs)| && AsData(Body(m, evs))[i] == x;
      BodyCarries(m, evs, Body(m, evs)[i]);
    } else {
      TailCarries(m, evs, x);
    }
  }
}
