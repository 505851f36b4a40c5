/**
 * A client hears exactly what the events tell, and a plugin that reads the chunks as its own upstream
 * understands them, too.
 */
module Meaning {
  import opened Wrappers
  import opened Json
  import opened Events
  import opened Upstream
  import opened Render
  import opened Utterances

  // ---- the gateway's chunks say what the events tell -------------------------------------------

  lemma ChunkHeard(m: Meta, delta: Json, finish: Option<string>)
    ensures HearsPayload(ChunkJson(m, delta, finish))
            == HearsDelta(delta) + if finish.Some? then [Finished(finish.value)] else []
  {
    var j := ChunkJson(m, delta, finish);
    var choice := Sub(j, "choices").items[0];
    assert Sub(choice, "delta") == delta && Sub(j, "usage") == Null && Sub(j, "error") == Null;
    assert HearsPayload(j) == HearsChoice(choice) + [];
  }

  lemma ToolHeard(d: ToolDelta)
    ensures HearsTools([ToolJson(d)]) == [Fragment(Typed(d))]
  {
    var j := ToolJson(d);
    assert TextOf(Sub(j, "id")) == d.id && Sub(j, "index") == Int(d.index) && Sub(j, "function") == FunctionJson(d);
    assert HearsTool(j) == Fragment(Typed(d));
    FlatMapOne(x => [HearsTool(x)], j);
  }

  /** The keys a fragment is sent with: an empty id is left out. */
  predicate ToolHasKey(d: ToolDelta, key: string) {
    key in {"index", "function", "type"} || (key == "id" && d.id != "")
  }

  predicate FunctionHasKey(d: ToolDelta, key: string) {
    (key == "name" && d.name != "") || (key == "arguments" && d.arguments != "")
  }

  /** Of a fragment, an empty id, name or argument is left out. */
  lemma FragmentKeys(d: ToolDelta, key: string)
    ensures ToolJson(d).Obj? && Sub(ToolJson(d), "function").Obj?
    ensures key in ToolJson(d).fields <==> ToolHasKey(d, key)
    ensures key in Sub(ToolJson(d), "function").fields <==> FunctionHasKey(d, key)
  {
    assert Sub(ToolJson(d), "function") == FunctionJson(d);
  }

  lemma StartHeard(m: Meta)
    ensures HearsPayload(StartChunk(m)) == [Opening("assistant", "")]
  {
    ChunkHeard(m, Sub(Sub(StartChunk(m), "choices").items[0], "delta"), None);
  }

  lemma TextHeard(m: Meta, text: string)
    ensures HearsPayload(TextChunk(m, text)) == [Text(text)]
  {
    ChunkHeard(m, Obj(map["content" := Str(text)]), None);
  }

  lemma ToolChunkHeard(m: Meta, d: ToolDelta)
    ensures HearsPayload(ToolChunk(m, d)) == [Fragment(Typed(d))]
  {
    ChunkHeard(m, Obj(map["tool_calls" := Arr([ToolJson(d)])]), None);
    ToolHeard(d);
  }

  lemma ErrorHeard(e: ProviderError)
    ensures HearsPayload(ErrorChunk(e)) == [Problem(e.(httpStatus := 0))]
  {
  }

  lemma FinalHeard(m: Meta, finish: string)
    ensures HearsPayload(FinalChunk(m, finish)) == [Finished(finish)]
  {
    ChunkHeard(m, Obj(map[]), Some(finish));
  }

  lemma UsageHeard(m: Meta, u: Usage)
    ensures HearsPayload(UsageChunk(m, u))
            == [Counted(u.inputTokens, u.outputTokens, Wrap64(u.inputTokens + u.outputTokens))]
  {
  }

  lemma FrameMeaning(m: Meta, ev: StreamEvent)
    ensures Heard(AsData(FramesOf(m, ev))) == AllAsSent(Tells(ev))
  {
    var frames := FramesOf(m, ev);
    AsDataOfAtMostOne(frames);
    if frames == [] {
      assert Tells(ev) == [];
    } else {
      FlatMapOne(Hears, Data(frames[0]));
      SentOne(Tells(ev)[0]);
      match ev.kind
      case StreamStart => StartHeard(m);
      case TextDelta => TextHeard(m, ev.text.value);
      case ToolCallStart => ToolChunkHeard(m, ev.tool.value);
      case ToolCallDelta => ToolChunkHeard(m, ev.tool.value);
      case ErrorKind => ErrorHeard(ev.error.value);
    }
  }

  lemma WrittenIfTold(m: Meta, ev: StreamEvent)
    ensures FramesOf(m, ev) == [] <==> Tells(ev) == []
  {
  }

  lemma {:induction false} OneMoreTold(evs: seq<StreamEvent>, ev: StreamEvent)
    ensures Told(evs + [ev]) == Told(evs) + Tells(ev)
  {
    FlatMapConcat(Tells, evs, [ev]);
    FlatMapOne(Tells, ev);
  }

  lemma {:induction false} OneMoreHeard(m: Meta, evs: seq<StreamEvent>, ev: StreamEvent)
    ensures Heard(AsData(Body(m, evs + [ev]))) == Heard(AsData(Body(m, evs))) + AllAsSent(Tells(ev))
  {
    assert (evs + [ev])[..|evs|] == evs;
    AsDataConcat(Body(m, evs), FramesOf(m, ev));
    FlatMapConcat(Hears, AsData(Body(m, evs)), AsData(FramesOf(m, ev)));
    FrameMeaning(m, ev);
  }

  predicate HeardAsTold(m: Meta, evs: seq<StreamEvent>) { Heard(AsData(Body(m, evs))) == AllAsSent(Told(evs)) }

  lemma {:induction false} NothingHeard(m: Meta)
    ensures HeardAsTold(m, [])
  {
  }

  lemma {:induction false} OneMoreHeardAsTold(m: Meta, evs: seq<StreamEvent>, ev: StreamEvent)
    requires HeardAsTold(m, evs)
    ensures HeardAsTold(m, evs + [ev])
  {
    OneMoreHeard(m, evs, ev);
    OneMoreTold(evs, ev);
    SentConcat(Told(evs), Tells(ev));
  }

  lemma {:induction false} HeardUpTo(m: Meta, evs: seq<StreamEvent>, n: nat)
    requires n <= |evs|
    ensures HeardAsTold(m, evs[..n])
  {
    if n == 0 {
      NothingHeard(m);
      assert evs[..0] == [];
    } else {
      HeardUpTo(m, evs, n - 1);
      OneMoreHeardAsTold(m, evs[..n - 1], evs[n - 1]);
      assert evs[..n] == evs[..n - 1] + [evs[n - 1]];
    }
  }

  lemma {:induction false} BodyMeaning(m: Meta, evs: seq<StreamEvent>)
    ensures Heard(AsData(Body(m, evs))) == AllAsSent(Told(evs))
  {
    HeardUpTo(m, evs, |evs|);
    assert evs[..|evs|] == evs;
  }

  lemma TailMeaning(m: Meta, evs: seq<StreamEvent>)
    ensures Heard(Tail(m, evs)) == Ending(evs)
  {
    FlatMapOne(Hears, Done);
    if !SawError(evs) {
      var finish := FinishOr(LastFinish(evs));
      var final := Data(FinalChunk(m, finish));
      FinalHeard(m, finish);
      FlatMapOne(Hears, final);
      if LastUsage(evs).Some? {
        var usage := Data(UsageChunk(m, LastUsage(evs).value));
        UsageHeard(m, LastUsage(evs).value);
        FlatMapOne(Hears, usage);
        FlatMapConcat(Hears, [final], [usage]);
        FlatMapConcat(Hears, [final] + [usage], [Done]);
      } else {
        assert [final] + [] + [Done] == [final] + [Done];
        FlatMapConcat(Hears, [final], [Done]);
      }
    }
  }

  /**
   * Whatever the events are, the client hears what they tell, in order, with one opening for each
   * stream_start, and then how the stream ended; a client that left heard what was told till then.
   */
  lemma {:induction false} ClientHearsEvents(m: Meta, evs: seq<StreamEvent>)
    ensures Heard(Rendered(m, evs)) == AllAsSent(Told(evs)) + Ending(evs)
    ensures Heard(AsData(Body(m, evs))) == AllAsSent(Told(evs))
  {
    BodyMeaning(m, evs);
    TailMeaning(m, evs);
    FlatMapConcat(Hears, AsData(Body(m, evs)), Tail(m, evs));
  }

  /** The total in the usage chunk is the sum, exactly when the sum is a Go int. */
  lemma TotalIsSum(m: Meta, u: Usage)
    ensures HearsPayload(UsageChunk(m, u)) == [Counted(u.inputTokens, u.outputTokens, u.inputTokens + u.outputTokens)]
            <==> -0x8000_0000_0000_0000 <= u.inputTokens + u.outputTokens < 0x8000_0000_0000_0000
  {
    UsageHeard(m, u);
  }

  // ---- what goes on record -------------------------------------------------------------------------

  function ProblemOf(u: Utterance): seq<ProviderError> { if u.Problem? then [u.error] else [] }

  function ProblemsIn(us: seq<Utterance>): seq<ProviderError> { FlatMap(ProblemOf, us) }

  /** A failure on record: the error with its own status, or else 502. */
  function Recorded(e: ProviderError): Record {
    Record(if e.httpStatus == 0 then 502 else e.httpStatus, "error", "stream_error", 0, 0, e.typ, e.code, e.message)
  }

  /** Every error that is told goes on record as a failure, and nothing else does. */
  lemma {:induction false} ProblemsOnRecord(evs: seq<StreamEvent>)
    ensures var problems, records := ProblemsIn(Told(evs)), Failures(evs);
            |records| == |problems| && forall i :: 0 <= i < |problems| ==> records[i] == Recorded(problems[i])
  {
    if evs != [] {
      var init, last := evs[..|evs| - 1], evs[|evs| - 1];
      assert evs == init + [last];
      ProblemsOnRecord(init);
      OneMoreTold(init, last);
      FlatMapConcat(ProblemOf, Told(init), Tells(last));
      ProblemsOfOne(last);
    }
  }

  lemma ProblemsOfOne(ev: StreamEvent)
    ensures ProblemsIn(Tells(ev)) == if ev.kind == ErrorKind && ev.error.Some? then [ev.error.value] else []
  {
    if Tells(ev) != [] {
      FlatMapOne(ProblemOf, Tells(ev)[0]);
    }
  }

  // ---- the gateway as upstream of another ----------------------------------------------------------

  /** One chunk, as the plugin that reads it understands it; an error says nothing else. */
  function Says(e: Envelope): seq<Utterance> {
    if e.error.Some? then
      [Problem(ProviderError(e.error.value, "provider_error", "provider_error", Null, 502))]
    else if e.choices == [] then []
    else
      var content := e.choices[0].content;
      (if content.Some? && content.value != "" then [Text(content.value)] else []) + Fragments(e.choices[0].tools)
  }

  function Said(es: seq<Envelope>): seq<Utterance> { FlatMap(Says, es) }

  /** What a plugin keeps of what a client hears. */
  function Kept(u: Utterance): seq<Utterance> {
    match u
    case Text(t) => if t == "" then [] else [u]
    case Fragment(_) => [u]
    case Problem(e) => [Problem(ProviderError(e.message, "provider_error", "provider_error", Null, 502))]
    case _ => []
  }

  function Relayed(us: seq<Utterance>): seq<Utterance> { FlatMap(Kept, us) }

  lemma ChunkDecodes(m: Meta, delta: Fields, content: Option<string>, tools: seq<ToolDelta>, finish: Option<string>)
    requires AsStringPointer(Field(delta, "content")) == Some(content)
    requires AsItems(Field(delta, "tool_calls")).Some?
    requires DecodeTools(AsItems(Field(delta, "tool_calls")).value) == Some(tools)
    ensures DecodeChunk(ChunkJson(m, Obj(delta), finish))
            == Some(Envelope(None, [Choice(if finish.Some? then finish.value else "", content, tools)], None))
  {
    var j := ChunkJson(m, Obj(delta), finish);
    var items := j.fields["choices"].items;
    var choice := Choice(if finish.Some? then finish.value else "", content, tools);
    assert DecodeChoice(items[0]) == Some(choice);
    assert items[1..] == [];
    assert DecodeChoices(items[1..]) == Some([]) && [choice] + [] == [choice];
    assert DecodeChoices(items) == Some([choice]);
  }

  lemma UsageDecodes(m: Meta, u: Usage)
    ensures DecodeChunk(UsageChunk(m, u)) == Some(Envelope(None, [], Some(u)))
  {
  }

  lemma ToolDecodes(d: ToolDelta)
    ensures DecodeTools([ToolJson(d)]) == Some([Typed(d)])
  {
    var fn := FunctionJson(d).fields;
    assert AsString(Field(fn, "name")) == Some(d.name) && AsString(Field(fn, "arguments")) == Some(d.arguments);
    var f := ToolJson(d).fields;
    assert AsString(Field(f, "id")) == Some(d.id);
    assert DecodeTool(ToolJson(d)) == Some(Typed(d));
    assert [ToolJson(d)][1..] == [] && DecodeTools([]) == Some([]);
    assert [Typed(d)] + [] == [Typed(d)];
  }

  lemma ErrorDecodes(e: ProviderError)
    ensures DecodeChunk(ErrorChunk(e)) == Some(Envelope(Some(e.message), [], None))
  {
  }

  /** A payload decodes, and says to the plugin what it says to a client, as far as the plugin keeps it. */
  predicate Relays(j: Json) {
    DecodeChunk(j).Some? && Says(DecodeChunk(j).value) == Relayed(HearsPayload(j))
  }

  lemma StartRelays(m: Meta)
    ensures Relays(StartChunk(m))
  {
    StartHeard(m);
    FlatMapOne(Kept, Opening("assistant", ""));
    ChunkDecodes(m, Sub(Sub(StartChunk(m), "choices").items[0], "delta").fields, Some(""), [], None);
  }

  lemma TextRelays(m: Meta, text: string)
    ensures Relays(TextChunk(m, text))
  {
    TextHeard(m, text);
    FlatMapOne(Kept, Text(text));
    ChunkDecodes(m, map["content" := Str(text)], Some(text), [], None);
  }

  lemma ToolRelays(m: Meta, d: ToolDelta)
    ensures Relays(ToolChunk(m, d))
  {
    ToolChunkHeard(m, d);
    FlatMapOne(Kept, Fragment(Typed(d)));
    ToolDecodes(d);
    ChunkDecodes(m, map["tool_calls" := Arr([ToolJson(d)])], None, [Typed(d)], None);
    assert Fragments([Typed(d)]) == [Fragment(Typed(d))];
  }

  lemma ErrorRelays(e: ProviderError)
    ensures Relays(ErrorChunk(e))
  {
    ErrorHeard(e);
    FlatMapOne(Kept, Problem(e.(httpStatus := 0)));
    ErrorDecodes(e);
  }

  lemma FinalRelays(m: Meta, finish: string)
    ensures Relays(FinalChunk(m, finish))
  {
    FinalHeard(m, finish);
    FlatMapOne(Kept, Finished(finish));
    ChunkDecodes(m, map[], None, [], Some(finish));
  }

  lemma UsageRelays(m: Meta, u: Usage)
    ensures Relays(UsageChunk(m, u))
  {
    UsageHeard(m, u);
    UsageDecodes(m, u);
    FlatMapOne(Kept, HearsPayload(UsageChunk(m, u))[0]);
  }

  lemma FrameRelays(m: Meta, ev: StreamEvent, j: Json)
    requires j in FramesOf(m, ev)
    ensures Relays(j)
  {
    match ev.kind
    case StreamStart => StartRelays(m);
    case TextDelta => TextRelays(m, ev.text.value);
    case ToolCallStart => ToolRelays(m, ev.tool.value);
    case ToolCallDelta => ToolRelays(m, ev.tool.value);
    case ErrorKind => ErrorRelays(ev.error.value);
  }
}
