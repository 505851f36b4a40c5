/**
 * What a stream says, one thing after the other: its openings, its text, its tool-call fragments,
 * its errors and how it ends; once as the events tell it, and once as a client hears it that reads
 * the fields of the chunks it is sent.
 */
module Utterances {
  import opened Wrappers
  import opened Json
  import opened Events
  import opened Render

  datatype Utterance =
    | Opening(role: string, content: string)
    | Text(text: string)
    | Fragment(delta: ToolDelta)
    | Problem(error: ProviderError)
    | Finished(reason: string)
    | Counted(prompt: int, completion: int, total: int)

  function Fragments(ds: seq<ToolDelta>): (us: seq<Utterance>)
    ensures |us| == |ds| && forall i :: 0 <= i < |ds| ==> us[i] == Fragment(ds[i])
  {
    Map(d => Fragment(d), ds)
  }

  /** One event, as the plugin means it. */
  function Tells(ev: StreamEvent): seq<Utterance> {
    match ev.kind
    case StreamStart => [Opening("assistant", "")]
    case TextDelta => if ev.text.Some? then [Text(ev.text.value)] else []
    case ToolCallStart => if ev.tool.Some? then [Fragment(ev.tool.value)] else []
    case ToolCallDelta => if ev.tool.Some? then [Fragment(ev.tool.value)] else []
    case ErrorKind => if ev.error.Some? then [Problem(ev.error.value)] else []
    case _ => []
  }

  function Told(evs: seq<StreamEvent>): seq<Utterance> { FlatMap(Tells, evs) }

  /** A fragment without a type is sent with the type "function". */
  function Typed(d: ToolDelta): ToolDelta { if d.typ == "" then d.(typ := "function") else d }

  /** What of it is written; the status of an error is not. */
  function AsSent(u: Utterance): Utterance {
    match u
    case Fragment(d) => Fragment(Typed(d))
    case Problem(e) => Problem(e.(httpStatus := 0))
    case _ => u
  }

  function AllAsSent(us: seq<Utterance>): (r: seq<Utterance>)
    ensures |r| == |us| && forall i :: 0 <= i < |us| ==> r[i] == AsSent(us[i])
  {
    Map(AsSent, us)
  }

  /** How a stream ends for a client that is still there. */
  function Ending(evs: seq<StreamEvent>): seq<Utterance> {
    if SawError(evs) then []
    else
      [Finished(FinishOr(LastFinish(evs)))]
      + match LastUsage(evs)
        case None => []
        case Some(u) => [Counted(u.inputTokens, u.outputTokens, Wrap64(u.inputTokens + u.outputTokens))]
  }

  // ---- what a client reads -----------------------------------------------------------------------

  function TextOf(j: Json): string { if j.Str? then j.s else "" }

  function NumberOf(j: Json): int { if j.Int? then j.n else 0 }

  function HearsTool(j: Json): Utterance {
    var index: Int64 := if AsInt(Sub(j, "index")).Some? then AsInt(Sub(j, "index")).value else 0;
    var fn := Sub(j, "function");
    Fragment(ToolDelta(
               index, TextOf(Sub(j, "id")), TextOf(Sub(j, "type")),
               TextOf(Sub(fn, "name")), TextOf(Sub(fn, "arguments"))))
  }

  function HearsTools(js: seq<Json>): seq<Utterance> { FlatMap(j => [HearsTool(j)], js) }

  /** A delta with a role opens the answer; its other content is text. */
  function HearsDelta(delta: Json): seq<Utterance> {
    var role, content, tools := Sub(delta, "role"), Sub(delta, "content"), Sub(delta, "tool_calls");
    (if role.Str? then [Opening(role.s, TextOf(content))] else if content.Str? then [Text(content.s)] else [])
    + (if tools.Arr? then HearsTools(tools.items) else [])
  }

  function HearsChoice(choice: Json): seq<Utterance> {
    var finish := Sub(choice, "finish_reason");
    HearsDelta(Sub(choice, "delta")) + if finish.Str? then [Finished(finish.s)] else []
  }

  function HearsPayload(j: Json): seq<Utterance> {
    var error, choices, usage := Sub(j, "error"), Sub(j, "choices"), Sub(j, "usage");
    if error != Null then
      [Problem(ProviderError(
                 TextOf(Sub(error, "message")), TextOf(Sub(error, "type")), TextOf(Sub(error, "code")),
                 Sub(error, "param"), 0))]
    else
      (if choices.Arr? && choices.items != [] then HearsChoice(choices.items[0]) else [])
      + if usage == Null then []
        else
          [Counted(NumberOf(Sub(usage, "prompt_tokens")), NumberOf(Sub(usage, "completion_tokens")),
                   NumberOf(Sub(usage, "total_tokens")))]
  }

  function Hears(x: Sse): seq<Utterance> { if x.Data? then HearsPayload(x.payload) else [] }

  function Heard(out: seq<Sse>): seq<Utterance> { FlatMap(Hears, out) }

  // ---- sequences -----------------------------------------------------------------------------------

  lemma SentConcat(a: seq<Utterance>, b: seq<Utterance>)
    ensures AllAsSent(a + b) == AllAsSent(a) + AllAsSent(b)
  {
  }

  lemma SentOne(u: Utterance)
    ensures AllAsSent([u]) == [AsSent(u)] && AllAsSent([]) == []
  {
  }
}
