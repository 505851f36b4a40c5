/** Building the upstream request body and patching it for a reasoning level. */
module RequestBody {
  import opened Wrappers
  import opened Json
  import opened Overlay
  import opened ToolCodec

  datatype Message = Message(role: string, content: Json, name: string, toolCallId: string, toolCalls: seq<Json>)

  datatype Request = Request(
    model: string,
    messages: seq<Message>,
    tools: seq<Tool>,
    toolChoice: Option<Json>,
    temperature: Option<Json>,
    maxTokens: Option<Int64>,
    level: string)

  /** The two ways in which building fails, or the body. */
  datatype Built = Unsupported(level: string) | InvalidMapEntry | Body(fields: Fields)

  const PROTECTED: set<string> := {"model", "messages", "tools", "stream"}

  function MessageJson(m: Message): Json {
    Obj(With(With(With(map["role" := Str(m.role), "content" := m.content],
                       "name", NonEmpty(m.name)),
                  "tool_call_id", NonEmpty(m.toolCallId)),
             "tool_calls", if m.toolCalls == [] then None else Some(Arr(m.toolCalls))))
  }

  function MessagesJson(ms: seq<Message>): (js: seq<Json>)
    ensures |js| == |ms| && forall i :: 0 <= i < |ms| ==> js[i] == MessageJson(ms[i])
  {
    if ms == [] then [] else MessagesJson(ms[..|ms| - 1]) + [MessageJson(ms[|ms| - 1])]
  }

  function ToolsJson(ts: seq<Tool>): (js: seq<Json>)
    ensures |js| == |ts| && forall i :: 0 <= i < |ts| ==> js[i] == Obj(Upstream(ts[i]))
  {
    if ts == [] then [] else ToolsJson(ts[..|ts| - 1]) + [Obj(Upstream(ts[|ts| - 1]))]
  }

  function IntJson(n: Option<Int64>): Option<Json> { if n.Some? then Some(Int(n.value)) else None }

  /** The body before any patch. */
  function Unpatched(req: Request, stream: bool): Fields {
    var start := map[
      "model" := Str(req.model), "messages" := Arr(MessagesJson(req.messages)), "stream" := Bool(stream)];
    var opts := if stream then Some(Obj(map["include_usage" := Bool(true)])) else None;
    WithTools(With(With(With(start, "stream_options", opts),
                        "temperature", req.temperature),
                   "max_tokens", IntJson(req.maxTokens)),
              req)
  }

  function WithTools(fields: Fields, req: Request): Fields {
    With(With(fields, "tools", if req.tools == [] then None else Some(Arr(ToolsJson(req.tools)))),
         "tool_choice", req.toolChoice)
  }

  function LevelOf(req: Request): string { if req.level == "" then "default" else req.level }

  function BodyFor(req: Request, stream: bool, reasoningMap: map<string, Json>): Built {
    var level := LevelOf(req);
    if level !in reasoningMap then
      if level == "default" then Body(Unpatched(req, stream)) else Unsupported(level)
    else
      match reasoningMap[level]
      case Null => Body(Unpatched(req, stream))
      case Obj(patch) => Body(Over(Unpatched(req, stream), patch - PROTECTED))
      case _ => InvalidMapEntry
  }

  /** The first part of buildBody: filling the map step by step. */
  method FillBody(req: Request, stream: bool) returns (body: Fields)
    ensures body == Unpatched(req, stream)
  {
    var msgs := BuildMessages(req.messages);
    body := map["model" := Str(req.model), "messages" := Arr(msgs), "stream" := Bool(stream)];
    if stream {
      body := body["stream_options" := Obj(map["include_usage" := Bool(true)])];
    }
    if req.temperature.Some? {
      body := body["temperature" := req.temperature.value];
    }
    if req.maxTokens.Some? {
      body := body["max_tokens" := Int(req.maxTokens.value)];
    }
    body := FillTools(req, body);
  }

  method FillTools(req: Request, start: Fields) returns (body: Fields)
    ensures body == WithTools(start, req)
  {
    body := start;
    if |req.tools| > 0 {
      var tools := BuildTools(req.tools);
      body := body["tools" := Arr(tools)];
    }
    if req.toolChoice.Some? {
      body := body["tool_choice" := req.toolChoice.value];
    }
  }

  /** buildBody: the filled map, patched in place by deepMerge. */
  method BuildBody(req: Request, stream: bool, reasoningMap: map<string, Json>) returns (built: Built)
    ensures built == BodyFor(req, stream, reasoningMap)
  {
    var body := FillBody(req, stream);
    var level := if req.level == "" then "default" else req.level;
    if level !in reasoningMap && level != "default" {
      return Unsupported(level);
    }
    if level in reasoningMap && reasoningMap[level] != Null && reasoningMap[level] != Obj(map[]) {
      if !reasoningMap[level].Obj? {
        return InvalidMapEntry;
      }
      var target := new JsonMap(body);
      target.DeepMerge(reasoningMap[level].fields, PROTECTED);
      body := target.fields;
    } else {
      assert Over(body, map[] - PROTECTED) == body;
    }
    built := Body(body);
  }

  method BuildMessages(ms: seq<Message>) returns (msgs: seq<Json>)
    ensures msgs == MessagesJson(ms)
  {
    msgs := [];
    for i := 0 to |ms|
      invariant msgs == MessagesJson(ms[..i])
    {
      assert ms[..i + 1][..i] == ms[..i];
      msgs := msgs + [MessageJson(ms[i])];
    }
    assert ms[..|ms|] == ms;
  }

  method BuildTools(ts: seq<Tool>) returns (tools: seq<Json>)
    ensures tools == ToolsJson(ts)
  {
    tools := [];
    for i := 0 to |ts|
      invariant tools == ToolsJson(ts[..i])
    {
      assert ts[..i + 1][..i] == ts[..i];
      var o := UpstreamObject(ts[i]);
      tools := tools + [Obj(o)];
    }
    assert ts[..|ts|] == ts;
  }

  // ---- what upstream gets -----------------------------------------------------------------------

  /** How upstream reads a message, key by key. */
  function ReadMessage(j: Json): Option<Message> {
    var f :- AsFields(j);
    var role :- AsString(Field(f, "role"));
    var name :- AsString(Field(f, "name"));
    var toolCallId :- AsString(Field(f, "tool_call_id"));
    var toolCalls :- AsItems(Field(f, "tool_calls"));
    Some(Message(role, Field(f, "content"), name, toolCallId, toolCalls))
  }

  /** The keys a message is sent with: role and content always, the others unless they are empty. */
  predicate HasKey(m: Message, key: string) {
    || key in {"role", "content"}
    || (key == "name" && m.name != "")
    || (key == "tool_call_id" && m.toolCallId != "")
    || (key == "tool_calls" && m.toolCalls != [])
  }

  ghost predicate Holds(j: Json, m: Message) {
    j.Obj? && ReadMessage(j) == Some(m) && forall key :: key in j.fields <==> HasKey(m, key)
  }

  lemma MessageIsRead(m: Message)
    ensures Holds(MessageJson(m), m)
  {
    var f := MessageJson(m).fields;
    assert Field(f, "role") == Str(m.role) && Field(f, "content") == m.content;
    assert Raw(f, "name") == NonEmpty(m.name) && Raw(f, "tool_call_id") == NonEmpty(m.toolCallId);
    assert Raw(f, "tool_calls") == if m.toolCalls == [] then None else Some(Arr(m.toolCalls));
  }

  /** The conversation reaches upstream: message by message, read back as it was, whatever the patch holds. */
  lemma MessagesArrive(req: Request, stream: bool, reasoningMap: map<string, Json>)
    requires BodyFor(req, stream, reasoningMap).Body?
    ensures var sent := Raw(BodyFor(req, stream, reasoningMap).fields, "messages");
            && sent.Some? && sent.value.Arr? && |sent.value.items| == |req.messages|
            && forall i :: 0 <= i < |req.messages| ==> Holds(sent.value.items[i], req.messages[i])
  {
    PatchedOrNot(req, stream, reasoningMap);
    UnpatchedEntries(req, stream);
    ProtectedEntries(Unpatched(req, stream), PatchFor(req, reasoningMap));
    forall i | 0 <= i < |req.messages| {
      MessageIsRead(req.messages[i]);
    }
  }

  /** What the request itself asks for under a key that a patch may change. */
  function Asked(req: Request, stream: bool, key: string): Option<Json> {
    match key
    case "stream_options" => if stream then Some(Obj(map["include_usage" := Bool(true)])) else None
    case "temperature" => req.temperature
    case "max_tokens" => if req.maxTokens.None? then None else Some(Int(req.maxTokens.value))
    case "tool_choice" => req.toolChoice
    case _ => None
  }

  function PatchFor(req: Request, reasoningMap: map<string, Json>): Fields {
    var level := if req.level == "" then "default" else req.level;
    if level in reasoningMap && reasoningMap[level].Obj? then reasoningMap[level].fields else map[]
  }

  /**
   * Whatever the patch holds, the body's model, stream and tools are those of the request, and
   * without tools in the request there are none in the body; under every other key the patch is
   * laid over what the request asks for.
   */
  lemma PatchFrame(req: Request, stream: bool, reasoningMap: map<string, Json>, key: string)
    requires BodyFor(req, stream, reasoningMap).Body?
    ensures var b := BodyFor(req, stream, reasoningMap).fields;
            && Raw(b, "model") == Some(Str(req.model))
            && Raw(b, "stream") == Some(Bool(stream))
            && (req.tools == [] ==> Raw(b, "tools") == None)
            && (req.tools != [] ==>
                  && Raw(b, "tools").Some? && Raw(b, "tools").value.Arr?
                  && |Raw(b, "tools").value.items| == |req.tools|
                  && forall i :: 0 <= i < |req.tools| ==> Raw(b, "tools").value.items[i] == Obj(Upstream(req.tools[i])))
            && (key !in {"model", "messages", "tools", "stream"} ==>
                  Raw(b, key) == LaidOn(Asked(req, stream, key), Raw(PatchFor(req, reasoningMap), key)))
  {
    var base := Unpatched(req, stream);
    var patch := PatchFor(req, reasoningMap);
    PatchedOrNot(req, stream, reasoningMap);
    UnpatchedEntries(req, stream);
    ProtectedEntries(base, patch);
    ProtectedKeysStay(base, patch, PROTECTED, key);
    if key !in PROTECTED {
      UnpatchedAsked(req, stream, key);
      assert key !in patch ==> key !in patch - PROTECTED;
    }
  }

  lemma UnpatchedAsked(req: Request, stream: bool, key: string)
    requires key !in PROTECTED
    ensures Raw(Unpatched(req, stream), key) == Asked(req, stream, key)
  {
  }

  lemma PatchedOrNot(req: Request, stream: bool, reasoningMap: map<string, Json>)
    requires BodyFor(req, stream, reasoningMap).Body?
    ensures BodyFor(req, stream, reasoningMap).fields
            == Over(Unpatched(req, stream), PatchFor(req, reasoningMap) - PROTECTED)
  {
  }

  lemma UnpatchedEntries(req: Request, stream: bool)
    ensures var b := Unpatched(req, stream);
            && Raw(b, "model") == Some(Str(req.model)) && Raw(b, "stream") == Some(Bool(stream))
            && Raw(b, "messages") == Some(Arr(MessagesJson(req.messages)))
            && Raw(b, "tools") == if req.tools == [] then None else Some(Arr(ToolsJson(req.tools)))
  {
  }

  lemma {:induction false} ProtectedEntries(base: Fields, patch: Fields)
    ensures forall k :: k in PROTECTED ==> Raw(Over(base, patch - PROTECTED), k) == Raw(base, k)
  {
  }

  /**
   * Building fails exactly for a level without an entry, unless it is the default, and for an entry
   * that is no object.
   */
  lemma BuildFailsIff(req: Request, stream: bool, reasoningMap: map<string, Json>)
    ensures var level := if req.level == "" then "default" else req.level;
            var built := BodyFor(req, stream, reasoningMap);
            && (built.Unsupported? <==> level !in reasoningMap && level != "default")
            && (built.Unsupported? ==> built.level == level)
            && (built.InvalidMapEntry? <==>
                  level in reasoningMap && !reasoningMap[level].Null? && !reasoningMap[level].Obj?)
  {
  }

  /**
   * From the client's tool objects to the upstream body: decoded, sent over any number of
   * hops, rebuilt and patched, the body's tools are the client's objects exactly when every
   * one of them is faithful.
   */
  lemma ToolsArriveUnchanged(
      objects: seq<Fields>, hops: nat, req: Request, stream: bool, reasoningMap: map<string, Json>)
    requires objects != [] && |req.tools| == |objects|
    requires forall i :: 0 <= i < |objects| ==>
      Unmarshal(Obj(objects[i])).Some? && Hops(Unmarshal(Obj(objects[i])).value, hops) == Some(req.tools[i])
    requires BodyFor(req, stream, reasoningMap).Body?
    ensures var sent := Raw(BodyFor(req, stream, reasoningMap).fields, "tools");
            && sent.Some? && sent.value.Arr? && |sent.value.items| == |objects|
            && forall i :: 0 <= i < |objects| ==> (sent.value.items[i] == Obj(objects[i]) <==> Faithful(objects[i]))
  {
    PatchFrame(req, stream, reasoningMap, "tools");
    forall i | 0 <= i < |objects| ensures Upstream(req.tools[i]) == objects[i] <==> Faithful(objects[i]) {
      ToolFidelity(objects[i], hops);
    }
  }
}
