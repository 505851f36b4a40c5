/** The canonical stream events that plugins emit and the gateway renders. */
module Events {
  import opened Wrappers
  import opened Json

  datatype Kind =
    | StreamStart
    | TextDelta
    | ToolCallStart
    | ToolCallDelta
    | ToolCallEnd
    | UsageReport
    | StreamEnd
    | ErrorKind
    | OtherKind(name: string)

  datatype Usage = Usage(inputTokens: Int64, outputTokens: Int64)

  datatype ToolDelta = ToolDelta(index: Int64, id: string, typ: string, name: string, arguments: string)

  datatype ProviderError = ProviderError(message: string, typ: string, code: string, param: Json, httpStatus: int)

  datatype StreamEvent = StreamEvent(
    kind: Kind,
    text: Option<string>,
    tool: Option<ToolDelta>,
    usage: Option<Usage>,
    finish: string,
    error: Option<ProviderError>)

  function Plain(kind: Kind): StreamEvent {
    StreamEvent(kind, None, None, None, "", None)
  }

  function NewProviderError(httpStatus: int, code: string, message: string): ProviderError {
    ProviderError(message, "provider_error", code, Null, httpStatus)
  }

  function ErrorEvent(err: ProviderError): StreamEvent {
    Plain(ErrorKind).(error := Some(err))
  }

  /** A terminal event is the one after which the host closes the stream. */
  predicate Terminal(ev: StreamEvent) {
    ev.kind == StreamEnd || ev.kind == ErrorKind
  }

  predicate HasTerminal(evs: seq<StreamEvent>) {
    exists i :: 0 <= i < |evs| && Terminal(evs[i])
  }

  /** Nothing follows the first terminal event. */
  predicate EndsAtTerminal(evs: seq<StreamEvent>) {
    forall i :: 0 <= i < |evs| - 1 ==> !Terminal(evs[i])
  }

  lemma HasTerminalConcat(a: seq<StreamEvent>, b: seq<StreamEvent>)
    ensures HasTerminal(a + b) <==> HasTerminal(a) || HasTerminal(b)
  {
    if HasTerminal(a) {
      var i :| 0 <= i < |a| && Terminal(a[i]);
      assert Terminal((a + b)[i]);
    }
    if HasTerminal(b) {
      var i :| 0 <= i < |b| && Terminal(b[i]);
      assert Terminal((a + b)[|a| + i]);
    }
  }

  lemma HasTerminalOne(ev: StreamEvent)
    ensures HasTerminal([ev]) <==> Terminal(ev)
  {
    assert [ev][0] == ev;
  }

  lemma EndsAtAppended(evs: seq<StreamEvent>, ev: StreamEvent)
    requires !HasTerminal(evs)
    ensures EndsAtTerminal(evs + [ev])
  {
  }
}
