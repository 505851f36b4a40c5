/**
 * The plugin side of a connection: the table of running streams and the forwarder. What
 * other requests do in between is a matter of module System, which takes the same steps.
 */
module Server {
  import opened Wrappers
  import opened Events
  import opened Host
  import opened System

  /** A plugin.stream.event notification. */
  datatype Notification = Notification(streamId: Id, seqNo: nat, event: StreamEvent)

  class Server {
    /** The streams in the table, and those whose context has been cancelled. */
    var streams: set<Id>
    var cancelled: set<Id>

    ghost function Value(): Table
      reads this
    {
      Table(streams, cancelled)
    }

    constructor ()
      ensures Value() == Table({}, {})
    {
      streams, cancelled := {}, {};
    }

    /** The lock region before the handler runs. */
    method Enter(id: Id)
      modifies this
      ensures Value() == Listed(old(Value()), id)
    {
      streams := streams + {id};
    }

    /** Cancels the context, then deletes the entry. */
    method Drop(id: Id)
      modifies this
      ensures Value() == Unlisted(old(Value()), id)
    {
      cancelled := cancelled + {id};
      streams := streams - {id};
    }

    /**
     * completion.stream; `err` is what the handler's Stream fails with, and `during` the
     * table while it runs.
     */
    method StartStream(id: Id, err: Option<ProviderError>) returns (reply: Option<Id>, ghost during: Table)
      requires id !in streams
      modifies this
      ensures reply == if err.None? then Some(id) else None
      ensures during == Listed(old(Value()), id)
      ensures Value() == if err.None? then during else Table(old(streams), old(cancelled) + {id})
    {
      Enter(id);
      during := Value();
      if err.Some? {
        Drop(id);
        return None, during;
      }
      reply := Some(id);
    }

    /** completion.cancel: cancels the context of a stream in the table and leaves the table alone. */
    method CancelStream(id: Id)
      modifies this`cancelled
      ensures Value() == CancelledIn(old(Value()), id)
    {
      if id in streams {
        cancelled := cancelled + {id};
      }
    }

    /**
     * Forwards everything the handler emits, numbered from 1 without gaps, and one synthetic
     * end when none of it was terminal; only then does the stream leave the table. `during`
     * holds the table at each notification.
     */
    method ForwardStream(id: Id, events: seq<StreamEvent>) returns (notes: seq<Notification>, ghost during: seq<Table>)
      modifies this
      ensures |notes| == |Forwarded(events)|
      ensures forall i :: 0 <= i < |notes| ==> notes[i] == Notification(id, i + 1, Forwarded(events)[i])
      ensures |during| == |notes| && forall i :: 0 <= i < |during| ==> during[i] == old(Value())
      ensures Value() == Unlisted(old(Value()), id)
    {
      notes, during := [], [];
      var seqNo, ended := 0, false;
      for n := 0 to |events|
        invariant seqNo == n == |notes|
        invariant ended <==> HasTerminal(events[..n])
        invariant forall i :: 0 <= i < n ==> notes[i] == Notification(id, i + 1, events[i])
        invariant Value() == old(Value())
        invariant |during| == n && forall i :: 0 <= i < n ==> during[i] == old(Value())
      {
        HasTerminalConcat(events[..n], [events[n]]);
        HasTerminalOne(events[n]);
        assert events[..n + 1] == events[..n] + [events[n]];
        if Terminal(events[n]) {
          ended := true;
        }
        seqNo := seqNo + 1;
        notes, during := notes + [Notification(id, seqNo, events[n])], during + [Value()];
      }
      assert events[..|events|] == events;
      if !ended {
        seqNo := seqNo + 1;
        notes, during := notes + [Notification(id, seqNo, SYNTHETIC_END)], during + [Value()];
      }
      Drop(id);
    }
  }

  /** A script without a terminal event gets one end, with the finish reason "stop"; any other stays as it is. */
  lemma ForwardedEndsOnce(script: seq<StreamEvent>)
    ensures HasTerminal(Forwarded(script))
    ensures Forwarded(script)
            == if HasTerminal(script) then script
               else script + [StreamEvent(StreamEnd, None, None, None, "stop", None)]
    ensures EndsAtTerminal(Forwarded(script)) <==> EndsAtTerminal(script)
    ensures Forwarded(Forwarded(script)) == Forwarded(script)
  {
    HasTerminalConcat(script, [SYNTHETIC_END]);
    HasTerminalOne(SYNTHETIC_END);
    var f := Forwarded(script);
    if !HasTerminal(script) {
      forall i | 0 <= i < |f| - 1 ensures !Terminal(f[i]) { assert f[i] == script[i]; }
    }
  }
}
