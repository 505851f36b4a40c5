/**
 * The conditions of the delivery results are exact: schedules that show what happens
 * without them, built for every script.
 */
module Schedules {
  import opened Wrappers
  import opened Events
  import opened Host
  import opened System
  import opened Stream
  import opened Delivery
  import opened Guarantees

  // ---- registration before the first event ------------------------------------------------

  /** The system with one stream, its reply read and nothing else on its way. */
  function Announced(id: Id, p: Forwarder): Sys {
    INIT.(server := Table({id}, {}), plugin := map[id := p], replySent := {id}, replied := {id})
  }

  /** The same with the stream registered. */
  function LiveState(id: Id, p: Forwarder, c: Chan): Sys {
    Announced(id, p).(host := HostState(if c.closed then {} else {id}, map[], map[id := c]))
  }

  function UpToTerminal(evs: seq<StreamEvent>): seq<StreamEvent> {
    if evs == [] then []
    else if Terminal(evs[0]) then [evs[0]]
    else [evs[0]] + UpToTerminal(evs[1..])
  }

  /** These steps lead from one state to the other without disturbing the stream. */
  predicate Path(s: Sys, acts: seq<Action>, t: Sys, id: Id) {
    Run(s, acts) == Some(t) && Undisturbed(acts, id)
  }

  lemma PathOne(s: Sys, a: Action, t: Sys, id: Id)
    requires Do(s, a) == Some(t) && !Disturbs(a, id)
    ensures Path(s, [a], t, id)
  {
    RunOne(s, a, t, []);
    assert [a] + [] == [a];
  }

  lemma PathConcat(s: Sys, a: seq<Action>, u: Sys, b: seq<Action>, t: Sys, id: Id)
    requires Path(s, a, u, id) && Path(u, b, t, id)
    ensures Path(s, a + b, t, id)
  {
    RunConcat(s, a, b);
  }

  lemma ForwardsLive(id: Id, p: Forwarder, c: Chan)
    requires !p.done && !p.ended
    ensures var (q, out) := ForwardStep(p);
            Path(LiveState(id, p, c), [Forward(id)], LiveState(id, q, c).(wire := [Note(id, out[0])]), id)
  {
    var (q, out) := ForwardStep(p);
    var s, t := LiveState(id, p, c), LiveState(id, q, c).(wire := [Note(id, out[0])]);
    assert out[1..] == [] && Notes(id, out) == [Note(id, out[0])] + Notes(id, out[1..]);
    assert s.plugin[id := q] == t.plugin && s.wire + Notes(id, out) == t.wire;
    PathOne(s, Forward(id), t, id);
  }

  lemma ReadsLive(id: Id, q: Forwarder, c: Chan, ev: StreamEvent)
    requires !c.closed
    ensures var t := LiveState(id, q, c).(reader := Sending(id, ev));
            Path(LiveState(id, q, c).(wire := [Note(id, ev)]), [Read], t, id)
  {
    var s, t := LiveState(id, q, c).(wire := [Note(id, ev)]), LiveState(id, q, c).(reader := Sending(id, ev));
    assert s.wire[1..] == [];
    PathOne(s, Read, t, id);
  }

  function AfterSend(id: Id, ev: StreamEvent): Reader { if Terminal(ev) then Finishing(id) else Idle }

  lemma PutsLive(id: Id, q: Forwarder, c: Chan, ev: StreamEvent)
    requires !c.closed && c.buf == []
    ensures var d := c.(buf := [FromPlugin(ev)]);
            var t := LiveState(id, q, d).(reader := AfterSend(id, ev));
            Path(LiveState(id, q, c).(reader := Sending(id, ev)), [Put], t, id)
  {
    var s, d := LiveState(id, q, c).(reader := Sending(id, ev)), c.(buf := [FromPlugin(ev)]);
    var t := LiveState(id, q, d).(reader := AfterSend(id, ev));
    assert c.buf + [FromPlugin(ev)] == d.buf && s.host.chans[id := d] == t.host.chans;
    PathOne(s, Put, t, id);
  }

  lemma TakesLive(id: Id, q: Forwarder, c: Chan)
    requires c.buf != []
    ensures Path(LiveState(id, q, c), [Recv(id)], LiveState(id, q, Receive(c)), id)
  {
    var s, t := LiveState(id, q, c), LiveState(id, q, Receive(c));
    assert s.host.chans[id := Receive(c)] == t.host.chans;
    PathOne(s, Recv(id), t, id);
  }

  lemma ClosesLive(id: Id, q: Forwarder, c: Chan)
    requires !c.closed
    ensures Path(LiveState(id, q, c).(reader := Finishing(id)), [Finish], LiveState(id, q, Close(c)), id)
  {
    var s, t := LiveState(id, q, c).(reader := Finishing(id)), LiveState(id, q, Close(c));
    assert s.host.chans[id := Close(c)] == t.host.chans && s.host.streams - {id} == {};
    PathOne(s, Finish, t, id);
  }

  /** Forward, read and send one event on the live path. */
  lemma Pump(id: Id, p: Forwarder, c: Chan)
    requires !p.done && !p.ended && !c.closed && c.buf == []
    ensures var (q, out) := ForwardStep(p);
            var t := LiveState(id, q, c.(buf := [FromPlugin(out[0])])).(reader := AfterSend(id, out[0]));
            Path(LiveState(id, p, c), [Forward(id)] + [Read] + [Put], t, id)
  {
    var (q, out) := ForwardStep(p);
    var s0, s1 := LiveState(id, p, c), LiveState(id, q, c).(wire := [Note(id, out[0])]);
    var s2 := LiveState(id, q, c).(reader := Sending(id, out[0]));
    var s3 := LiveState(id, q, c.(buf := [FromPlugin(out[0])])).(reader := AfterSend(id, out[0]));
    ForwardsLive(id, p, c);
    ReadsLive(id, q, c, out[0]);
    PutsLive(id, q, c, out[0]);
    PathConcat(s0, [Forward(id)], s1, [Read], s2, id);
    PathConcat(s0, [Forward(id)] + [Read], s2, [Put], s3, id);
  }

  /** One event that is not terminal, from the handler to the consumer. */
  lemma PumpAny(id: Id, p: Forwarder, c: Chan) returns (acts: seq<Action>)
    requires !p.done && !p.ended && !c.closed && c.buf == []
    requires !Terminal(ForwardStep(p).1[0])
    ensures var (q, out) := ForwardStep(p);
            Path(LiveState(id, p, c), acts, LiveState(id, q, c.(received := c.received + [FromPlugin(out[0])])), id)
  {
    var (q, out) := ForwardStep(p);
    var d := c.(buf := [FromPlugin(out[0])]);
    var head := [Forward(id)] + [Read] + [Put];
    Pump(id, p, c);
    TakesLive(id, q, d);
    assert LiveState(id, q, d).(reader := Idle) == LiveState(id, q, d);
    PathConcat(LiveState(id, p, c), head, LiveState(id, q, d), [Recv(id)], LiveState(id, q, Receive(d)), id);
    assert Receive(d) == c.(received := c.received + [FromPlugin(out[0])]);
    acts := head + [Recv(id)];
  }

  /** The terminal event, up to the closed and emptied channel. */
  lemma PumpTerminal(id: Id, p: Forwarder, c: Chan) returns (acts: seq<Action>)
    requires !p.done && !p.ended && !c.closed && c.buf == []
    requires Terminal(ForwardStep(p).1[0])
    ensures var (q, out) := ForwardStep(p);
            var d := c.(closed := true, received := c.received + [FromPlugin(out[0])]);
            Path(LiveState(id, p, c), acts, LiveState(id, q, d), id)
  {
    var (q, out) := ForwardStep(p);
    var d := c.(buf := [FromPlugin(out[0])]);
    Pump(id, p, c);
    assert Receive(Close(d)) == c.(closed := true, received := c.received + [FromPlugin(out[0])]);
    acts := FinishAndTake(id, LiveState(id, p, c), [Forward(id)] + [Read] + [Put], q, d);
  }

  lemma FinishAndTake(id: Id, s: Sys, head: seq<Action>, q: Forwarder, d: Chan) returns (acts: seq<Action>)
    requires d.buf != [] && !d.closed && Path(s, head, LiveState(id, q, d).(reader := Finishing(id)), id)
    ensures Path(s, acts, LiveState(id, q, Receive(Close(d))), id)
  {
    var closed := LiveState(id, q, Close(d));
    ClosesLive(id, q, d);
    TakesLive(id, q, Close(d));
    PathConcat(s, head, LiveState(id, q, d).(reader := Finishing(id)), [Finish], closed, id);
    PathConcat(s, head + [Finish], closed, [Recv(id)], LiveState(id, q, Receive(Close(d))), id);
    acts := head + [Finish] + [Recv(id)];
  }

  lemma {:induction false} TagTail(received: seq<Item>, ev: StreamEvent, tail: seq<StreamEvent>)
    ensures received + Tag([ev] + tail) == (received + [FromPlugin(ev)]) + Tag(tail)
  {
  }

  /** The live path delivers up to the first terminal event and closes the channel there. */
  lemma LiveRun(id: Id, p: Forwarder, c: Chan) returns (acts: seq<Action>, q: Forwarder, d: Chan)
    requires ForwarderOk(p, false) && !p.done && !p.ended && !c.closed && c.buf == []
    ensures Path(LiveState(id, p, c), acts, LiveState(id, q, d), id) && q.script == p.script
    ensures d.closed && d.buf == [] && d.received == c.received + Tag(UpToTerminal(ToCome(p)))
    decreases |p.left|
  {
    var (q1, out) := ForwardStep(p);
    ForwarderStepOk(p, false);
    HeadOfToCome(p);
    var received := c.received + [FromPlugin(out[0])];
    if Terminal(out[0]) {
      acts := PumpTerminal(id, p, c);
      q, d := q1, c.(closed := true, received := received);
      TagTail(c.received, out[0], []);
      assert Tag([]) == [] && [out[0]] + [] == [out[0]];
    } else {
      var c1 := c.(received := received);
      var first := PumpAny(id, p, c);
      var more: seq<Action>;
      more, q, d := LiveRun(id, q1, c1);
      PathConcat(LiveState(id, p, c), first, LiveState(id, q1, c1), more, LiveState(id, q, d), id);
      acts := first + more;
      TagTail(c.received, out[0], UpToTerminal(ToCome(q1)));
    }
  }

  lemma HeadOfToCome(p: Forwarder)
    requires ForwarderOk(p, false) && !p.done && !p.ended
    ensures var (q, out) := ForwardStep(p);
            && |out| == 1 && ToCome(p) != [] && ToCome(p)[0] == out[0]
            && (Terminal(out[0]) ==> q.ended)
            && (!Terminal(out[0]) ==> !q.ended && !q.done && p.left != [] && ToCome(q) == ToCome(p)[1..])
  {
  }

  lemma {:induction false} CutAtTerminal(evs: seq<StreamEvent>)
    ensures UpToTerminal(evs) == evs <==> EndsAtTerminal(evs)
    ensures |UpToTerminal(evs)| <= |evs|
  {
    if evs != [] && !Terminal(evs[0]) {
      CutAtTerminal(evs[1..]);
      assert evs == [evs[0]] + evs[1..];
      if EndsAtTerminal(evs) {
        forall i | 0 <= i < |evs[1..]| - 1 ensures !Terminal(evs[1..][i]) { assert evs[1..][i] == evs[i + 1]; }
      }
      if EndsAtTerminal(evs[1..]) {
        forall i | 0 <= i < |evs| - 1 ensures !Terminal(evs[i]) {
          if i > 0 { assert evs[i] == evs[1..][i - 1]; }
        }
      }
    }
  }

  lemma FreshForwarder(script: seq<StreamEvent>)
    ensures var p := Forwarder(script, script, [], false, false);
            ForwarderOk(p, false) && ToCome(p) == Forwarded(script)
  {
  }

  /** From the empty system along the live path to the closed and emptied channel. */
  lemma LiveFromStart(id: Id, script: seq<StreamEvent>) returns (acts: seq<Action>, q: Forwarder, d: Chan)
    ensures Path(INIT, acts, LiveState(id, q, d), id) && q.script == script
    ensures d.closed && d.buf == [] && d.received == Tag(UpToTerminal(Forwarded(script)))
  {
    var p, c := Forwarder(script, script, [], false, false), Chan([], false, []);
    FreshForwarder(script);
    var more: seq<Action>;
    more, q, d := LiveRun(id, p, c);
    var open := Opening(id, script);
    PathConcat(INIT, open, LiveState(id, p, c), more, LiveState(id, q, d), id);
    acts := open + more;
    assert [] + Tag(UpToTerminal(Forwarded(script))) == Tag(UpToTerminal(Forwarded(script)));
  }

  /** For every script there is a complete run that delivers exactly up to the first terminal event. */
  lemma EarlyRegistration(id: Id, script: seq<StreamEvent>) returns (acts: seq<Action>, s: Sys)
    ensures Run(INIT, acts) == Some(s) && Undisturbed(acts, id) && Complete(s, id)
    ensures id in s.plugin && s.plugin[id].script == script
    ensures Genuine(Received(s, id)) == UpToTerminal(Forwarded(script))
  {
    var q: Forwarder, d: Chan;
    acts, q, d := LiveFromStart(id, script);
    s := LiveState(id, q, d);
    GenuineTag(UpToTerminal(Forwarded(script)));
  }

  lemma EnrollsLive(id: Id, p: Forwarder)
    ensures Path(ParkState(id, p, []), [Enroll(id)], LiveState(id, p, Chan([], false, [])), id)
  {
    var s, t := ParkState(id, p, []), LiveState(id, p, Chan([], false, []));
    assert Tag([]) == [];
    assert Register(s.host, id) == t.host;
    PathOne(s, Enroll(id), t, id);
  }

  lemma Opening(id: Id, script: seq<StreamEvent>) returns (acts: seq<Action>)
    ensures Path(INIT, acts, LiveState(id, Forwarder(script, script, [], false, false), Chan([], false, [])), id)
  {
    var p := Forwarder(script, script, [], false, false);
    var announced := Announce(id, script);
    EnrollsLive(id, p);
    PathConcat(INIT, announced, ParkState(id, p, []), [Enroll(id)], LiveState(id, p, Chan([], false, [])), id);
    acts := announced + [Enroll(id)];
  }

  // ---- registration after the last event ---------------------------------------------------

  /** The system with one stream whose reply has arrived and whose events wait for registration. */
  function ParkState(id: Id, p: Forwarder, parked: seq<StreamEvent>): Sys {
    Announced(id, p).(host := HostState({}, if parked == [] then map[] else map[id := parked], map[]))
  }

  /** The handler has succeeded, and the reply is not written yet. */
  function Opened(id: Id, p: Forwarder): Sys { INIT.(server := Table({id}, {}), plugin := map[id := p]) }

  lemma HandlerAnswers(id: Id, script: seq<StreamEvent>)
    ensures Path(INIT, [Start(id)] + [Open(id, script)], Opened(id, Forwarder(script, script, [], false, false)), id)
  {
    var s := INIT.(server := Table({id}, {}), starting := {id});
    var t := Opened(id, Forwarder(script, script, [], false, false));
    assert Listed(INIT.server, id) == s.server && INIT.starting + {id} == {id};
    PathOne(INIT, Start(id), s, id);
    assert s.starting - {id} == {} && s.plugin[id := t.plugin[id]] == t.plugin;
    PathOne(s, Open(id, script), t, id);
    PathConcat(INIT, [Start(id)], s, [Open(id, script)], t, id);
  }

  lemma ReplyArrives(id: Id, p: Forwarder)
    ensures Path(Opened(id, p), [SendReply(id)] + [Read], ParkState(id, p, []), id)
  {
    var s, t := Opened(id, p).(replySent := {id}, wire := [Reply(id)]), ParkState(id, p, []);
    assert [] + [Reply(id)] == [Reply(id)] && {} + {id} == {id};
    PathOne(Opened(id, p), SendReply(id), s, id);
    assert s.wire[1..] == [];
    PathOne(s, Read, t, id);
    PathConcat(Opened(id, p), [SendReply(id)], s, [Read], t, id);
  }

  /** completion.stream up to the reply's arrival. */
  lemma Announce(id: Id, script: seq<StreamEvent>) returns (acts: seq<Action>)
    ensures Path(INIT, acts, ParkState(id, Forwarder(script, script, [], false, false), []), id)
  {
    var p := Forwarder(script, script, [], false, false);
    HandlerAnswers(id, script);
    ReplyArrives(id, p);
    var call, reply := [Start(id)] + [Open(id, script)], [SendReply(id)] + [Read];
    PathConcat(INIT, call, Opened(id, p), reply, ParkState(id, p, []), id);
    acts := call + reply;
  }

  lemma ForwardsParked(id: Id, p: Forwarder, parked: seq<StreamEvent>)
    requires !p.done && !(p.left == [] && p.ended)
    ensures var (q, out) := ForwardStep(p);
            Path(ParkState(id, p, parked), [Forward(id)], ParkState(id, q, parked).(wire := [Note(id, out[0])]), id)
  {
    var (q, out) := ForwardStep(p);
    var s, t := ParkState(id, p, parked), ParkState(id, q, parked).(wire := [Note(id, out[0])]);
    assert out[1..] == [] && Notes(id, out) == [Note(id, out[0])] + Notes(id, out[1..]);
    assert s.plugin[id := q] == t.plugin && s.wire + Notes(id, out) == t.wire;
    PathOne(s, Forward(id), t, id);
  }

  lemma ReadParks(id: Id, q: Forwarder, parked: seq<StreamEvent>, ev: StreamEvent)
    ensures Path(ParkState(id, q, parked).(wire := [Note(id, ev)]), [Read], ParkState(id, q, parked + [ev]), id)
  {
    var s, t := ParkState(id, q, parked).(wire := [Note(id, ev)]), ParkState(id, q, parked + [ev]);
    assert s.wire[1..] == [] && s.host.Pending(id) == parked;
    assert ParkUnlessLive(s.host, id, ev) == t.host;
    PathOne(s, Read, t, id);
  }

  lemma ParkOne(id: Id, p: Forwarder, parked: seq<StreamEvent>)
    requires !p.done && !(p.left == [] && p.ended)
    ensures var (q, out) := ForwardStep(p);
            Path(ParkState(id, p, parked), [Forward(id)] + [Read], ParkState(id, q, parked + out), id)
  {
    var (q, out) := ForwardStep(p);
    var s := ParkState(id, q, parked).(wire := [Note(id, out[0])]);
    ForwardsParked(id, p, parked);
    ReadParks(id, q, parked, out[0]);
    assert out == [out[0]];
    PathConcat(ParkState(id, p, parked), [Forward(id)], s, [Read], ParkState(id, q, parked + out), id);
  }

  lemma FirstAndMore(parked: seq<StreamEvent>, out: seq<StreamEvent>, rest: seq<StreamEvent>, n: nat)
    requires |out| == 1 && 0 < n <= 1 + |rest|
    ensures (parked + out) + rest[..n - 1] == parked + (out + rest)[..n]
  {
  }

  /** The first `n` of the events to come are forwarded and parked. */
  lemma ParkRun(id: Id, p: Forwarder, parked: seq<StreamEvent>, n: nat)
    returns (acts: seq<Action>, q: Forwarder)
    requires ForwarderOk(p, false) && n <= |ToCome(p)|
    ensures Path(ParkState(id, p, parked), acts, ParkState(id, q, parked + ToCome(p)[..n]), id) && q.script == p.script
    decreases n
  {
    if n == 0 {
      acts, q := [], p;
      assert parked + ToCome(p)[..0] == parked;
    } else {
      var (q1, out) := ForwardStep(p);
      ForwarderStepOk(p, false);
      ParkOne(id, p, parked);
      var more: seq<Action>;
      more, q := ParkRun(id, q1, parked + out, n - 1);
      FirstAndMore(parked, out, ToCome(q1), n);
      var t := ParkState(id, q, parked + ToCome(p)[..n]);
      PathConcat(ParkState(id, p, parked), [Forward(id)] + [Read], ParkState(id, q1, parked + out), more, t, id);
      acts := [Forward(id)] + [Read] + more;
    }
  }

  /** From the empty system to the first `n` events of a stream waiting for its registration. */
  lemma ParkFirst(id: Id, script: seq<StreamEvent>, n: nat) returns (acts: seq<Action>, q: Forwarder)
    requires n <= |Forwarded(script)|
    ensures Path(INIT, acts, ParkState(id, q, Forwarded(script)[..n]), id) && q.script == script
  {
    var p := Forwarder(script, script, [], false, false);
    FreshForwarder(script);
    var park: seq<Action>;
    park, q := ParkRun(id, p, [], n);
    assert [] + Forwarded(script)[..n] == Forwarded(script)[..n];
    var announced := Announce(id, script);
    PathConcat(INIT, announced, ParkState(id, p, []), park, ParkState(id, q, Forwarded(script)[..n]), id);
    acts := announced + park;
  }

  /** A closed channel is read to its end. */
  lemma ReadOut(id: Id, q: Forwarder, c: Chan) returns (acts: seq<Action>)
    ensures Path(LiveState(id, q, c), acts, LiveState(id, q, c.(buf := [], received := c.received + c.buf)), id)
    decreases |c.buf|
  {
    if c.buf == [] {
      acts := [];
      assert c.received + c.buf == c.received;
    } else {
      var end := c.(buf := [], received := c.received + c.buf);
      assert (c.received + [c.buf[0]]) + c.buf[1..] == c.received + c.buf;
      var more := ReadOut(id, q, Receive(c));
      TakesLive(id, q, c);
      PathConcat(LiveState(id, q, c), [Recv(id)], LiveState(id, q, Receive(c)), more, LiveState(id, q, end), id);
      acts := [Recv(id)] + more;
    }
  }

  lemma {:induction false} EnrollsEnded(id: Id, q: Forwarder, parked: seq<StreamEvent>)
    requires HasTerminal(parked) && |parked| <= CAPACITY
    ensures Path(ParkState(id, q, parked), [Enroll(id)], LiveState(id, q, Chan(Tag(parked), true, [])), id)
  {
    var s, t := ParkState(id, q, parked), LiveState(id, q, Chan(Tag(parked), true, []));
    assert s.host.Pending(id) == parked;
    assert Register(s.host, id) == t.host;
    PathOne(s, Enroll(id), t, id);
  }

  /** A stream that has ended before it is registered is read to its end. */
  lemma EnrollAndRead(id: Id, q: Forwarder, parked: seq<StreamEvent>) returns (acts: seq<Action>)
    requires HasTerminal(parked) && |parked| <= CAPACITY
    ensures Path(ParkState(id, q, parked), acts, LiveState(id, q, Chan([], true, Tag(parked))), id)
  {
    var c := Chan(Tag(parked), true, []);
    var take := ReadOut(id, q, c);
    EnrollsEnded(id, q, parked);
    assert [] + Tag(parked) == Tag(parked);
    var t := LiveState(id, q, Chan([], true, Tag(parked)));
    PathConcat(ParkState(id, q, parked), [Enroll(id)], LiveState(id, q, c), take, t, id);
    acts := [Enroll(id)] + take;
  }

  /** Registration right after the first `n` events, a terminal one among them, delivers just those. */
  lemma LateRegistration(id: Id, script: seq<StreamEvent>, n: nat) returns (acts: seq<Action>, s: Sys)
    requires n <= |Forwarded(script)| && n <= 64 && HasTerminal(Forwarded(script)[..n])
    ensures Run(INIT, acts) == Some(s) && Undisturbed(acts, id) && Complete(s, id)
    ensures id in s.plugin && s.plugin[id].script == script
    ensures Genuine(Received(s, id)) == Forwarded(script)[..n]
  {
    var first := Forwarded(script)[..n];
    var park, q := ParkFirst(id, script, n);
    var take := EnrollAndRead(id, q, first);
    s := LiveState(id, q, Chan([], true, Tag(first)));
    PathConcat(INIT, park, ParkState(id, q, first), take, s, id);
    acts := park + take;
    GenuineTag(first);
  }

  // ---- what can be delivered ---------------------------------------------------------------------

  /** Some complete undisturbed run of a stream with this script delivers exactly these events. */
  ghost predicate CanDeliver(script: seq<StreamEvent>, got: seq<StreamEvent>) {
    exists acts, s, id ::
      Run(INIT, acts) == Some(s) && Undisturbed(acts, id) && Complete(s, id) &&
      id in s.plugin && s.plugin[id].script == script && Genuine(Received(s, id)) == got
  }

  /**
   * What a consumer can end up with, over all schedules: the events up to the first terminal
   * one, or any longer beginning that fits into the channel.
   */
  lemma DeliverableIff(script: seq<StreamEvent>, got: seq<StreamEvent>)
    ensures CanDeliver(script, got)
            <==> && got <= Forwarded(script) && HasTerminal(got)
                 && (got == UpToTerminal(Forwarded(script)) || |got| <= 64)
  {
    var all := Forwarded(script);
    if CanDeliver(script, got) {
      var acts, s, id :|
        Run(INIT, acts) == Some(s) && Undisturbed(acts, id) && Complete(s, id) &&
        id in s.plugin && s.plugin[id].script == script && Genuine(Received(s, id)) == got;
      CompleteDelivery(acts, s, id);
      if EndsAtTerminal(got) {
        PrefixUpToTerminal(got, all);
      }
    } else if got == UpToTerminal(all) {
      var acts, s := EarlyRegistration("s", script);
    } else if got <= all && HasTerminal(got) && |got| <= CAPACITY {
      var acts, s := LateRegistration("s", script, |got|);
    }
  }

  lemma {:induction false} PrefixUpToTerminal(got: seq<StreamEvent>, all: seq<StreamEvent>)
    requires got <= all && HasTerminal(got) && EndsAtTerminal(got)
    ensures got == UpToTerminal(all)
    decreases |got|
  {
    if !Terminal(all[0]) {
      assert got == [got[0]] + got[1..];
      HasTerminalConcat([got[0]], got[1..]);
      HasTerminalOne(got[0]);
      assert forall i :: 0 <= i < |got[1..]| - 1 ==> got[1..][i] == got[i + 1];
      assert got[1..] == all[1..][..|got| - 1];
      PrefixUpToTerminal(got[1..], all[1..]);
    }
  }

  /** Whether every complete undisturbed run of a stream with this script delivers all its events. */
  ghost predicate AlwaysDeliversAll(script: seq<StreamEvent>) {
    forall acts, s, id ::
      Run(INIT, acts) == Some(s) && Undisturbed(acts, id) && Complete(s, id) &&
      id in s.plugin && s.plugin[id].script == script
      ==> Genuine(Received(s, id)) == Forwarded(script)
  }

  /** Delivery is independent of scheduling exactly for the scripts with nothing after the first terminal event. */
  lemma DeliversAllIffNothingAfterTerminal(script: seq<StreamEvent>)
    ensures AlwaysDeliversAll(script) <==> EndsAtTerminal(Forwarded(script))
  {
    if AlwaysDeliversAll(script) {
      var acts, s := EarlyRegistration("s", script);
      CutAtTerminal(Forwarded(script));
    }
    if EndsAtTerminal(Forwarded(script)) {
      forall acts, s, id | Run(INIT, acts) == Some(s) && Undisturbed(acts, id) && Complete(s, id) &&
                           id in s.plugin && s.plugin[id].script == script
        ensures Genuine(Received(s, id)) == Forwarded(script)
      {
        SchedulingDoesNotShow(acts, s, id);
      }
    }
  }

  lemma JamAtEnd(id: Id, q: Forwarder, parked: seq<StreamEvent>)
    requires |parked| > CAPACITY
    ensures Path(ParkState(id, q, parked), [Enroll(id)], ParkState(id, q, parked).(jam := Some(id)), id)
  {
    assert ParkState(id, q, parked).host.Pending(id) == parked;
    PathOne(ParkState(id, q, parked), Enroll(id), ParkState(id, q, parked).(jam := Some(id)), id);
  }

  /** When every event arrives before registration and more than 64 do, the drain blocks holding the mutex. */
  lemma LateRegistrationJams(id: Id, script: seq<StreamEvent>) returns (acts: seq<Action>, s: Sys)
    requires |Forwarded(script)| > CAPACITY
    ensures Run(INIT, acts) == Some(s) && Undisturbed(acts, id) && s.jam == Some(id)
    ensures id in s.plugin && s.plugin[id].script == script
  {
    var acts0, q := ParkFirst(id, script, |Forwarded(script)|);
    assert Forwarded(script)[..|Forwarded(script)|] == Forwarded(script);
    s := ParkState(id, q, Forwarded(script)).(jam := Some(id));
    JamAtEnd(id, q, Forwarded(script));
    PathConcat(INIT, acts0, ParkState(id, q, Forwarded(script)), [Enroll(id)], s, id);
    acts := acts0 + [Enroll(id)];
  }

  predicate JamOk(s: Sys) {
    s.jam.Some? ==> s.jam.value !in s.host.chans && |s.host.Pending(s.jam.value)| > CAPACITY
  }

  /** What the mutex protects cannot change any more once a drain blocks; only sends and receives go on. */
  lemma JammedStep(s: Sys, a: Action, t: Sys)
    requires Do(s, a) == Some(t) && s.jam.Some?
    ensures t.host.streams == s.host.streams && t.host.pending == s.host.pending
    ensures t.host.chans.Keys == s.host.chans.Keys && t.jam == s.jam
  {
    if a.Start? || a.Refuse? || a.Open? || a.Forward? || a.SendReply? || a.CancelPlugin? {
      PluginStepKeeps(s, a, t);
    } else if a.Read? || a.Put? || a.Finish? || a.Enroll? || a.GiveUp? || a.Recv? || a.CancelClose? {
      JammedHostStep(s, a, t);
    } else {
      JammedEndStep(s, a, t);
    }
  }

  lemma JammedHostStep(s: Sys, a: Action, t: Sys)
    requires Do(s, a) == Some(t) && s.jam.Some?
    requires a.Read? || a.Put? || a.Finish? || a.Enroll? || a.GiveUp? || a.Recv? || a.CancelClose?
    ensures t.host.streams == s.host.streams && t.host.pending == s.host.pending
    ensures t.host.chans.Keys == s.host.chans.Keys && t.jam == s.jam
  {
  }

  lemma JammedEndStep(s: Sys, a: Action, t: Sys)
    requires Do(s, a) == Some(t) && s.jam.Some?
    requires a.Crash? || a.Watch? || a.Sweep? || a.Recheck? || a.Restart? || a.NextCrash? || a.Stop? || a.HangUp? ||
             a.NotifyCrash? || a.CloseCrashed?
    ensures t.host.streams == s.host.streams && t.host.pending == s.host.pending
    ensures t.host.chans.Keys == s.host.chans.Keys && t.jam == s.jam
  {
  }

  lemma JamStarts(s: Sys, a: Action, t: Sys)
    requires Do(s, a) == Some(t) && s.jam.None?
    ensures JamOk(t)
  {
    if a.Start? || a.Refuse? || a.Open? || a.Forward? || a.SendReply? || a.CancelPlugin? {
      PluginStepKeeps(s, a, t);
    } else if a.Enroll? {
      EnrollJams(s, a.id, t);
    } else if a.Read? || a.Put? || a.Finish? || a.Enroll? || a.GiveUp? || a.Recv? || a.CancelClose? {
      HostStepKeeps(s, a, t);
    } else {
      EndStepKeeps(s, a, t);
    }
  }

  lemma EnrollJams(s: Sys, id: Id, t: Sys)
    requires Do(s, Enroll(id)) == Some(t)
    ensures t.process == s.process && t.plugin == s.plugin && s.jam.None?
    ensures if DrainFits(s.host, id) then t.jam.None?
            else t.jam == Some(id) && t.host == s.host && id !in s.host.chans
  {
  }

  /** What the mutex protects cannot change any more once a drain blocks; only sends and receives go on. */
  lemma JamStep(s: Sys, a: Action, t: Sys)
    requires Do(s, a) == Some(t) && JamOk(s)
    ensures JamOk(t)
    ensures s.jam.Some? ==> t.jam == s.jam
    ensures s.jam.Some? ==> t.host.streams == s.host.streams && t.host.pending == s.host.pending
    ensures s.jam.Some? ==> t.host.chans.Keys == s.host.chans.Keys
  {
    if s.jam.Some? {
      JammedStep(s, a, t);
    } else {
      JamStarts(s, a, t);
    }
  }

  lemma {:induction false} JamIsForever(s: Sys, acts: seq<Action>, t: Sys)
    requires Run(s, acts) == Some(t) && JamOk(s)
    ensures JamOk(t)
    ensures s.jam.Some? ==> t.jam == s.jam
    ensures s.jam.Some? ==> t.host.streams == s.host.streams && t.host.pending == s.host.pending
    ensures s.jam.Some? ==> t.host.chans.Keys == s.host.chans.Keys
    decreases |acts|
  {
    if acts != [] {
      var u := Do(s, acts[0]).value;
      JamStep(s, acts[0], u);
      JamIsForever(u, acts[1..], t);
    }
  }

  // ---- a consumer that does not read -----------------------------------------------------------

  /** The reader waits for room in the channel of this stream. */
  predicate Stalled(s: Sys, id: Id) {
    s.reader.Sending? && s.reader.id == id && id in s.host.chans && SendBlocks(s.host.chans[id])
  }

  /** What lets the reader go on: the consumer takes an event, or the channel is closed. */
  predicate Frees(s: Sys, a: Action, id: Id) {
    a == Recv(id) || (a == CancelClose(id) && id in s.host.streams) || a == CloseCrashed(id)
  }

  /** What the host has got of a stream's events, in channel and table. */
  function Reached(s: Sys, id: Id): seq<StreamEvent> {
    Genuine(Received(s, id) + Buffered(s, id)) + s.host.Pending(id)
  }

  lemma ReachedAtEnd(l: Local, a: LocalAct)
    requires LCan(l, a)
    requires a.LDisconnect? || a.LFail? || a.LRestart? || a.LCloseCrashed?
    ensures LStep(l, a).Channelled() == l.Channelled()
    ensures LStep(l, a).parked == l.parked || LStep(l, a).parked == None
  {
  }

  lemma ReachedByClosing(l: Local, a: LocalAct)
    requires LCan(l, a)
    requires a.LFinish? || a.LGiveUp? || a.LCancelClose?
    ensures LStep(l, a).Channelled() == l.Channelled()
    ensures LStep(l, a).parked == l.parked || LStep(l, a).parked == None
  {
  }

  lemma ReachedByNotice(l: Local)
    requires LCan(l, LNotifyCrash)
    ensures Genuine(LStep(l, LNotifyCrash).Channelled()) == Genuine(l.Channelled())
    ensures LStep(l, LNotifyCrash).parked == l.parked
  {
    var item := Notice(l.crash.value.err);
    if LStep(l, LNotifyCrash).chan != l.chan {
      SendAppends(l.chan.value, item);
      AppendEffect(l.Channelled(), item);
      assert Genuine(l.Channelled()) + [] == Genuine(l.Channelled());
    }
  }

  /** Unless the reader reads or sends, the host gets nothing new. */
  lemma ReachedLocal(l: Local, a: LocalAct)
    requires LInv(l) && LCan(l, a) && !a.LRead? && !a.LPut?
    ensures Genuine(LStep(l, a).Channelled()) + LStep(l, a).Parked() <= Genuine(l.Channelled()) + l.Parked()
  {
    if a.Skip? || a.LStart? || a.LRefuse? || a.LOpen? || a.LForward? || a.LSendReply? || a.LReadReply? ||
       a.LCancelPlugin? {
      PluginActKeeps(l, a);
    } else if a.LFinish? || a.LGiveUp? || a.LCancelClose? {
      ReachedByClosing(l, a);
    } else if a.LEnroll? {
      EnrollTakesAll(l);
    } else if a.LRecv? {
      RecvTakes(l);
    } else if a.LNotifyCrash? {
      ReachedByNotice(l);
    } else {
      ReachedAtEnd(l, a);
    }
  }

  lemma StalledReaderStays(s: Sys, a: Action, t: Sys, id: Id)
    requires Do(s, a) == Some(t) && Stalled(s, id)
    ensures !a.Read? && !a.Put? && !a.Finish? && t.reader == s.reader && t.replied == s.replied
  {
    if a.Start? || a.Refuse? || a.Open? || a.Forward? || a.SendReply? || a.CancelPlugin? {
      PluginStepKeeps(s, a, t);
    } else if a.Read? || a.Put? || a.Finish? || a.Enroll? || a.GiveUp? || a.Recv? || a.CancelClose? {
      HostStepKeeps(s, a, t);
    } else {
      EndStepKeeps(s, a, t);
    }
  }

  lemma FullAtEnd(l: Local, a: LocalAct)
    requires LCan(l, a) && l.chan.Some? && SendBlocks(l.chan.value)
    requires a.LDisconnect? || a.LFail? || a.LRestart? || a.LNotifyCrash?
    ensures LStep(l, a).chan == l.chan
  {
  }

  /** A full open channel stays so until its consumer takes an event or it is closed. */
  lemma FullUntil(l: Local, a: LocalAct)
    requires LInv(l) && LCan(l, a) && l.chan.Some? && SendBlocks(l.chan.value) && !a.LFinish?
    ensures LStep(l, a).chan.Some?
    ensures SendBlocks(LStep(l, a).chan.value) <==> !(a.LRecv? || (a.LCancelClose? && l.live) || a.LCloseCrashed?)
  {
    assert ChannelOk(l);
    if a.Skip? || a.LStart? || a.LRefuse? || a.LOpen? || a.LForward? || a.LSendReply? || a.LReadReply? ||
       a.LCancelPlugin? {
      PluginActKeeps(l, a);
    } else if a.LDisconnect? || a.LFail? || a.LRestart? || a.LNotifyCrash? {
      FullAtEnd(l, a);
    }
  }

  lemma FreeingActs(s: Sys, a: Action, id: Id)
    requires !a.Finish?
    ensures !ActOn(s, a, id).LFinish?
    ensures ActOn(s, a, id).LRecv? <==> a == Recv(id)
    ensures ActOn(s, a, id).LCancelClose? <==> a == CancelClose(id)
    ensures ActOn(s, a, id).LCloseCrashed? <==> a == CloseCrashed(id)
  {
  }

  lemma StallKeeps(s: Sys, a: Action, t: Sys, id: Id)
    requires Reachable(s) && Do(s, a) == Some(t) && Stalled(s, id)
    ensures !a.Read? && !a.Put? && t.reader == s.reader && t.replied == s.replied
    ensures Stalled(t, id) <==> !Frees(s, a, id)
  {
    var l, act := Project(s, id), ActOn(s, a, id);
    ReachableInv(s, id);
    StalledReaderStays(s, a, t, id);
    StepProjects(s, a, t, id);
    FreeingActs(s, a, id);
    FullUntil(l, act);
    assert LStep(l, act).chan == Get(t.host.chans, id);
  }

  lemma StalledReach(s: Sys, a: Action, t: Sys, i: Id)
    requires Reachable(s) && Do(s, a) == Some(t) && !a.Read? && !a.Put?
    ensures Reached(t, i) <= Reached(s, i)
  {
    var l, act := Project(s, i), ActOn(s, a, i);
    ReachableInv(s, i);
    StepProjects(s, a, t, i);
    NotReading(s, a, i);
    ReachedLocal(l, act);
    ReachedIsLocal(s, i);
    ReachedIsLocal(t, i);
  }

  lemma NotReading(s: Sys, a: Action, id: Id)
    requires !a.Read? && !a.Put?
    ensures !ActOn(s, a, id).LRead? && !ActOn(s, a, id).LPut?
  {
  }

  lemma ReachedIsLocal(s: Sys, id: Id)
    ensures Reached(s, id) == Genuine(Project(s, id).Channelled()) + Project(s, id).Parked()
  {
    assert Received(s, id) + Buffered(s, id) == Project(s, id).Channelled();
  }

  /**
   * While one consumer leaves its channel full and open, the one reader waits for it: the
   * host gets no reply and no further event of any stream, whatever else goes on.
   */
  lemma {:induction false} StallStopsEverybody(s: Sys, acts: seq<Action>, t: Sys, id: Id, i: Id)
    requires Reachable(s) && Run(s, acts) == Some(t) && Stalled(s, id)
    requires Recv(id) !in acts && CancelClose(id) !in acts && CloseCrashed(id) !in acts
    ensures Stalled(t, id) && t.reader == s.reader && t.replied == s.replied
    ensures Reached(t, i) <= Reached(s, i)
    decreases |acts|
  {
    if acts != [] {
      var a, u := acts[0], Do(s, acts[0]).value;
      assert a in acts;
      StallKeeps(s, a, u, id);
      StalledReach(s, a, u, i);
      ReachableStep(s, a, u);
      StallStopsEverybody(u, acts[1..], t, id, i);
    }
  }

  /** Whether some undisturbed run of a stream with this script ends with the mutex held for ever. */
  ghost predicate CanJam(script: seq<StreamEvent>) {
    exists acts, s, id ::
      Run(INIT, acts) == Some(s) && Undisturbed(acts, id) && s.jam == Some(id) &&
      id in s.plugin && s.plugin[id].script == script
  }

  /** A stream can block its host exactly when it has more events than the channel has slots. */
  lemma JamsIffOverCapacity(script: seq<StreamEvent>)
    ensures CanJam(script) <==> |Forwarded(script)| > 64
  {
    if CanJam(script) {
      var acts, s, id :|
        Run(INIT, acts) == Some(s) && Undisturbed(acts, id) && s.jam == Some(id) &&
        id in s.plugin && s.plugin[id].script == script;
      JamIsForever(INIT, acts, s);
      ExactlyOnce(acts, s, id);
      assert |Whereabouts(s, id)| <= |Forwarded(script)|;
    }
    if |Forwarded(script)| > CAPACITY {
      var acts, s := LateRegistrationJams("s", script);
    }
  }
}
