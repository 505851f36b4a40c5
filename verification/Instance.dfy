/**
 * `Instance` and its channels as objects that are updated in place. Every lock region and
 * every channel operation is tied to the function of module Host that the system runs.
 */
module Plugin {
  import opened Wrappers
  import opened Events
  import opened Host
  import System

  /** What a send comes to: panics on a closed channel are recovered by the caller. */
  datatype SendOutcome = Sent | Recovered | Blocked

  lemma {:induction false} OneMoreParked(parked: seq<StreamEvent>, n: nat)
    requires n < |parked|
    ensures HasTerminal(parked[..n + 1]) <==> HasTerminal(parked[..n]) || Terminal(parked[n])
    ensures Tag(parked)[..n + 1] == Tag(parked)[..n] + [FromPlugin(parked[n])]
  {
    assert parked[..n + 1] == parked[..n] + [parked[n]];
    HasTerminalConcat(parked[..n], [parked[n]]);
    HasTerminalOne(parked[n]);
  }

  class Channel {
    var buf: seq<Item>
    var closed: bool
    ghost var received: seq<Item>

    ghost function Value(): Chan
      reads this
    {
      Chan(buf, closed, received)
    }

    constructor ()
      ensures Value() == Chan([], false, [])
    {
      buf, closed, received := [], false, [];
    }

    method Send(item: Item) returns (r: SendOutcome)
      modifies this
      ensures r.Blocked? <==> SendBlocks(old(Value()))
      ensures r.Recovered? <==> old(closed)
      ensures Value() == if r.Blocked? then old(Value()) else Host.Send(old(Value()), item)
    {
      if closed {
        return Recovered;
      } else if |buf| >= CAPACITY {
        return Blocked;
      }
      buf := buf + [item];
      r := Sent;
    }

    /** The select with a default branch. */
    method TrySend(item: Item)
      modifies this
      ensures Value() == Host.TrySend(old(Value()), item)
    {
      if !closed && |buf| < CAPACITY {
        buf := buf + [item];
      }
    }

    /** Closing twice panics, so the channel must be open. */
    method Close()
      requires !closed
      modifies this
      ensures Value() == Host.Close(old(Value()))
    {
      closed := true;
    }

    /** The two guarded steps of failActiveStreams for one channel. */
    method Fail(err: ProviderError)
      requires !closed
      modifies this
      ensures Value() == FailChan(old(Value()), err)
    {
      TrySend(Notice(err));
      Close();
    }

    /** The loop of the drain: stops where a send would block. */
    method Fill(parked: seq<StreamEvent>) returns (fits: bool, ended: bool)
      requires Value() == Chan([], false, [])
      modifies this
      ensures fits <==> |parked| <= CAPACITY
      ensures fits ==> Value() == Chan(Tag(parked), false, []) && ended == HasTerminal(parked)
    {
      ended := false;
      for n := 0 to |parked|
        invariant Value() == Chan(Tag(parked)[..n], false, [])
        invariant n <= CAPACITY
        invariant ended <==> HasTerminal(parked[..n])
      {
        OneMoreParked(parked, n);
        var outcome := Send(FromPlugin(parked[n]));
        if outcome.Blocked? {
          return false, ended;
        }
        if Terminal(parked[n]) {
          ended := true;
        }
      }
      assert parked[..|parked|] == parked && Tag(parked)[..|parked|] == Tag(parked);
      fits := true;
    }

    /** One turn of the consumer's loop: nothing when it has to wait, or when the loop is over. */
    method Receive() returns (item: Option<Item>)
      modifies this
      ensures item.None? <==> old(buf) == []
      ensures item.None? ==> Value() == old(Value())
      ensures item.Some? ==> item.value == old(buf)[0] && Value() == Host.Receive(old(Value()))
    {
      if buf == [] {
        return None;
      }
      item := Some(buf[0]);
      received := received + [buf[0]];
      buf := buf[1..];
    }
  }

  function FailChan(c: Chan, err: ProviderError): Chan {
    Close(TrySend(c, Notice(err)))
  }

  /** The state after failActiveStreams has run with nobody in between. */
  function FailAll(h: HostState, err: ProviderError): HostState {
    HostState({}, map[],
              map i | i in h.chans ::
                if i in h.streams then FailChan(h.chans[i], err) else h.chans[i])
  }

  /** The state after onNotify has run with nobody in between; nothing when its send blocks. */
  function NotifyAlone(h: HostState, id: Id, ev: StreamEvent): Option<HostState> {
    if id !in h.streams || id !in h.chans then Some(ParkUnlessLive(h, id, ev))
    else if SendBlocks(h.chans[id]) then None
    else
      var sent := h.(chans := h.chans[id := Send(h.chans[id], FromPlugin(ev))]);
      Some(if Terminal(ev) then CloseStream(sent, id) else sent)
  }

  /** In the system, onNotify is the reader's three steps: read, put and, after a terminal event, finish. */
  lemma {:induction false} NotifyIsThreeSteps(s: System.Sys, id: Id, ev: StreamEvent)
    requires s.reader == System.Idle && s.jam.None? && s.wire != [] && s.wire[0] == System.Note(id, ev)
    requires s.host.streams <= s.host.chans.Keys && NotifyAlone(s.host, id, ev).Some?
    ensures var steps := if id !in s.host.streams then [System.Read]
                         else if Terminal(ev) then [System.Read, System.Put, System.Finish]
                         else [System.Read, System.Put];
            System.Run(s, steps) == Some(s.(wire := s.wire[1..], host := NotifyAlone(s.host, id, ev).value))
  {
    var s1 := System.Do(s, System.Read).value;
    if id in s.host.streams {
      var s2 := System.Do(s1, System.Put).value;
      assert [System.Read, System.Put, System.Finish][1..] == [System.Put, System.Finish];
      assert [System.Put, System.Finish][1..] == [System.Finish];
      assert [System.Read, System.Put][1..] == [System.Put];
    }
  }

  /** What failActiveStreams does after its lock region, channel by channel. */
  function CleanUpSteps(order: seq<Id>): seq<System.Action> {
    if order == [] then []
    else [System.NotifyCrash(order[0])] + ([System.CloseCrashed(order[0])] + CleanUpSteps(order[1..]))
  }

  function FailListed(chans: map<Id, Chan>, order: seq<Id>, err: ProviderError): map<Id, Chan> {
    map i | i in chans :: if i in order then FailChan(chans[i], err) else chans[i]
  }

  function CleanedUp(s: System.Sys, order: seq<Id>, err: ProviderError): System.Sys {
    s.(host := s.host.(chans := FailListed(s.host.chans, order, err)),
       crash := map i | i in s.crash && i !in order :: s.crash[i])
  }

  function Noticed(s: System.Sys, id: Id, err: ProviderError): System.Sys
    requires id in s.host.chans
  {
    s.(host := System.SetChan(s.host, id, TrySend(s.host.chans[id], Notice(err))),
       crash := s.crash[id := System.ToClose])
  }

  lemma ClosesNoticed(s: System.Sys, id: Id, err: ProviderError)
    requires id in s.host.chans && id in s.crash
    ensures System.Do(Noticed(s, id, err), System.CloseCrashed(id)) == Some(CleanedUp(s, [id], err))
  {
    var u, t := Noticed(s, id, err), CleanedUp(s, [id], err);
    assert u.host.chans[id := Close(u.host.chans[id])] == t.host.chans;
    assert Without(u.crash, id) == t.crash;
  }

  /** One channel: the notice, then the close. */
  lemma {:induction false} CleanUpOne(s: System.Sys, id: Id, err: ProviderError, rest: seq<System.Action>)
    requires id in s.host.chans && id in s.crash && s.crash[id] == System.ToNotify(err)
    ensures System.Run(s, [System.NotifyCrash(id)] + ([System.CloseCrashed(id)] + rest))
            == System.Run(CleanedUp(s, [id], err), rest)
  {
    ClosesNoticed(s, id, err);
    System.RunOne(s, System.NotifyCrash(id), Noticed(s, id, err), [System.CloseCrashed(id)] + rest);
    System.RunOne(Noticed(s, id, err), System.CloseCrashed(id), CleanedUp(s, [id], err), rest);
  }

  lemma {:induction false} CleanUpRun(s: System.Sys, order: seq<Id>, err: ProviderError)
    requires forall i, j :: 0 <= i < j < |order| ==> order[i] != order[j]
    requires forall i :: i in order ==> i in s.host.chans && i in s.crash && s.crash[i] == System.ToNotify(err)
    ensures System.Run(s, CleanUpSteps(order)) == Some(CleanedUp(s, order, err))
    decreases |order|
  {
    if order == [] {
      assert CleanedUp(s, order, err) == s;
    } else {
      var id, rest := order[0], order[1..];
      assert forall i :: i in order <==> i == id || i in rest;
      assert id !in rest;
      CleanUpOne(s, id, err, CleanUpSteps(rest));
      CleanUpRun(CleanedUp(s, [id], err), rest, err);
      CleanedUpTwice(s, id, rest, order, err);
    }
  }

  lemma CleanedUpTwice(s: System.Sys, id: Id, rest: seq<Id>, order: seq<Id>, err: ProviderError)
    requires id !in rest && forall i :: i in order <==> i == id || i in rest
    ensures CleanedUp(CleanedUp(s, [id], err), rest, err) == CleanedUp(s, order, err)
  {
    assert CleanedUp(CleanedUp(s, [id], err), rest, err).host.chans == CleanedUp(s, order, err).host.chans;
    assert CleanedUp(CleanedUp(s, [id], err), rest, err).crash == CleanedUp(s, order, err).crash;
  }

  lemma LockRegionOf(s: System.Sys, a: System.Action, t: System.Sys)
    requires System.CleansUp(a) && System.Do(s, a) == Some(t)
    requires s.host.streams <= s.host.chans.Keys && s.crash.Keys !! s.host.streams
    ensures t.host == HostState({}, map[], s.host.chans)
    ensures t.crash.Keys == s.crash.Keys + s.host.streams
    ensures forall i :: i in t.crash ==>
      t.crash[i] == if i in s.host.streams then System.ToNotify(System.ReportOf(a)) else s.crash[i]
  {
  }

  lemma FailedAndForgotten(
      t: System.Sys, before: HostState, crash: map<Id, System.Crash>, order: seq<Id>, err: ProviderError)
    requires t.host == HostState({}, map[], before.chans) && crash.Keys !! before.streams
    requires t.crash.Keys == crash.Keys + before.streams && forall i :: i in crash ==> t.crash[i] == crash[i]
    requires forall i :: i in order <==> i in before.streams
    ensures CleanedUp(t, order, err) == t.(host := FailAll(before, err), crash := crash)
  {
    assert FailListed(before.chans, order, err) == FailAll(before, err).chans;
    assert CleanedUp(t, order, err).crash == crash;
  }

  /**
   * In the system, failActiveStreams is its lock region and then, in any order, notice and close of
   * every live stream.
   */
  lemma {:induction false} CleanUpIsSteps(s: System.Sys, a: System.Action, order: seq<Id>, t: System.Sys)
    requires System.CleansUp(a) && System.Do(s, a) == Some(t)
    requires s.host.streams <= s.host.chans.Keys && s.crash.Keys !! s.host.streams
    requires forall i, j :: 0 <= i < j < |order| ==> order[i] != order[j]
    requires forall i :: i in order <==> i in s.host.streams
    ensures System.Run(s, [a] + CleanUpSteps(order))
            == Some(t.(host := FailAll(s.host, System.ReportOf(a)), crash := s.crash))
  {
    LockRegionOf(s, a, t);
    System.RunOne(s, a, t, CleanUpSteps(order));
    CleanUpRun(t, order, System.ReportOf(a));
    FailedAndForgotten(t, s.host, s.crash, order, System.ReportOf(a));
  }

  class Instance {
    var streams: map<Id, Channel>
    var pending: map<Id, seq<StreamEvent>>
    /** Every channel that Stream ever handed out. */
    ghost var issued: map<Id, Channel>

    ghost predicate Valid()
      reads this, issued.Values
    {
      && (forall id :: id in streams ==> id in issued && issued[id] == streams[id] && !streams[id].closed)
      && (forall i, j :: i in issued && j in issued && i != j ==> issued[i] != issued[j])
      && (forall id :: id in streams ==> id !in pending)
    }

    /** The value that this object and its channels stand for. */
    ghost predicate Shows(h: HostState)
      reads this, issued.Values
    {
      && streams.Keys == h.streams && pending == h.pending && issued.Keys == h.chans.Keys
      && forall i :: i in issued ==> issued[i].Value() == h.chans[i]
    }

    /** There always is exactly one such value. */
    lemma ShowsOne() returns (h: HostState)
      requires Valid()
      ensures Shows(h) && forall g :: Shows(g) ==> g == h
    {
      h := HostState(streams.Keys, pending, map id | id in issued :: issued[id].Value());
      forall g | Shows(g) ensures g == h {
        assert g.chans == h.chans;
      }
    }

    constructor ()
      ensures Valid() && Shows(HostState({}, map[], map[]))
    {
      streams, pending, issued := map[], map[], map[];
    }

    /** The first lock region of Start: new tables. Channels that were in the old one stay as they are. */
    method EmptyTables(ghost h: HostState)
      requires Valid() && Shows(h)
      modifies this
      ensures Valid() && Shows(Snapshot(h)) && issued == old(issued)
    {
      streams := map[];
      pending := map[];
    }

    /** The lock region at the head of onNotify; a channel means that the event is still to be sent. */
    method NotifyLocked(id: Id, ev: StreamEvent, ghost h: HostState) returns (ch: Channel?)
      requires Valid() && Shows(h)
      modifies this
      ensures Valid() && Shows(ParkUnlessLive(h, id, ev)) && issued == old(issued)
      ensures (ch == null) == (id !in h.streams)
      ensures ch != null ==> id in issued && ch == issued[id]
    {
      if id in streams {
        ch := streams[id];
      } else {
        var parked := if id in pending then pending[id] else [];
        pending := pending[id := parked + [ev]];
        ch := null;
      }
    }

    method CloseStream(id: Id, ghost h: HostState)
      requires Valid() && Shows(h)
      modifies this, issued.Values
      ensures Valid() && Shows(Host.CloseStream(h, id)) && issued == old(issued)
    {
      if id in streams {
        var ch := streams[id];
        streams := Without(streams, id);
        ch.Close();
      }
      pending := Without(pending, id);
    }

    /** onNotify for a stream event, with nobody in between; false when its send blocks. */
    method OnNotify(id: Id, ev: StreamEvent, ghost h: HostState) returns (returned: bool)
      requires Valid() && Shows(h)
      modifies this, issued.Values
      ensures issued == old(issued) && (returned <==> NotifyAlone(h, id, ev).Some?)
      ensures returned ==> Valid() && Shows(NotifyAlone(h, id, ev).value)
    {
      var ch := NotifyLocked(id, ev, h);
      if ch == null {
        return true;
      }
      assert streams.Keys == h.streams && ch.Value() == h.chans[id];
      var outcome := ch.Send(FromPlugin(ev));
      if outcome.Blocked? {
        return false;
      }
      ghost var sent := h.(chans := h.chans[id := Host.Send(h.chans[id], FromPlugin(ev))]);
      assert Shows(sent);
      if Terminal(ev) {
        CloseStream(id, sent);
      }
      returned := true;
    }

    /**
     * The drain and the registration, in one lock region. Nobody reads the channel yet, so a
     * send that finds it full blocks for ever with the mutex held; null stands for that.
     */
    method Register(id: Id, ghost h: HostState) returns (ch: Channel?)
      requires Valid() && Shows(h) && id !in issued
      modifies this
      ensures Valid() && ((ch == null) == !DrainFits(h, id))
      ensures ch == null ==> Shows(h) && issued == old(issued)
      ensures ch != null ==> Shows(Host.Register(h, id)) && fresh(ch) && issued == old(issued)[id := ch]
    {
      var fill := new Channel();
      var parked := if id in pending then pending[id] else [];
      var fits, ended := fill.Fill(parked);
      if !fits {
        return null;
      }
      if ended {
        Retire(id, fill, h);
      } else {
        Publish(id, fill, h);
      }
      ch := fill;
    }

    /** What Stream does after the drain, if no parked event was terminal. */
    method Publish(id: Id, fill: Channel, ghost h: HostState)
      requires Valid() && Shows(h) && id !in issued && (forall i :: i in issued ==> issued[i] != fill) && !fill.closed
      modifies this
      ensures Valid() && issued == old(issued)[id := fill]
      ensures Shows(HostState(h.streams + {id}, Without(h.pending, id), h.chans[id := fill.Value()]))
    {
      pending := Without(pending, id);
      streams := streams[id := fill];
      issued := issued[id := fill];
    }

    /** And if one was: the channel is closed and never enters the table. */
    method Retire(id: Id, fill: Channel, ghost h: HostState)
      requires Valid() && Shows(h) && id !in issued && (forall i :: i in issued ==> issued[i] != fill) && !fill.closed
      modifies this, fill
      ensures Valid() && issued == old(issued)[id := fill]
      ensures Shows(HostState(h.streams, Without(h.pending, id), h.chans[id := Close(old(fill.Value()))]))
    {
      fill.Close();
      pending := Without(pending, id);
      issued := issued[id := fill];
    }

    /** Crash or stop: every live channel gets the failure notice, if it has room, and is closed. */
    method FailActiveStreams(err: ProviderError, ghost h: HostState)
      requires Valid() && Shows(h)
      modifies this, issued.Values
      ensures Valid() && Shows(FailAll(h, err)) && issued == old(issued)
    {
      var snapshot := streams;
      EmptyTables(h);
      FailSnapshot(snapshot, err, h);
    }

    /** The loop after the unlock, over the channels that the lock region took out. */
    method FailSnapshot(snapshot: map<Id, Channel>, err: ProviderError, ghost h: HostState)
      requires Valid() && streams == map[] && issued.Keys == h.chans.Keys
      requires forall i :: i in issued ==> issued[i].Value() == h.chans[i]
      requires forall i :: i in snapshot ==> i in issued && issued[i] == snapshot[i] && !snapshot[i].closed
      modifies issued.Values
      ensures forall i :: i in issued ==>
        issued[i].Value() == if i in snapshot then FailChan(h.chans[i], err) else h.chans[i]
    {
      var todo := snapshot.Keys;
      while todo != {}
        invariant todo <= snapshot.Keys
        invariant forall i :: i in issued ==>
          issued[i].Value() == if i in snapshot && i !in todo then FailChan(h.chans[i], err) else h.chans[i]
        decreases |todo|
      {
        var id :| id in todo;
        snapshot[id].Fail(err);
        todo := todo - {id};
      }
    }
  }
}
