/**
 * The invariants of one stream, over every interleaving with every other stream, with
 * cancels and crashes: where each emitted event is, who may close the channel, and what
 * a consumer can have received.
 */
module Delivery {
  import opened Wrappers
  import opened Events
  import opened Host
  import opened System
  import opened Stream

  /** The forwarder: what it has emitted and still will emit is what its handler's script calls for. */
  predicate ForwarderOk(p: Forwarder, hit: bool) {
    && (p.ended <==> HasTerminal(p.emitted))
    && (p.done ==> p.ended && p.left == [])
    && (!hit ==> p.emitted + ToCome(p) == Forwarded(p.script))
  }

  /** A stream the plugin has not opened has left no trace. */
  predicate Untouched(l: Local) {
    && l.wire == [] && !l.replySent && l.flight.NoFlight? && l.parked.None? && l.chan.None?
    && !l.live && l.crash.None? && l.lost == 0 && !l.orphan && !l.hit
  }

  /** The table holds a stream exactly while its handler has not answered or its forwarder has not returned. */
  predicate EntryOk(l: Local) {
    && (l.entry.listed <==> l.entry.starting || (l.plugin.Some? && !l.plugin.value.done))
    && (l.entry.starting ==> l.plugin.None? && !l.entry.refused)
    && (l.entry.refused ==> l.plugin.None?)
    && (!l.entry.listed && (l.entry.refused || l.plugin.Some?) ==> l.entry.cancelled)
  }

  /** A reply is sent once; only the end of the connection can lose it. */
  predicate RepliesOk(l: Local) {
    var here := l.replies + if l.replied then 1 else 0;
    var sent := if l.replySent then 1 else 0;
    here <= sent && (!l.dead ==> here == sent)
  }

  /**
   * Ownership: an open channel belongs to the `streams` table or to a crash clean-up, never to
   * both, unless a restart has dropped it; then it belongs to nobody, for ever.
   */
  predicate ChannelOk(l: Local) {
    && (l.live ==> l.chan.Some? && l.parked.None? && l.crash.None?)
    && (l.crash.Some? ==> l.chan.Some?)
    && (l.flight != NoFlight ==> l.chan.Some?)
    && (l.chan.Some? ==> l.replied && |l.chan.value.buf| <= CAPACITY)
    && (l.gaveUp ==> l.chan.None?)
    && (l.orphan ==> l.chan.Some? && !l.live && l.crash.None?)
    && (l.chan.Some? ==> (l.chan.value.closed <==> !l.live && l.crash.None? && !l.orphan))
  }

  /** What the plugin emitted, without the events a crash forgot before registration. */
  function Owed(l: Local): seq<StreamEvent>
    requires l.lost <= |l.Emitted()|
  {
    l.Emitted()[l.lost..]
  }

  /** These are all the events the plugin owes, or a beginning of them once the connection has ended. */
  predicate Accounts(l: Local, events: seq<StreamEvent>)
    requires l.lost <= |l.Emitted()|
  {
    events <= Owed(l) && (!l.dead ==> events == Owed(l))
  }

  /** Every emitted event is in exactly one place, in order, until somebody interferes with the channel. */
  predicate Conserved(l: Local) {
    && l.lost <= |l.Emitted()|
    && (l.chan.None? ==> Accounts(l, l.Parked() + l.wire))
    && (l.live ==> Accounts(l, Genuine(l.Channelled()) + l.Flying() + l.wire))
    && (!l.hit && l.chan.Some? ==>
          l.Emitted() == Genuine(l.Channelled()) + l.Flying() + l.Parked() + l.wire)
    && (l.crash.Some? || l.orphan ==> Genuine(l.Channelled()) + l.Flying() <= Owed(l))
    && (l.chan.Some? ==> Genuine(l.Channelled()) <= Owed(l))
  }

  /**
   * A live channel has seen no terminal event, except while the reader is about to close it;
   * only a drain can put events behind a terminal one, and it never puts more than fit.
   */
  predicate TerminalOk(l: Local) {
    && (l.live ==> (HasTerminal(Genuine(l.Channelled())) <==> l.flight.Closing?))
    && (!l.hit && l.chan.Some? && l.chan.value.closed ==> HasTerminal(Genuine(l.Channelled())))
    && (!l.hit && l.flight != NoFlight ==> l.live)
    && (!l.hit ==> EndsAtTerminal(Genuine(l.Channelled())) || |Genuine(l.Channelled())| <= CAPACITY)
  }

  /** A crash notice is sent at most once, and at most the one in-flight event can follow it. */
  predicate NoticeOk(l: Local) {
    && (l.live || (l.crash.Some? && l.crash.value.ToNotify?) ==> Notices(l.Channelled()) == 0)
    && Notices(l.Channelled()) <= 1
    && (Notices(l.Channelled()) == 1 ==> AfterNotice(l.Channelled()) + |l.Flying()| <= 1)
  }

  predicate UnhitOk(l: Local) {
    !l.hit ==> l.lost == 0 && l.crash.None? && !l.orphan && Notices(l.Channelled()) == 0 && (l.plugin.Some? ==> !l.dead)
  }

  predicate LInv(l: Local) {
    && (l.plugin.None? ==> Untouched(l))
    && (l.plugin.Some? ==> ForwarderOk(l.plugin.value, l.hit))
    && EntryOk(l)
    && RepliesOk(l)
    && ChannelOk(l)
    && Conserved(l)
    && TerminalOk(l)
    && NoticeOk(l)
    && UnhitOk(l)
  }

  // ---- every step keeps the invariant -----------------------------------------------

  lemma OpenKeeps(l: Local, script: seq<StreamEvent>)
    requires LInv(l) && LCan(l, LOpen(script))
    ensures LInv(LStep(l, LOpen(script)))
  {
  }

  lemma Assoc(a: seq<StreamEvent>, b: seq<StreamEvent>, c: seq<StreamEvent>)
    ensures a + (b + c) == (a + b) + c
  {
  }

  lemma ForwarderStepOk(p: Forwarder, hit: bool)
    requires ForwarderOk(p, hit) && !p.done
    ensures var (q, out) := ForwardStep(p);
            q.emitted == p.emitted + out && ToCome(p) == out + ToCome(q) && ForwarderOk(q, hit)
  {
    var (q, out) := ForwardStep(p);
    HasTerminalConcat(p.emitted, out);
    if p.left != [] {
      HasTerminalOne(p.left[0]);
      assert p.left == [p.left[0]] + p.left[1..];
      HasTerminalConcat([p.left[0]], p.left[1..]);
    } else if !p.ended {
      HasTerminalOne(SYNTHETIC_END);
    }
    Assoc(p.emitted, out, ToCome(q));
  }

  lemma ForwardEmits(p: Forwarder)
    requires !p.done
    ensures ForwardStep(p).0.emitted == p.emitted + ForwardStep(p).1
  {
    assert p.emitted + [] == p.emitted;
  }

  lemma ForwardOwes(l: Local)
    requires LCan(l, LForward) && l.lost <= |l.Emitted()|
    ensures var out, m := ForwardStep(l.plugin.value).1, LStep(l, LForward);
            && m.Emitted() == l.Emitted() + out && m.wire == l.wire + out
            && l.lost <= |m.Emitted()| && Owed(m) == Owed(l) + out
  {
    var out := ForwardStep(l.plugin.value).1;
    ForwardEmits(l.plugin.value);
    assert (l.Emitted() + out)[l.lost..] == Owed(l) + out;
  }

  lemma LongerWire(
      a: seq<StreamEvent>, wire: seq<StreamEvent>, out: seq<StreamEvent>, owed: seq<StreamEvent>)
    requires a + wire == owed
    ensures a + (wire + out) == owed + out
  {
  }

  lemma ForwardLocally(l: Local)
    requires LCan(l, LForward)
    ensures var m := LStep(l, LForward); m == l.(entry := m.entry, plugin := m.plugin, wire := m.wire)
    ensures LStep(l, LForward).Channelled() == l.Channelled()
  {
  }

  lemma ForwardsToUnregistered(l: Local)
    requires LInv(l) && LCan(l, LForward) && l.chan.None?
    ensures Conserved(LStep(l, LForward))
  {
    ForwardOwes(l);
    ForwardLocally(l);
    LongerWire(l.Parked(), l.wire, ForwardStep(l.plugin.value).1, Owed(l));
  }

  lemma ForwardsToRegistered(l: Local)
    requires LInv(l) && LCan(l, LForward) && l.chan.Some?
    ensures Conserved(LStep(l, LForward))
  {
    var out := ForwardStep(l.plugin.value).1;
    var got := Genuine(l.Channelled()) + l.Flying();
    ForwardOwes(l);
    ForwardLocally(l);
    if l.live {
      LongerWire(got, l.wire, out, Owed(l));
    }
    if !l.hit {
      LongerWire(got + l.Parked(), l.wire, out, l.Emitted());
    }
  }

  lemma ForwardConserves(l: Local)
    requires LInv(l) && LCan(l, LForward)
    ensures Conserved(LStep(l, LForward))
  {
    if l.chan.None? {
      ForwardsToUnregistered(l);
    } else {
      ForwardsToRegistered(l);
    }
  }

  lemma ForwardKeeps(l: Local)
    requires LInv(l) && LCan(l, LForward)
    ensures LInv(LStep(l, LForward))
  {
    ForwarderStepOk(l.plugin.value, l.hit);
    ForwardConserves(l);
    ForwardLocally(l);
  }

  lemma ReplyKeeps(l: Local, a: LocalAct)
    requires LInv(l) && LCan(l, a)
    requires a == Skip || a == LStart || a == LRefuse || a == LSendReply || a == LReadReply || a == LGiveUp
    ensures LInv(LStep(l, a))
  {
  }

  lemma InFlightOfWire(got: seq<StreamEvent>, wire: seq<StreamEvent>)
    requires wire != []
    ensures got + [wire[0]] + wire[1..] == got + [] + wire
    ensures got + [wire[0]] + [] + wire[1..] == got + [] + [] + wire
    ensures got + [wire[0]] <= got + [] + wire
  {
  }

  lemma ReadLiveConserves(l: Local)
    requires LInv(l) && LCan(l, LRead) && l.live
    ensures Conserved(LStep(l, LRead))
  {
    assert LStep(l, LRead) == l.(wire := l.wire[1..], flight := InFlight(l.wire[0]));
    TakenConserves(l);
  }

  lemma TakenConserves(l: Local)
    requires Conserved(l) && ChannelOk(l) && l.live && l.wire != [] && l.flight.NoFlight?
    ensures Conserved(l.(wire := l.wire[1..], flight := InFlight(l.wire[0])))
  {
    InFlightOfWire(Genuine(l.Channelled()), l.wire);
  }

  lemma ReadParksConserves(l: Local)
    requires LInv(l) && LCan(l, LRead) && !l.live
    ensures Conserved(LStep(l, LRead))
  {
    var m := LStep(l, LRead);
    var got, head := Genuine(l.Channelled()), [l.wire[0]];
    assert l.wire == head + m.wire;
    assert m.Channelled() == l.Channelled() && m.Emitted() == l.Emitted() && l.Flying() == [] && got + [] == got;
    Assoc(l.Parked(), head, m.wire);
    Assoc(got, l.Parked(), head);
    Assoc(got + l.Parked(), head, m.wire);
  }

  lemma ReadConserves(l: Local)
    requires LInv(l) && LCan(l, LRead)
    ensures Conserved(LStep(l, LRead))
  {
    if l.live {
      ReadLiveConserves(l);
    } else {
      ReadParksConserves(l);
    }
  }

  lemma ReadKeeps(l: Local)
    requires LInv(l) && LCan(l, LRead)
    ensures LInv(LStep(l, LRead))
  {
    ReadConserves(l);
    var m := LStep(l, LRead);
    assert m.Channelled() == l.Channelled() && m.plugin == l.plugin;
  }

  lemma {:induction false} AppendEffect(all: seq<Item>, item: Item)
    ensures var more := all + [item];
            && Genuine(more) == Genuine(all) + (if item.FromPlugin? then [item.ev] else [])
            && Notices(more) == Notices(all) + (if item.Notice? then 1 else 0)
            && AfterNotice(more) == (if Notices(all) > 0 then AfterNotice(all) + 1 else 0)
  {
    GenuineConcat(all, [item]);
    NoticesConcat(all, [item]);
    assert [item][1..] == [];
  }

  lemma TerminalEffect(evs: seq<StreamEvent>, ev: StreamEvent)
    ensures HasTerminal(evs + [ev]) <==> HasTerminal(evs) || Terminal(ev)
    ensures !HasTerminal(evs) ==> EndsAtTerminal(evs + [ev])
  {
    HasTerminalConcat(evs, [ev]);
    HasTerminalOne(ev);
  }

  lemma SendAppends(c: Chan, item: Item)
    requires !c.closed && |c.buf| < CAPACITY
    ensures Send(c, item).All() == TrySend(c, item).All() == c.All() + [item]
  {
    assert c.received + (c.buf + [item]) == c.received + c.buf + [item];
  }

  lemma PutAppends(l: Local)
    requires LInv(l) && LCan(l, LPut) && !l.chan.value.closed
    ensures var m := LStep(l, LPut);
            && m.Channelled() == l.Channelled() + [FromPlugin(l.flight.ev)]
            && Genuine(m.Channelled()) == Genuine(l.Channelled()) + [l.flight.ev]
  {
    SendAppends(l.chan.value, FromPlugin(l.flight.ev));
    AppendEffect(l.Channelled(), FromPlugin(l.flight.ev));
  }

  lemma PutOpenConserves(l: Local)
    requires LInv(l) && LCan(l, LPut) && !l.chan.value.closed
    ensures Conserved(LStep(l, LPut))
  {
    PutAppends(l);
    var got, ev := Genuine(l.Channelled()), [l.flight.ev];
    assert got + ev + [] == got + ev;
    assert l.lost <= |l.Emitted()| && LStep(l, LPut).Emitted() == l.Emitted();
    assert l.Flying() == ev && LStep(l, LPut).Flying() == [];
  }

  lemma PutKeeps(l: Local)
    requires LInv(l) && LCan(l, LPut)
    ensures LInv(LStep(l, LPut))
  {
    var m, ev := LStep(l, LPut), l.flight.ev;
    if l.chan.value.closed {
      assert m.Channelled() == l.Channelled();
    } else {
      PutAppends(l);
      PutOpenConserves(l);
      AppendEffect(l.Channelled(), FromPlugin(ev));
      TerminalEffect(Genuine(l.Channelled()), ev);
    }
  }

  lemma CloseKeeps(l: Local, a: LocalAct)
    requires LInv(l) && LCan(l, a) && (a == LFinish || a == LCancelClose)
    ensures LInv(LStep(l, a))
  {
  }

  lemma EnrollTakesAll(l: Local)
    requires LInv(l) && LCan(l, LEnroll)
    ensures var m := LStep(l, LEnroll);
            && Genuine(m.Channelled()) == l.Parked() && Notices(m.Channelled()) == 0
            && m.Emitted() == l.Emitted() && m.Flying() == [] && m.Parked() == []
  {
    GenuineTag(l.Parked());
    assert LStep(l, LEnroll).Channelled() == Tag(l.Parked());
  }

  lemma EnrollConserves(l: Local)
    requires LInv(l) && LCan(l, LEnroll)
    ensures Conserved(LStep(l, LEnroll))
  {
    EnrollTakesAll(l);
    assert l.Parked() + [] == l.Parked();
    assert !l.hit ==> l.Emitted() == Owed(l);
  }

  lemma EnrollKeeps(l: Local)
    requires LInv(l) && LCan(l, LEnroll)
    ensures LInv(LStep(l, LEnroll))
  {
    EnrollConserves(l);
    EnrollTakesAll(l);
    assert LStep(l, LEnroll).Channelled() == Tag(l.Parked());
  }

  lemma RecvTakes(l: Local)
    requires LCan(l, LRecv)
    ensures LStep(l, LRecv).Channelled() == l.Channelled()
    ensures LStep(l, LRecv) == l.(chan := LStep(l, LRecv).chan)
  {
    assert Receive(l.chan.value).All() == l.chan.value.All();
  }

  lemma RecvKeeps(l: Local)
    requires LInv(l) && LCan(l, LRecv)
    ensures LInv(LStep(l, LRecv))
  {
    RecvTakes(l);
    assert ChannelOk(LStep(l, LRecv));
  }

  lemma ShorterWire(a: seq<StreamEvent>, wire: seq<StreamEvent>, n: nat, owed: seq<StreamEvent>)
    requires a + wire <= owed && n <= |wire|
    ensures a + wire[..n] <= owed
  {
    assert a + wire == a + wire[..n] + wire[n..];
  }

  lemma DisconnectConserves(l: Local, notes: nat, replies: nat)
    requires LInv(l) && LCan(l, LDisconnect(notes, replies))
    ensures Conserved(LStep(l, LDisconnect(notes, replies)))
  {
    var m := LStep(l, LDisconnect(notes, replies));
    assert m == l.(dead := true, wire := l.wire[..notes], replies := replies, hit := m.hit);
    if l.chan.None? {
      ShorterWire(l.Parked(), l.wire, notes, Owed(l));
    }
    if l.live {
      ShorterWire(Genuine(l.Channelled()) + l.Flying(), l.wire, notes, Owed(l));
    }
  }

  lemma DisconnectKeeps(l: Local, notes: nat, replies: nat)
    requires LInv(l) && LCan(l, LDisconnect(notes, replies))
    ensures LInv(LStep(l, LDisconnect(notes, replies)))
  {
    DisconnectConserves(l, notes, replies);
    assert LStep(l, LDisconnect(notes, replies)).Channelled() == l.Channelled();
  }

  lemma CancelPluginKeeps(l: Local, rest: seq<StreamEvent>)
    requires LInv(l) && LCan(l, LCancelPlugin(rest))
    ensures LInv(LStep(l, LCancelPlugin(rest)))
  {
    var m := LStep(l, LCancelPlugin(rest));
    assert m == l.(entry := m.entry, plugin := m.plugin, hit := m.hit);
    assert m.Channelled() == l.Channelled() && m.Emitted() == l.Emitted();
  }

  lemma ParkedForgotten(parked: seq<StreamEvent>, wire: seq<StreamEvent>, owed: seq<StreamEvent>)
    requires parked + wire <= owed
    ensures |parked| <= |owed| && wire <= owed[|parked|..]
    ensures parked + wire == owed ==> wire == owed[|parked|..]
  {
    assert (parked + wire)[|parked|..] == wire;
  }

  /** Both lock regions that empty the tables: parked events of a stream that is not registered are written off. */
  lemma ForgettingOwes(l: Local)
    requires LInv(l) && l.chan.None?
    ensures LForgotten(l) <= |l.Emitted()| && l.Emitted()[LForgotten(l)..] == Owed(l)[|l.Parked()|..]
    ensures l.wire <= Owed(l)[|l.Parked()|..] && (!l.dead ==> l.wire == Owed(l)[|l.Parked()|..])
  {
    ParkedForgotten(l.Parked(), l.wire, Owed(l));
  }

  lemma FailConserves(l: Local, err: ProviderError)
    requires LInv(l)
    ensures Conserved(LStep(l, LFail(err)))
  {
    var m := LStep(l, LFail(err));
    assert m.Channelled() == l.Channelled() && m.Emitted() == l.Emitted() && m.Flying() == l.Flying();
    if l.chan.None? {
      ForgettingOwes(l);
      assert [] + m.wire == m.wire;
    }
  }

  lemma FailKeeps(l: Local, err: ProviderError)
    requires LInv(l)
    ensures LInv(LStep(l, LFail(err)))
  {
    FailConserves(l, err);
    var m := LStep(l, LFail(err));
    assert m.Channelled() == l.Channelled() && m.Flying() == l.Flying();
  }

  lemma NotifyKeeps(l: Local)
    requires LInv(l) && LCan(l, LNotifyCrash)
    ensures LInv(LStep(l, LNotifyCrash))
  {
    var item := Notice(l.crash.value.err);
    var m := LStep(l, LNotifyCrash);
    if m.chan != l.chan {
      SendAppends(l.chan.value, item);
      AppendEffect(l.Channelled(), item);
      assert Genuine(l.Channelled()) + [] == Genuine(l.Channelled());
    }
  }

  lemma RestartConserves(l: Local)
    requires LInv(l)
    ensures Conserved(LStep(l, LRestart))
  {
    var m := LStep(l, LRestart);
    assert m.Channelled() == l.Channelled() && m.Emitted() == l.Emitted() && m.Flying() == l.Flying();
    if l.chan.None? {
      ForgettingOwes(l);
      assert [] + m.wire == m.wire;
    }
  }

  lemma RestartKeeps(l: Local)
    requires LInv(l)
    ensures LInv(LStep(l, LRestart))
  {
    RestartConserves(l);
    var m := LStep(l, LRestart);
    assert m.Channelled() == l.Channelled() && m.Flying() == l.Flying();
  }

  lemma CloseCrashedKeeps(l: Local)
    requires LInv(l) && LCan(l, LCloseCrashed)
    ensures LInv(LStep(l, LCloseCrashed))
  {
  }

  lemma PluginSideKeeps(l: Local, a: LocalAct)
    requires LInv(l) && LCan(l, a)
    requires a.Skip? || a.LStart? || a.LRefuse? || a.LOpen? || a.LForward? || a.LSendReply? || a.LReadReply? ||
      a.LCancelPlugin?
    ensures LInv(LStep(l, a))
  {
    match a
    case LOpen(script) => OpenKeeps(l, script);
    case LForward => ForwardKeeps(l);
    case LCancelPlugin(rest) => CancelPluginKeeps(l, rest);
    case _ => ReplyKeeps(l, a);
  }

  lemma HostSideKeeps(l: Local, a: LocalAct)
    requires LInv(l) && LCan(l, a)
    requires a.LRead? || a.LPut? || a.LFinish? || a.LEnroll? || a.LGiveUp? || a.LRecv? || a.LCancelClose?
    ensures LInv(LStep(l, a))
  {
    match a
    case LRead => ReadKeeps(l);
    case LPut => PutKeeps(l);
    case LFinish => CloseKeeps(l, a);
    case LEnroll => EnrollKeeps(l);
    case LGiveUp => ReplyKeeps(l, a);
    case LRecv => RecvKeeps(l);
    case LCancelClose => CloseKeeps(l, a);
  }

  lemma EndKeeps(l: Local, a: LocalAct)
    requires LInv(l) && LCan(l, a)
    requires a.LDisconnect? || a.LFail? || a.LRestart? || a.LNotifyCrash? || a.LCloseCrashed?
    ensures LInv(LStep(l, a))
  {
    match a
    case LDisconnect(notes, replies) => DisconnectKeeps(l, notes, replies);
    case LFail(err) => FailKeeps(l, err);
    case LRestart => RestartKeeps(l);
    case LNotifyCrash => NotifyKeeps(l);
    case LCloseCrashed => CloseCrashedKeeps(l);
  }

  lemma LocalStepKeeps(l: Local, a: LocalAct)
    requires LInv(l) && LCan(l, a)
    ensures LInv(LStep(l, a))
  {
    if a.Skip? || a.LStart? || a.LRefuse? || a.LOpen? || a.LForward? || a.LSendReply? || a.LReadReply? ||
       a.LCancelPlugin? {
      PluginSideKeeps(l, a);
    } else if a.LRead? || a.LPut? || a.LFinish? || a.LEnroll? || a.LGiveUp? || a.LRecv? || a.LCancelClose? {
      HostSideKeeps(l, a);
    } else {
      EndKeeps(l, a);
    }
  }

  // ---- what a step can change ----------------------------------------------------------

  lemma ClosedAtHost(l: Local, a: LocalAct)
    requires LCan(l, a) && l.chan.Some? && (a.LRead? || a.LPut? || a.LEnroll? || a.LGiveUp? || a.LRecv?)
    ensures LStep(l, a).chan.Some? && LStep(l, a).chan.value.closed == l.chan.value.closed
  {
  }

  lemma ClosedAtEnd(l: Local, a: LocalAct)
    requires LCan(l, a) && l.chan.Some? && (a.LDisconnect? || a.LFail? || a.LRestart? || a.LNotifyCrash?)
    ensures LStep(l, a).chan.Some? && LStep(l, a).chan.value.closed == l.chan.value.closed
  {
  }

  /**
   * Exactly three steps close a channel: the two closeStream callers while the stream is live, and
   * the crash clean-up.
   */
  lemma LocalCloses(l: Local, a: LocalAct)
    requires LInv(l) && LCan(l, a) && l.chan.Some?
    ensures LStep(l, a).chan.Some?
    ensures l.chan.value.closed ==> LStep(l, a).chan.value.closed
    ensures (!l.chan.value.closed && LStep(l, a).chan.value.closed)
            <==> ((a.LFinish? || a.LCancelClose?) && l.live) || a.LCloseCrashed?
  {
    if a.Skip? || a.LStart? || a.LRefuse? || a.LOpen? || a.LForward? || a.LSendReply? || a.LReadReply? ||
       a.LCancelPlugin? {
      PluginActKeeps(l, a);
    } else if a.LFinish? || a.LCancelClose? || a.LCloseCrashed? {
      assert ChannelOk(l);
    } else if a.LRead? || a.LPut? || a.LFinish? || a.LEnroll? || a.LGiveUp? || a.LRecv? || a.LCancelClose? {
      ClosedAtHost(l, a);
    } else {
      ClosedAtEnd(l, a);
    }
  }

  // ---- runs ---------------------------------------------------------------------------

  lemma {:induction false} RunKeeps(s: Sys, acts: seq<Action>, t: Sys, id: Id)
    requires LInv(Project(s, id)) && Run(s, acts) == Some(t)
    ensures LInv(Project(t, id))
    decreases |acts|
  {
    if acts != [] {
      var u := Do(s, acts[0]).value;
      StepProjects(s, acts[0], u, id);
      LocalStepKeeps(Project(s, id), ActOn(s, acts[0], id));
      RunKeeps(u, acts[1..], t, id);
    }
  }
}
