/**
 * One stream's view of the system. Every step of the whole system is, for each stream,
 * one step of a small machine without maps or other streams; the invariants are stated
 * and proved on that machine.
 */
module Stream {
  import opened Wrappers
  import opened Events
  import opened Host
  import opened System

  datatype Flight = NoFlight | InFlight(ev: StreamEvent) | Closing

  /** The plugin server's view of a stream. */
  datatype Entry = Entry(starting: bool, refused: bool, listed: bool, cancelled: bool)

  /** Everything in the system that belongs to one stream, and whether the connection has ended. */
  datatype Local = Local(
    entry: Entry,
    dead: bool,
    plugin: Option<Forwarder>,
    wire: seq<StreamEvent>,
    replies: nat,
    replySent: bool,
    replied: bool,
    gaveUp: bool,
    flight: Flight,
    parked: Option<seq<StreamEvent>>,
    chan: Option<Chan>,
    live: bool,
    crash: Option<Crash>,
    lost: nat,
    orphan: bool,
    hit: bool)
  {
    function Emitted(): seq<StreamEvent> {
      if plugin.Some? then plugin.value.emitted else []
    }

    function Parked(): seq<StreamEvent> {
      if parked.Some? then parked.value else []
    }

    function Flying(): seq<StreamEvent> {
      if flight.InFlight? then [flight.ev] else []
    }

    /** Everything that ever entered the channel. */
    function Channelled(): seq<Item> {
      if chan.Some? then chan.value.All() else []
    }
  }

  datatype LocalAct =
    | Skip
    | LStart
    | LRefuse
    | LOpen(script: seq<StreamEvent>)
    | LForward
    | LSendReply
    | LReadReply
    | LRead
    | LPut
    | LFinish
    | LEnroll
    | LGiveUp
    | LRecv
    | LCancelPlugin(rest: seq<StreamEvent>)
    | LCancelClose
    | LDisconnect(notes: nat, replies: nat)
    | LFail(err: ProviderError)
    | LRestart
    | LNotifyCrash
    | LCloseCrashed

  function NotesOf(wire: seq<Message>, id: Id): seq<StreamEvent> {
    if wire == [] then []
    else (if wire[0].Note? && wire[0].id == id then [wire[0].ev] else []) + NotesOf(wire[1..], id)
  }

  function RepliesOf(wire: seq<Message>, id: Id): nat {
    if wire == [] then 0
    else (if wire[0] == Reply(id) then 1 else 0) + RepliesOf(wire[1..], id)
  }

  function Get<V>(m: map<Id, V>, id: Id): Option<V> {
    if id in m then Some(m[id]) else None
  }

  function FlightOf(r: Reader, id: Id): Flight {
    match r
    case Idle => NoFlight
    case Sending(i, ev) => if i == id then InFlight(ev) else NoFlight
    case Finishing(i) => if i == id then Closing else NoFlight
  }

  function Project(s: Sys, id: Id): Local {
    Local(
      Entry(id in s.starting, id in s.refused, id in s.server.streams, id in s.server.cancelled),
      s.process.dead,
      Get(s.plugin, id),
      NotesOf(s.wire, id),
      RepliesOf(s.wire, id),
      id in s.replySent,
      id in s.replied,
      id in s.gaveUp,
      FlightOf(s.reader, id),
      Get(s.host.pending, id),
      Get(s.host.chans, id),
      id in s.host.streams,
      Get(s.crash, id),
      Lost(s, id),
      id in s.orphans,
      id in s.hit)
  }

  /** The end of the connection, as one stream sees it: how many of its own messages are still read. */
  function LossOf(wire: seq<Message>, keep: nat, id: Id): LocalAct {
    if keep > |wire| then Skip else LDisconnect(|NotesOf(wire[..keep], id)|, RepliesOf(wire[..keep], id))
  }

  /** What the step `a` of the system is for the stream `id`. */
  function ActOn(s: Sys, a: Action, id: Id): LocalAct {
    match a
    case Start(i) => if i == id then LStart else Skip
    case Refuse(i) => if i == id then LRefuse else Skip
    case Open(i, script) => if i == id then LOpen(script) else Skip
    case Forward(i) => if i == id then LForward else Skip
    case SendReply(i) => if i == id then LSendReply else Skip
    case Read =>
      if s.wire == [] || s.wire[0].id != id then Skip
      else if s.wire[0].Note? then LRead else LReadReply
    case Put => if s.reader.Sending? && s.reader.id == id then LPut else Skip
    case Finish => if s.reader.Finishing? && s.reader.id == id then LFinish else Skip
    case Enroll(i) => if i == id && DrainFits(s.host, id) then LEnroll else Skip
    case GiveUp(i) => if i == id then LGiveUp else Skip
    case Recv(i) => if i == id then LRecv else Skip
    case CancelPlugin(i, rest) => if i == id && id in s.server.streams then LCancelPlugin(rest) else Skip
    case CancelClose(i) => if i == id then LCancelClose else Skip
    case Crash(keep) => LossOf(s.wire, keep, id)
    case HangUp(keep) => LossOf(s.wire, keep, id)
    case Watch => Skip
    case Sweep => LFail(CRASHED)
    case Stop => LFail(STOPPED)
    case Recheck => Skip
    case Restart => LRestart
    case NextCrash => Skip
    case NotifyCrash(i) => if i == id then LNotifyCrash else Skip
    case CloseCrashed(i) => if i == id then LCloseCrashed else Skip
  }

  function LClose(l: Local, flight: Flight, hit: bool): Local {
    l.(flight := flight,
       hit := hit,
       parked := None,
       live := l.live && l.chan.None?,
       chan := if l.live && l.chan.Some? then Some(Close(l.chan.value)) else l.chan)
  }

  function LForgotten(l: Local): nat { if l.chan.Some? then l.lost else l.lost + |l.Parked()| }

  predicate LCan(l: Local, a: LocalAct) {
    match a
    case Skip => true
    case LStart => !l.dead && !l.entry.starting && !l.entry.refused && l.plugin.None?
    case LRefuse => !l.dead && l.entry.starting
    case LOpen(script) => !l.dead && l.entry.starting && l.plugin.None?
    case LForward => !l.dead && l.plugin.Some? && !l.plugin.value.done
    case LSendReply => !l.dead && l.plugin.Some? && !l.replySent
    case LReadReply => l.replies > 0
    case LRead => l.wire != [] && l.flight.NoFlight?
    case LPut => l.flight.InFlight? && l.chan.Some? && !SendBlocks(l.chan.value)
    case LFinish => l.flight.Closing?
    case LEnroll => l.replied && !l.gaveUp && l.chan.None? && |l.Parked()| <= CAPACITY
    case LGiveUp => l.chan.None?
    case LRecv => l.chan.Some? && l.chan.value.buf != []
    case LCancelPlugin(rest) => !l.dead && l.entry.listed
    case LCancelClose => l.chan.Some?
    case LDisconnect(notes, replies) => !l.dead && notes <= |l.wire| && replies <= l.replies
    case LFail(err) => true
    case LRestart => true
    case LNotifyCrash => l.crash.Some? && l.crash.value.ToNotify? && l.chan.Some?
    case LCloseCrashed => l.crash.Some? && l.crash.value.ToClose? && l.chan.Some?
  }

  function LForwarded(l: Local): Local
    requires l.plugin.Some? && !l.plugin.value.done
  {
    var (p, out) := ForwardStep(l.plugin.value);
    l.(entry := if p.done then l.entry.(listed := false, cancelled := true) else l.entry,
       plugin := Some(p),
       wire := l.wire + out)
  }

  function LReadNote(l: Local): Local
    requires l.wire != []
  {
    l.(wire := l.wire[1..],
       flight := if l.live then InFlight(l.wire[0]) else l.flight,
       parked := if l.live then l.parked else Some(l.Parked() + [l.wire[0]]))
  }

  function LSent(l: Local): Local
    requires l.flight.InFlight? && l.chan.Some? && !SendBlocks(l.chan.value)
  {
    l.(chan := Some(Send(l.chan.value, FromPlugin(l.flight.ev))),
       flight := if Terminal(l.flight.ev) then Closing else NoFlight)
  }

  function LRegistered(l: Local): Local {
    var ended := HasTerminal(l.Parked());
    l.(parked := None, live := l.live || !ended, chan := Some(Chan(Tag(l.Parked()), ended, [])))
  }

  function LReceived(l: Local): Local
    requires l.chan.Some? && l.chan.value.buf != []
  {
    l.(chan := Some(Receive(l.chan.value)))
  }

  function LCancelled(l: Local, rest: seq<StreamEvent>): Local {
    var running := l.plugin.Some? && !l.plugin.value.done;
    l.(entry := l.entry.(cancelled := true),
       plugin := if running then Some(l.plugin.value.(left := rest)) else l.plugin,
       hit := l.hit || running)
  }

  function LDisconnected(l: Local, notes: nat, replies: nat): Local
    requires notes <= |l.wire|
  {
    l.(dead := true, wire := l.wire[..notes], replies := replies, hit := l.hit || l.plugin.Some?)
  }

  function LFailed(l: Local, err: ProviderError): Local {
    l.(live := false,
       parked := None,
       crash := if l.live then Some(ToNotify(err)) else l.crash,
       lost := LForgotten(l),
       hit := l.hit || l.plugin.Some?)
  }

  function LRestarted(l: Local): Local {
    l.(live := false,
       parked := None,
       lost := LForgotten(l),
       orphan := l.orphan || l.live,
       hit := l.hit || l.plugin.Some?)
  }

  function LNotified(l: Local): Local
    requires l.crash.Some? && l.crash.value.ToNotify? && l.chan.Some?
  {
    l.(chan := Some(TrySend(l.chan.value, Notice(l.crash.value.err))), crash := Some(ToClose))
  }

  function LStep(l: Local, a: LocalAct): Local
    requires LCan(l, a)
  {
    match a
    case Skip => l
    case LStart => l.(entry := l.entry.(starting := true, listed := true))
    case LRefuse => l.(entry := Entry(false, true, false, true))
    case LOpen(script) =>
      l.(entry := l.entry.(starting := false), plugin := Some(Forwarder(script, script, [], false, false)))
    case LForward => LForwarded(l)
    case LSendReply => l.(replySent := true, replies := l.replies + 1)
    case LReadReply => l.(replied := true, replies := l.replies - 1)
    case LRead => LReadNote(l)
    case LPut => LSent(l)
    case LFinish => LClose(l, NoFlight, l.hit)
    case LEnroll => LRegistered(l)
    case LGiveUp => l.(gaveUp := true)
    case LRecv => LReceived(l)
    case LCancelPlugin(rest) => LCancelled(l, rest)
    case LCancelClose => LClose(l, l.flight, true)
    case LDisconnect(notes, replies) => LDisconnected(l, notes, replies)
    case LFail(err) => LFailed(l, err)
    case LRestart => LRestarted(l)
    case LNotifyCrash => LNotified(l)
    case LCloseCrashed => l.(chan := Some(Close(l.chan.value)), crash := None)
  }

  lemma {:induction false} NotesOfConcat(a: seq<Message>, b: seq<Message>, id: Id)
    ensures NotesOf(a + b, id) == NotesOf(a, id) + NotesOf(b, id)
    ensures RepliesOf(a + b, id) == RepliesOf(a, id) + RepliesOf(b, id)
  {
    if a == [] {
      assert a + b == b;
    } else {
      assert (a + b)[0] == a[0] && (a + b)[1..] == a[1..] + b;
      NotesOfConcat(a[1..], b, id);
      var first := if a[0].Note? && a[0].id == id then [a[0].ev] else [];
      assert first + (NotesOf(a[1..], id) + NotesOf(b, id)) == (first + NotesOf(a[1..], id)) + NotesOf(b, id);
    }
  }

  lemma {:induction false} NotesOfNotes(i: Id, evs: seq<StreamEvent>, id: Id)
    ensures NotesOf(Notes(i, evs), id) == if i == id then evs else []
    ensures RepliesOf(Notes(i, evs), id) == 0
  {
    if evs != [] {
      assert Notes(i, evs)[1..] == Notes(i, evs[1..]);
      NotesOfNotes(i, evs[1..], id);
    }
  }

  lemma {:induction false} WrittenProjects(wire: seq<Message>, i: Id, out: seq<StreamEvent>, id: Id)
    ensures NotesOf(wire + Notes(i, out), id) == NotesOf(wire, id) + if i == id then out else []
    ensures i != id ==> NotesOf(wire + Notes(i, out), id) == NotesOf(wire, id)
    ensures RepliesOf(wire + Notes(i, out), id) == RepliesOf(wire, id)
  {
    NotesOfConcat(wire, Notes(i, out), id);
    NotesOfNotes(i, out, id);
  }

  lemma OwnForwardProjects(s: Sys, t: Sys, id: Id)
    requires Do(s, Forward(id)) == Some(t)
    ensures LCan(Project(s, id), LForward) && Project(t, id) == LStep(Project(s, id), LForward)
  {
    WrittenProjects(s.wire, id, ForwardStep(s.plugin[id]).1, id);
  }

  lemma ForwardProjects(s: Sys, i: Id, t: Sys, id: Id)
    requires Do(s, Forward(i)) == Some(t)
    ensures LCan(Project(s, id), ActOn(s, Forward(i), id))
    ensures Project(t, id) == LStep(Project(s, id), ActOn(s, Forward(i), id))
  {
    if i == id {
      OwnForwardProjects(s, t, id);
    } else {
      WrittenProjects(s.wire, i, ForwardStep(s.plugin[i]).1, id);
    }
  }

  lemma SendReplyProjects(s: Sys, i: Id, t: Sys, id: Id)
    requires Do(s, SendReply(i)) == Some(t)
    ensures LCan(Project(s, id), ActOn(s, SendReply(i), id))
    ensures Project(t, id) == LStep(Project(s, id), ActOn(s, SendReply(i), id))
  {
    NotesOfConcat(s.wire, [Reply(i)], id);
    assert NotesOf([Reply(i)], id) == [] && RepliesOf([Reply(i)], id) == if i == id then 1 else 0;
    assert NotesOf(s.wire, id) + [] == NotesOf(s.wire, id);
  }

  lemma ReadReplyProjects(s: Sys, t: Sys, id: Id)
    requires Do(s, Read) == Some(t) && s.wire[0].Reply?
    ensures LCan(Project(s, id), ActOn(s, Read, id))
    ensures Project(t, id) == LStep(Project(s, id), ActOn(s, Read, id))
  {
    var i := s.wire[0].id;
    assert t == s.(wire := s.wire[1..], replied := s.replied + {i});
    assert NotesOf(s.wire, id) == [] + NotesOf(s.wire[1..], id);
  }

  lemma {:induction false} HeadNote(s: Sys, id: Id)
    requires s.wire != [] && s.wire[0].Note?
    ensures RepliesOf(s.wire[1..], id) == RepliesOf(s.wire, id)
    ensures s.wire[0].id == id ==> NotesOf(s.wire, id) != [] && NotesOf(s.wire, id)[0] == s.wire[0].ev
    ensures NotesOf(s.wire[1..], id) == if s.wire[0].id == id then NotesOf(s.wire, id)[1..] else NotesOf(s.wire, id)
  {
  }

  lemma ParkProjects(h: HostState, i: Id, ev: StreamEvent, id: Id)
    ensures var g := ParkUnlessLive(h, i, ev);
            && g.streams == h.streams && g.chans == h.chans
            && Get(g.pending, id)
               == if i == id && i !in h.streams then Some(h.Pending(id) + [ev]) else Get(h.pending, id)
  {
  }

  lemma ReadNoteProjects(s: Sys, t: Sys, id: Id)
    requires Do(s, Read) == Some(t) && s.wire[0].Note?
    ensures LCan(Project(s, id), ActOn(s, Read, id))
    ensures Project(t, id) == LStep(Project(s, id), ActOn(s, Read, id))
  {
    if s.wire[0].id in s.host.streams {
      TakeNoteProjects(s, t, id);
    } else {
      ParkNoteProjects(s, t, id);
    }
  }

  lemma TakeNoteProjects(s: Sys, t: Sys, id: Id)
    requires s.wire != [] && s.wire[0].Note? && s.reader == Idle && s.wire[0].id in s.host.streams
    requires t == s.(wire := s.wire[1..], reader := Sending(s.wire[0].id, s.wire[0].ev))
    ensures LCan(Project(s, id), ActOn(s, Read, id))
    ensures Project(t, id) == LStep(Project(s, id), ActOn(s, Read, id))
  {
  }

  lemma ParkNoteProjects(s: Sys, t: Sys, id: Id)
    requires s.wire != [] && s.wire[0].Note? && s.reader == Idle && s.wire[0].id !in s.host.streams
    requires t == s.(wire := s.wire[1..], host := ParkUnlessLive(s.host, s.wire[0].id, s.wire[0].ev))
    ensures LCan(Project(s, id), ActOn(s, Read, id))
    ensures Project(t, id) == LStep(Project(s, id), ActOn(s, Read, id))
  {
    HeadNote(s, id);
    ParkProjects(s.host, s.wire[0].id, s.wire[0].ev, id);
    if s.wire[0].id == id {
      OwnNoteProjects(s, t, id);
    }
  }

  lemma OwnNoteProjects(s: Sys, t: Sys, id: Id)
    requires s.wire != [] && s.wire[0].Note? && s.wire[0].id == id && s.reader == Idle && id !in s.host.streams
    requires t == s.(wire := s.wire[1..], host := ParkUnlessLive(s.host, id, s.wire[0].ev))
    ensures LCan(Project(s, id), LRead) && Project(t, id) == LStep(Project(s, id), LRead)
  {
    HeadNote(s, id);
    ParkProjects(s.host, id, s.wire[0].ev, id);
    assert s.host.Pending(id) == Project(s, id).Parked();
  }

  lemma CloseProjects(h: HostState, i: Id, id: Id)
    ensures var g := CloseStream(h, i);
            && (id in g.streams <==> id in h.streams && !(i == id && id in h.chans))
            && Get(g.pending, id) == (if i == id then None else Get(h.pending, id))
            && Get(g.chans, id) == if i == id && id in h.chans && id in h.streams
                                   then Some(Close(h.chans[id])) else Get(h.chans, id)
  {
  }

  lemma RegisterProjects(h: HostState, i: Id, id: Id)
    requires DrainFits(h, i)
    ensures var g := Register(h, i);
            && (id in g.streams <==> id in h.streams || (i == id && !HasTerminal(h.Pending(i))))
            && Get(g.pending, id) == (if i == id then None else Get(h.pending, id))
            && Get(g.chans, id) == if i == id
                                   then Some(Chan(Tag(h.Pending(i)), HasTerminal(h.Pending(i)), []))
                                   else Get(h.chans, id)
  {
  }

  lemma EnrollProjects(s: Sys, i: Id, t: Sys, id: Id)
    requires Do(s, Enroll(i)) == Some(t)
    ensures LCan(Project(s, id), ActOn(s, Enroll(i), id))
    ensures Project(t, id) == LStep(Project(s, id), ActOn(s, Enroll(i), id))
  {
    if DrainFits(s.host, i) {
      RegisteredProjects(s, i, id);
    } else {
      assert t == s.(jam := Some(i));
    }
  }

  lemma RegisteredProjects(s: Sys, i: Id, id: Id)
    requires i in s.replied && i !in s.gaveUp && i !in s.host.chans && DrainFits(s.host, i)
    ensures LCan(Project(s, id), ActOn(s, Enroll(i), id))
    ensures Project(s.(host := Register(s.host, i)), id) == LStep(Project(s, id), ActOn(s, Enroll(i), id))
  {
    assert s.host.Pending(id) == Project(s, id).Parked();
    RegisterProjects(s.host, i, id);
  }

  lemma FailProjects(s: Sys, err: ProviderError, p: Process, id: Id)
    requires p.dead == s.process.dead
    ensures Project(FailStreams(s, err, p), id) == LStep(Project(s, id), LFail(err))
  {
    assert s.host.Pending(id) == Project(s, id).Parked();
  }

  lemma EmptyProjects(s: Sys, p: Process, id: Id)
    requires p.dead == s.process.dead
    ensures Project(EmptyTables(s, p), id) == LStep(Project(s, id), LRestart)
  {
    assert s.host.Pending(id) == Project(s, id).Parked();
  }

  lemma DisconnectProjects(s: Sys, keep: nat, id: Id)
    requires keep <= |s.wire| && !s.process.dead
    ensures LCan(Project(s, id), LossOf(s.wire, keep, id))
    ensures Project(Disconnect(s, keep), id) == LStep(Project(s, id), LossOf(s.wire, keep, id))
  {
    var kept := NotesOf(s.wire[..keep], id);
    assert s.wire == s.wire[..keep] + s.wire[keep..];
    NotesOfConcat(s.wire[..keep], s.wire[keep..], id);
    assert NotesOf(s.wire, id)[..|kept|] == kept;
  }

  lemma CancelHandlerProjects(s: Sys, i: Id, rest: seq<StreamEvent>, id: Id)
    requires !s.process.dead && i in s.server.streams && i in s.plugin && !s.plugin[i].done
    ensures var t := CancelHandler(s, i, rest);
            Project(t, id) == if i == id then LStep(Project(s, id), LCancelPlugin(rest)) else Project(s, id)
  {
  }

  lemma CancelIdleProjects(s: Sys, i: Id, rest: seq<StreamEvent>, id: Id)
    requires !s.process.dead && i in s.server.streams && (i !in s.plugin || s.plugin[i].done)
    ensures var t := CancelHandler(s, i, rest);
            Project(t, id) == if i == id then LStep(Project(s, id), LCancelPlugin(rest)) else Project(s, id)
  {
  }

  lemma CancelPluginProjects(s: Sys, i: Id, rest: seq<StreamEvent>, t: Sys, id: Id)
    requires Do(s, CancelPlugin(i, rest)) == Some(t)
    ensures LCan(Project(s, id), ActOn(s, CancelPlugin(i, rest), id))
    ensures Project(t, id) == LStep(Project(s, id), ActOn(s, CancelPlugin(i, rest), id))
  {
    if i !in s.server.streams {
      assert t == s;
    } else if i in s.plugin && !s.plugin[i].done {
      CancelHandlerProjects(s, i, rest, id);
    } else {
      CancelIdleProjects(s, i, rest, id);
    }
  }

  lemma CancelProjects(s: Sys, i: Id, t: Sys, id: Id)
    requires Do(s, CancelClose(i)) == Some(t)
    ensures LCan(Project(s, id), ActOn(s, CancelClose(i), id))
    ensures Project(t, id) == LStep(Project(s, id), ActOn(s, CancelClose(i), id))
  {
    CloseProjects(s.host, i, id);
  }

  lemma FinishProjects(s: Sys, t: Sys, id: Id)
    requires Do(s, Finish) == Some(t)
    ensures LCan(Project(s, id), ActOn(s, Finish, id))
    ensures Project(t, id) == LStep(Project(s, id), ActOn(s, Finish, id))
  {
    FinishedProjects(s, s.reader.id, id);
  }

  lemma FinishedProjects(s: Sys, i: Id, id: Id)
    requires s.reader == Finishing(i)
    ensures LCan(Project(s, id), if i == id then LFinish else Skip)
    ensures Project(s.(reader := Idle, host := CloseStream(s.host, i)), id)
            == LStep(Project(s, id), if i == id then LFinish else Skip)
  {
    CloseProjects(s.host, i, id);
  }

  lemma NotifyCrashProjects(s: Sys, i: Id, t: Sys, id: Id)
    requires Do(s, NotifyCrash(i)) == Some(t)
    ensures LCan(Project(s, id), ActOn(s, NotifyCrash(i), id))
    ensures Project(t, id) == LStep(Project(s, id), ActOn(s, NotifyCrash(i), id))
  {
  }

  lemma CloseCrashedProjects(s: Sys, i: Id, t: Sys, id: Id)
    requires Do(s, CloseCrashed(i)) == Some(t)
    ensures LCan(Project(s, id), ActOn(s, CloseCrashed(i), id))
    ensures Project(t, id) == LStep(Project(s, id), ActOn(s, CloseCrashed(i), id))
  {
    assert Get(t.crash, id) == if i == id then None else Get(s.crash, id);
    assert Get(t.host.chans, id) == if i == id then Some(Close(s.host.chans[i])) else Get(s.host.chans, id);
  }

  lemma StartProjects(s: Sys, i: Id, t: Sys, id: Id)
    requires Do(s, Start(i)) == Some(t)
    ensures LCan(Project(s, id), ActOn(s, Start(i), id))
    ensures Project(t, id) == LStep(Project(s, id), ActOn(s, Start(i), id))
  {
  }

  lemma RefuseProjects(s: Sys, i: Id, t: Sys, id: Id)
    requires Do(s, Refuse(i)) == Some(t)
    ensures LCan(Project(s, id), ActOn(s, Refuse(i), id))
    ensures Project(t, id) == LStep(Project(s, id), ActOn(s, Refuse(i), id))
  {
  }

  lemma OpenProjects(s: Sys, i: Id, script: seq<StreamEvent>, t: Sys, id: Id)
    requires Do(s, Open(i, script)) == Some(t)
    ensures LCan(Project(s, id), ActOn(s, Open(i, script), id))
    ensures Project(t, id) == LStep(Project(s, id), ActOn(s, Open(i, script), id))
  {
  }

  lemma PutProjects(s: Sys, t: Sys, id: Id)
    requires Do(s, Put) == Some(t)
    ensures LCan(Project(s, id), ActOn(s, Put, id))
    ensures Project(t, id) == LStep(Project(s, id), ActOn(s, Put, id))
  {
  }

  lemma RecvProjects(s: Sys, i: Id, t: Sys, id: Id)
    requires Do(s, Recv(i)) == Some(t)
    ensures LCan(Project(s, id), ActOn(s, Recv(i), id))
    ensures Project(t, id) == LStep(Project(s, id), ActOn(s, Recv(i), id))
  {
  }

  lemma GiveUpProjects(s: Sys, i: Id, t: Sys, id: Id)
    requires Do(s, GiveUp(i)) == Some(t)
    ensures LCan(Project(s, id), ActOn(s, GiveUp(i), id))
    ensures Project(t, id) == LStep(Project(s, id), ActOn(s, GiveUp(i), id))
  {
  }

  /** What `watch` does without touching the tables. */
  lemma WatcherProjects(s: Sys, a: Action, t: Sys, id: Id)
    requires Do(s, a) == Some(t) && (a == Watch || a == Recheck || a == NextCrash)
    ensures ActOn(s, a, id) == Skip && Project(t, id) == Project(s, id)
  {
    assert t == s.(process := t.process) && t.process.dead == s.process.dead;
  }

  lemma PluginStepProjects(s: Sys, a: Action, t: Sys, id: Id)
    requires Do(s, a) == Some(t)
    requires a.Start? || a.Refuse? || a.Open? || a.Forward? || a.SendReply? || a.CancelPlugin?
    ensures LCan(Project(s, id), ActOn(s, a, id))
    ensures Project(t, id) == LStep(Project(s, id), ActOn(s, a, id))
  {
    match a
    case Start(i) => StartProjects(s, i, t, id);
    case Refuse(i) => RefuseProjects(s, i, t, id);
    case Open(i, script) => OpenProjects(s, i, script, t, id);
    case Forward(i) => ForwardProjects(s, i, t, id);
    case SendReply(i) => SendReplyProjects(s, i, t, id);
    case CancelPlugin(i, rest) => CancelPluginProjects(s, i, rest, t, id);
  }

  lemma StreamStepProjects(s: Sys, a: Action, t: Sys, id: Id)
    requires Do(s, a) == Some(t)
    requires a.Read? || a.Put? || a.Finish? || a.Enroll? || a.GiveUp? || a.Recv? || a.CancelClose?
    ensures LCan(Project(s, id), ActOn(s, a, id))
    ensures Project(t, id) == LStep(Project(s, id), ActOn(s, a, id))
  {
    match a
    case Read => ReadProjects(s, t, id);
    case Put => PutProjects(s, t, id);
    case Finish => FinishProjects(s, t, id);
    case Enroll(i) => EnrollProjects(s, i, t, id);
    case GiveUp(i) => GiveUpProjects(s, i, t, id);
    case Recv(i) => RecvProjects(s, i, t, id);
    case CancelClose(i) => CancelProjects(s, i, t, id);
  }

  lemma ReadProjects(s: Sys, t: Sys, id: Id)
    requires Do(s, Read) == Some(t)
    ensures LCan(Project(s, id), ActOn(s, Read, id))
    ensures Project(t, id) == LStep(Project(s, id), ActOn(s, Read, id))
  {
    if s.wire[0].Note? {
      ReadNoteProjects(s, t, id);
    } else {
      ReadReplyProjects(s, t, id);
    }
  }

  lemma InstanceStepProjects(s: Sys, a: Action, t: Sys, id: Id)
    requires Do(s, a) == Some(t)
    requires (a.Crash? || a.Watch? || a.Sweep? || a.Recheck? || a.Restart? || a.NextCrash? || a.Stop? || a.HangUp? ||
      a.NotifyCrash? || a.CloseCrashed?)
    ensures LCan(Project(s, id), ActOn(s, a, id))
    ensures Project(t, id) == LStep(Project(s, id), ActOn(s, a, id))
  {
    match a
    case Crash(keep) => DisconnectProjects(s, keep, id);
    case HangUp(keep) => DisconnectProjects(s, keep, id);
    case Sweep => FailProjects(s, CRASHED, t.process, id);
    case Stop => FailProjects(s, STOPPED, t.process, id);
    case Restart => EmptyProjects(s, t.process, id);
    case NotifyCrash(i) => NotifyCrashProjects(s, i, t, id);
    case CloseCrashed(i) => CloseCrashedProjects(s, i, t, id);
    case _ => WatcherProjects(s, a, t, id);
  }

  /** What the plugin does leaves the host's side of a stream alone. */
  lemma PluginActKeeps(l: Local, a: LocalAct)
    requires LCan(l, a)
    requires a.Skip? || a.LStart? || a.LRefuse? || a.LOpen? || a.LForward? || a.LSendReply? || a.LReadReply? ||
             a.LCancelPlugin?
    ensures var m := LStep(l, a);
            && m.chan == l.chan && m.parked == l.parked && m.live == l.live && m.flight == l.flight
            && m.gaveUp == l.gaveUp && m.crash == l.crash && m.orphan == l.orphan && m.lost == l.lost
  {
  }

  /** A step of the system is, for every stream, a step of that stream's machine. */
  lemma StepProjects(s: Sys, a: Action, t: Sys, id: Id)
    requires Do(s, a) == Some(t)
    ensures LCan(Project(s, id), ActOn(s, a, id))
    ensures Project(t, id) == LStep(Project(s, id), ActOn(s, a, id))
  {
    if a.Start? || a.Refuse? || a.Open? || a.Forward? || a.SendReply? || a.CancelPlugin? {
      PluginStepProjects(s, a, t, id);
    } else if a.Read? || a.Put? || a.Finish? || a.Enroll? || a.GiveUp? || a.Recv? || a.CancelClose? {
      StreamStepProjects(s, a, t, id);
    } else {
      InstanceStepProjects(s, a, t, id);
    }
  }
}
