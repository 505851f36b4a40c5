/**
 * The whole streaming pipeline as a step protocol: the plugin server's table and its
 * forwarders, the first-in first-out connection, the reader goroutine, the lock regions of
 * `Instance`, the end of the plugin with its clean-up, and the consumers. `Do` takes one
 * labelled step; a run is a list of labels.
 */
module System {
  import opened Wrappers
  import opened Events
  import opened Host

  /** The plugin server: the streams in its table, and those whose context has been cancelled. */
  datatype Table = Table(streams: set<Id>, cancelled: set<Id>)

  function Listed(t: Table, id: Id): Table { t.(streams := t.streams + {id}) }

  /** The context is cancelled and the entry deleted: after a handler's failure, and when a forwarder returns. */
  function Unlisted(t: Table, id: Id): Table { Table(t.streams - {id}, t.cancelled + {id}) }

  /** completion.cancel finds a stream by the table. */
  function CancelledIn(t: Table, id: Id): Table {
    if id in t.streams then t.(cancelled := t.cancelled + {id}) else t
  }

  /**
   * The forwarder of one stream; `left` is what its handler has still to emit, and `done` says that
   * it has returned.
   */
  datatype Forwarder = Forwarder(
    script: seq<StreamEvent>,
    left: seq<StreamEvent>,
    emitted: seq<StreamEvent>,
    ended: bool,
    done: bool)

  /** What the plugin writes: event notifications and the reply that carries the stream id. */
  datatype Message = Note(id: Id, ev: StreamEvent) | Reply(id: Id)

  /** The reader handles notifications in line: it may be about to send, or about to close. */
  datatype Reader = Idle | Sending(id: Id, ev: StreamEvent) | Finishing(id: Id)

  /** Where the crash clean-up stands with a channel it took out of `streams`. */
  datatype Crash = ToNotify(err: ProviderError) | ToClose

  /**
   * Where `watch` stands: it waits for the process, is about to fail the streams, pauses,
   * is about to start the plugin again, waits for the next process, or has returned.
   */
  datatype Watcher = Waiting | Sweeping | Pausing | Starting | WaitingAgain | Over

  /**
   * `dead` says that the connection has ended, by the death of the process or by Stop; `stopped` is
   * the instance's flag.
   */
  datatype Process = Process(dead: bool, stopped: bool, watcher: Watcher)

  /**
   * `starting` holds the streams whose handler has not answered yet, `refused` those it
   * failed for; `gaveUp` those whose call returned without registering them. `jam` is the
   * stream whose drain blocks for ever while holding the mutex. For statements only, and read
   * by no step: `lost` counts the parked events that were forgotten before registration,
   * `orphans` holds the streams that a restart dropped from the table without closing them,
   * and `hit` those a cancel or the end of the plugin has touched.
   */
  datatype Sys = Sys(
    server: Table,
    starting: set<Id>,
    refused: set<Id>,
    plugin: map<Id, Forwarder>,
    wire: seq<Message>,
    replySent: set<Id>,
    replied: set<Id>,
    gaveUp: set<Id>,
    reader: Reader,
    host: HostState,
    crash: map<Id, Crash>,
    jam: Option<Id>,
    process: Process,
    lost: map<Id, nat>,
    orphans: set<Id>,
    hit: set<Id>)

  /**
   * What can happen. Start and then Open or Refuse are completion.stream. After CancelPlugin
   * the handler emits `rest`, whatever that is, instead of what it had left. Crash and HangUp
   * end the connection; the reader still gets the next `keep` messages. Watch, Sweep, Recheck
   * and Restart are what `watch` does once the process is dead, NextCrash is its return from
   * waiting for a later process, Stop and HangUp are what Stop does. GiveUp is a call that
   * returns before it registers its stream.
   */
  datatype Action =
    | Start(id: Id)
    | Refuse(id: Id)
    | Open(id: Id, script: seq<StreamEvent>)
    | Forward(id: Id)
    | SendReply(id: Id)
    | Read
    | Put
    | Finish
    | Enroll(id: Id)
    | GiveUp(id: Id)
    | Recv(id: Id)
    | CancelPlugin(id: Id, rest: seq<StreamEvent>)
    | CancelClose(id: Id)
    | Crash(keep: nat)
    | Watch
    | Sweep
    | Recheck
    | Restart
    | NextCrash
    | Stop
    | HangUp(keep: nat)
    | NotifyCrash(id: Id)
    | CloseCrashed(id: Id)

  const INIT: Sys := Sys(
    Table({}, {}), {}, {}, map[], [], {}, {}, {}, Idle, HostState({}, map[], map[]), map[], None,
    Process(false, false, Waiting), map[], {}, {})

  /** What the two callers of failActiveStreams report. */
  const CRASHED: ProviderError := NewProviderError(502, "plugin_crash", "plugin process crashed")
  const STOPPED: ProviderError := NewProviderError(499, "plugin_stopped", "plugin stopped")

  const SYNTHETIC_END: StreamEvent := Plain(StreamEnd).(finish := "stop")

  /** What the forwarder writes for a handler that emits `script`. */
  function Forwarded(script: seq<StreamEvent>): seq<StreamEvent> {
    if HasTerminal(script) then script else script + [SYNTHETIC_END]
  }

  /** What the forwarder has still to write. */
  function ToCome(p: Forwarder): seq<StreamEvent> {
    if p.done then [] else if p.ended || HasTerminal(p.left) then p.left else p.left + [SYNTHETIC_END]
  }

  function ForwardStep(p: Forwarder): (Forwarder, seq<StreamEvent>)
    requires !p.done
  {
    if p.left != [] then
      (p.(left := p.left[1..], emitted := p.emitted + [p.left[0]], ended := p.ended || Terminal(p.left[0])),
       [p.left[0]])
    else if !p.ended then
      (p.(emitted := p.emitted + [SYNTHETIC_END], ended := true), [SYNTHETIC_END])
    else (p.(done := true), [])
  }

  function Notes(id: Id, evs: seq<StreamEvent>): seq<Message>
  {
    if evs == [] then [] else [Note(id, evs[0])] + Notes(id, evs[1..])
  }

  /** One step, or None when the step cannot be taken now. */
  function Do(s: Sys, a: Action): Option<Sys> {
    match a
    case Start(id) =>
      if s.process.dead || id in s.starting || id in s.refused || id in s.plugin then None
      else Some(s.(server := Listed(s.server, id), starting := s.starting + {id}))
    case Refuse(id) =>
      if s.process.dead || id !in s.starting then None
      else
        Some(s.(server := Unlisted(s.server, id), starting := s.starting - {id}, refused := s.refused + {id}))
    case Open(id, script) =>
      if s.process.dead || id !in s.starting || id in s.plugin then None
      else
        Some(s.(starting := s.starting - {id}, plugin := s.plugin[id := Forwarder(script, script, [], false, false)]))
    case Forward(id) =>
      if s.process.dead || id !in s.plugin || s.plugin[id].done then None
      else
        var (p, out) := ForwardStep(s.plugin[id]);
        Some(s.(server := if p.done then Unlisted(s.server, id) else s.server,
                plugin := s.plugin[id := p],
                wire := s.wire + Notes(id, out)))
    case SendReply(id) =>
      if s.process.dead || id !in s.plugin || id in s.replySent then None
      else Some(s.(replySent := s.replySent + {id}, wire := s.wire + [Reply(id)]))
    case Read =>
      if s.wire == [] || s.reader != Idle then None
      else ReadMessage(s)
    case Put => PutInFlight(s)
    case Finish =>
      if !s.reader.Finishing? || s.jam.Some? then None
      else Some(s.(reader := Idle, host := CloseStream(s.host, s.reader.id)))
    case Enroll(id) =>
      if id !in s.replied || id in s.gaveUp || id in s.host.chans || s.jam.Some? then None
      else if !DrainFits(s.host, id) then Some(s.(jam := Some(id)))
      else Some(s.(host := Register(s.host, id)))
    case GiveUp(id) =>
      if id in s.host.chans || s.jam == Some(id) then None else Some(s.(gaveUp := s.gaveUp + {id}))
    case Recv(id) =>
      if id !in s.host.chans || s.host.chans[id].buf == [] then None
      else Some(s.(host := SetChan(s.host, id, Receive(s.host.chans[id]))))
    case CancelPlugin(id, rest) =>
      if s.process.dead then None
      else if id !in s.server.streams then Some(s)
      else Some(CancelHandler(s, id, rest))
    case CancelClose(id) =>
      if id !in s.host.chans || s.jam.Some? then None
      else Some(s.(host := CloseStream(s.host, id), hit := s.hit + {id}))
    case Crash(keep) =>
      if s.process.dead || keep > |s.wire| then None else Some(Disconnect(s, keep))
    case Watch =>
      if !s.process.dead || !s.process.watcher.Waiting? || s.jam.Some? then None
      else Some(s.(process := s.process.(watcher := if s.process.stopped then Over else Sweeping)))
    case Sweep =>
      if !s.process.watcher.Sweeping? || s.jam.Some? then None
      else Some(FailStreams(s, CRASHED, s.process.(watcher := Pausing)))
    case Recheck =>
      if !s.process.watcher.Pausing? || s.crash != map[] || s.jam.Some? then None
      else Some(s.(process := s.process.(watcher := if s.process.stopped then Over else Starting)))
    case Restart =>
      if !s.process.watcher.Starting? || s.jam.Some? then None
      else Some(EmptyTables(s, s.process.(watcher := WaitingAgain)))
    case NextCrash =>
      if !s.process.watcher.WaitingAgain? || s.jam.Some? then None
      else Some(s.(process := s.process.(watcher := if s.process.stopped then Over else Sweeping)))
    case Stop =>
      if s.process.stopped || s.jam.Some? then None
      else Some(FailStreams(s, STOPPED, s.process.(stopped := true)))
    case HangUp(keep) =>
      if !s.process.stopped || s.process.dead || keep > |s.wire| then None else Some(Disconnect(s, keep))
    case NotifyCrash(id) =>
      if id !in s.crash || !s.crash[id].ToNotify? || id !in s.host.chans then None
      else
        var notice := Notice(s.crash[id].err);
        Some(s.(host := SetChan(s.host, id, TrySend(s.host.chans[id], notice)), crash := s.crash[id := ToClose]))
    case CloseCrashed(id) =>
      if id !in s.crash || !s.crash[id].ToClose? || id !in s.host.chans then None
      else
        Some(s.(host := SetChan(s.host, id, Close(s.host.chans[id])), crash := Without(s.crash, id)))
  }

  function SetChan(h: HostState, id: Id, c: Chan): HostState {
    h.(chans := h.chans[id := c])
  }

  /**
   * A running handler whose context is cancelled goes on as it pleases; one that has not answered
   * yet is free anyway.
   */
  function CancelHandler(s: Sys, id: Id, rest: seq<StreamEvent>): Sys {
    var running := id in s.plugin && !s.plugin[id].done;
    s.(server := CancelledIn(s.server, id),
       plugin := if running then s.plugin[id := s.plugin[id].(left := rest)] else s.plugin,
       hit := if running then s.hit + {id} else s.hit)
  }

  /** Nothing is written any more, and of what has been written a beginning is still read. */
  function Disconnect(s: Sys, keep: nat): Sys
    requires keep <= |s.wire|
  {
    s.(process := s.process.(dead := true), wire := s.wire[..keep], hit := s.hit + s.plugin.Keys)
  }

  /** A notification runs in the reader; a reply is handed to its waiting call. */
  function ReadMessage(s: Sys): Option<Sys>
    requires s.wire != []
  {
    match s.wire[0]
    case Reply(id) => Some(s.(wire := s.wire[1..], replied := s.replied + {id}))
    case Note(id, ev) =>
      if s.jam.Some? then None
      else
        Some(s.(wire := s.wire[1..],
                reader := if id in s.host.streams then Sending(id, ev) else s.reader,
                host := ParkUnlessLive(s.host, id, ev)))
  }

  /** The send after the unlock; a terminal event is followed by closeStream whether or not the send got through. */
  function PutInFlight(s: Sys): Option<Sys> {
    if !s.reader.Sending? || s.reader.id !in s.host.chans || SendBlocks(s.host.chans[s.reader.id]) then None
    else
      var id, ev := s.reader.id, s.reader.ev;
      Some(s.(host := SetChan(s.host, id, Send(s.host.chans[id], FromPlugin(ev))),
              reader := if Terminal(ev) then Finishing(id) else Idle))
  }

  /** The lock region of failActiveStreams, with the book-keeping of what it forgets. */
  function FailStreams(s: Sys, err: ProviderError, p: Process): Sys {
    s.(process := p,
       host := Snapshot(s.host),
       crash := map i | i in s.crash.Keys + s.host.streams ::
         if i in s.host.streams then ToNotify(err) else s.crash[i],
       lost := Forgotten(s),
       hit := s.hit + s.plugin.Keys)
  }

  /** The first lock region of Start, when the plugin is started again: both tables are new, and nothing is closed. */
  function EmptyTables(s: Sys, p: Process): Sys {
    s.(process := p,
       host := Snapshot(s.host),
       lost := Forgotten(s),
       orphans := s.orphans + s.host.streams,
       hit := s.hit + s.plugin.Keys)
  }

  /** What has been forgotten before registration once the parked events are gone too. */
  function Forgotten(s: Sys): map<Id, nat> {
    map i | i in s.lost.Keys + s.host.pending.Keys ::
      if i in s.host.chans then Lost(s, i) else Lost(s, i) + |s.host.Pending(i)|
  }

  function Lost(s: Sys, id: Id): nat { if id in s.lost then s.lost[id] else 0 }

  /** Takes the listed steps one after another. */
  function Run(s: Sys, acts: seq<Action>): Option<Sys>
    decreases |acts|
  {
    if acts == [] then Some(s)
    else
      match Do(s, acts[0])
      case None => None
      case Some(t) => Run(t, acts[1..])
  }

  /** The two callers of failActiveStreams. */
  predicate CleansUp(a: Action) { a.Sweep? || a.Stop? }

  function ReportOf(a: Action): ProviderError
    requires CleansUp(a)
  {
    if a.Sweep? then CRASHED else STOPPED
  }

  /** The steps that empty both tables. */
  predicate Empties(a: Action) { CleansUp(a) || a.Restart? }

  lemma {:induction false} RunOne(s: Sys, a: Action, t: Sys, rest: seq<Action>)
    requires Do(s, a) == Some(t)
    ensures Run(s, [a] + rest) == Run(t, rest)
  {
  }

  lemma {:induction false} RunConcat(s: Sys, a: seq<Action>, b: seq<Action>)
    ensures Run(s, a + b) == match Run(s, a) { case None => None case Some(t) => Run(t, b) }
    decreases |a|
  {
    if a == [] {
      assert a + b == b;
    } else {
      assert (a + b)[0] == a[0] && (a + b)[1..] == a[1..] + b;
      match Do(s, a[0])
      case None =>
      case Some(t) => RunConcat(t, a[1..], b);
    }
  }

  // ---- what the steps leave alone ---------------------------------------------------------

  lemma PluginStepKeeps(s: Sys, a: Action, t: Sys)
    requires Do(s, a) == Some(t)
    requires a.Start? || a.Refuse? || a.Open? || a.Forward? || a.SendReply? || a.CancelPlugin?
    ensures t.host == s.host && t.crash == s.crash && t.reader == s.reader && t.replied == s.replied
    ensures t.process == s.process && t.jam == s.jam && t.lost == s.lost && t.orphans == s.orphans
    ensures s.plugin.Keys <= t.plugin.Keys
    ensures a.CancelPlugin? || t.hit == s.hit
    ensures a.Open? || t.plugin.Keys == s.plugin.Keys
  {
  }

  lemma ReaderStepKeeps(s: Sys, a: Action, t: Sys)
    requires Do(s, a) == Some(t)
    requires a.Read? || a.Put? || a.Finish?
    ensures t.plugin == s.plugin && t.process == s.process && t.lost == s.lost && t.orphans == s.orphans
    ensures t.hit == s.hit && t.jam == s.jam && t.host.chans.Keys == s.host.chans.Keys
    ensures a.Read? || t.replied == s.replied
  {
  }

  lemma ConsumerStepKeeps(s: Sys, a: Action, t: Sys)
    requires Do(s, a) == Some(t)
    requires a.Enroll? || a.GiveUp? || a.Recv? || a.CancelClose?
    ensures t.plugin == s.plugin && t.process == s.process && t.lost == s.lost && t.orphans == s.orphans
    ensures t.reader == s.reader && t.replied == s.replied && s.host.chans.Keys <= t.host.chans.Keys
    ensures a.CancelClose? || t.hit == s.hit
    ensures a.Enroll? || (t.jam == s.jam && t.host.chans.Keys == s.host.chans.Keys)
  {
  }

  lemma HostStepKeeps(s: Sys, a: Action, t: Sys)
    requires Do(s, a) == Some(t)
    requires a.Read? || a.Put? || a.Finish? || a.Enroll? || a.GiveUp? || a.Recv? || a.CancelClose?
    ensures t.plugin == s.plugin && t.process == s.process && t.lost == s.lost && t.orphans == s.orphans
    ensures s.host.chans.Keys <= t.host.chans.Keys
    ensures a.CancelClose? || t.hit == s.hit
    ensures a.Enroll? || (t.jam == s.jam && t.host.chans.Keys == s.host.chans.Keys)
    ensures a.Read? || t.replied == s.replied
    ensures a.Read? || a.Put? || a.Finish? || t.reader == s.reader
  {
    if a.Read? || a.Put? || a.Finish? {
      ReaderStepKeeps(s, a, t);
    } else {
      ConsumerStepKeeps(s, a, t);
    }
  }

  lemma EndStepKeeps(s: Sys, a: Action, t: Sys)
    requires Do(s, a) == Some(t)
    requires a.Crash? || a.Watch? || a.Sweep? || a.Recheck? || a.Restart? || a.NextCrash? || a.Stop? || a.HangUp? ||
             a.NotifyCrash? || a.CloseCrashed?
    ensures t.plugin == s.plugin && t.reader == s.reader && t.replied == s.replied && t.jam == s.jam
    ensures t.host.chans.Keys == s.host.chans.Keys
    ensures Empties(a) || t.lost == s.lost
    ensures t.orphans == if a.Restart? then s.orphans + s.host.streams else s.orphans
    ensures Empties(a) || a.Crash? || a.HangUp? || t.hit == s.hit
    ensures a.NotifyCrash? || a.CloseCrashed? || t.host.chans == s.host.chans
    ensures a.NotifyCrash? || a.CloseCrashed? ==>
              t.process == s.process && t.host.streams == s.host.streams && t.host.pending == s.host.pending
  {
  }
}
