/**
 * What the streaming pipeline promises over every run from the empty system: exactly-once
 * ordered delivery, prefix safety under cancels and crashes, channel ownership, isolation
 * of streams from each other, and independence of scheduling.
 */
module Guarantees {
  import opened Wrappers
  import Json
  import opened Events
  import opened Host
  import opened System
  import opened Stream
  import opened Delivery

  ghost predicate Reachable(s: Sys) {
    exists acts :: Run(INIT, acts) == Some(s)
  }

  lemma ReachableInv(s: Sys, id: Id)
    requires Reachable(s)
    ensures LInv(Project(s, id))
  {
    var acts :| Run(INIT, acts) == Some(s);
    RunKeeps(INIT, acts, s, id);
  }

  /** What can cut a stream short: the end of the plugin, a clean-up or restart, a cancel of the stream itself. */
  predicate Disturbs(a: Action, id: Id) {
    a.Crash? || a.HangUp? || Empties(a) || ((a.CancelPlugin? || a.CancelClose?) && a.id == id)
  }

  /** No end of the plugin, and no cancel of this stream; other streams may be cancelled. */
  predicate Undisturbed(acts: seq<Action>, id: Id) {
    forall i :: 0 <= i < |acts| ==> !Disturbs(acts[i], id)
  }

  /** Only what disturbs a stream counts as a hit. */
  lemma HitBy(s: Sys, a: Action, t: Sys, id: Id)
    requires Do(s, a) == Some(t)
    ensures id in t.hit ==> id in s.hit || Disturbs(a, id)
  {
    if a.Start? || a.Refuse? || a.Open? || a.Forward? || a.SendReply? || a.CancelPlugin? {
      PluginStepKeeps(s, a, t);
    } else if a.Read? || a.Put? || a.Finish? || a.Enroll? || a.GiveUp? || a.Recv? || a.CancelClose? {
      HostStepKeeps(s, a, t);
    } else {
      EndStepKeeps(s, a, t);
    }
  }

  lemma ChannelsStay(s: Sys, a: Action, t: Sys, id: Id)
    requires Do(s, a) == Some(t)
    ensures id in s.host.chans ==> id in t.host.chans
  {
    if a.Start? || a.Refuse? || a.Open? || a.Forward? || a.SendReply? || a.CancelPlugin? {
      PluginStepKeeps(s, a, t);
    } else if a.Read? || a.Put? || a.Finish? || a.Enroll? || a.GiveUp? || a.Recv? || a.CancelClose? {
      HostStepKeeps(s, a, t);
    } else {
      EndStepKeeps(s, a, t);
    }
  }

  lemma LostBy(s: Sys, a: Action, t: Sys, id: Id)
    requires Do(s, a) == Some(t)
    ensures id in s.host.chans || !Empties(a) ==> Lost(t, id) == Lost(s, id)
  {
    if a.Start? || a.Refuse? || a.Open? || a.Forward? || a.SendReply? || a.CancelPlugin? {
      PluginStepKeeps(s, a, t);
    } else if a.Read? || a.Put? || a.Finish? || a.Enroll? || a.GiveUp? || a.Recv? || a.CancelClose? {
      HostStepKeeps(s, a, t);
    } else if Empties(a) {
      assert t.lost == Forgotten(s);
    } else {
      EndStepKeeps(s, a, t);
    }
  }

  lemma {:induction false} UndisturbedIsUnhit(s: Sys, acts: seq<Action>, t: Sys, id: Id)
    requires Run(s, acts) == Some(t) && Undisturbed(acts, id) && id !in s.hit
    ensures id !in t.hit
    decreases |acts|
  {
    if acts != [] {
      var u := Do(s, acts[0]).value;
      assert !Disturbs(acts[0], id);
      HitBy(s, acts[0], u, id);
      UndisturbedIsUnhit(u, acts[1..], t, id);
    }
  }

  lemma ReachableStep(s: Sys, a: Action, t: Sys)
    requires Reachable(s) && Do(s, a) == Some(t)
    ensures Reachable(t)
  {
    var acts :| Run(INIT, acts) == Some(s);
    RunConcat(INIT, acts, [a]);
    RunOne(s, a, t, []);
    assert [a] + [] == [a];
    assert Run(INIT, acts + [a]) == Some(t);
  }

  // ---- exactly once, in order ---------------------------------------------------------

  function Received(s: Sys, id: Id): seq<Item> {
    if id in s.host.chans then s.host.chans[id].received else []
  }

  function Buffered(s: Sys, id: Id): seq<Item> {
    if id in s.host.chans then s.host.chans[id].buf else []
  }

  function InReader(s: Sys, id: Id): seq<StreamEvent> {
    if s.reader.Sending? && s.reader.id == id then [s.reader.ev] else []
  }

  /** Every event of the stream that is somewhere, from the consumer back to the plugin's socket. */
  function Whereabouts(s: Sys, id: Id): seq<StreamEvent> {
    Genuine(Received(s, id)) + Genuine(Buffered(s, id)) + InReader(s, id) + s.host.Pending(id) + NotesOf(s.wire, id)
  }

  lemma WhereaboutsLocal(s: Sys, id: Id)
    ensures var l := Project(s, id);
            Whereabouts(s, id) == Genuine(l.Channelled()) + l.Flying() + l.Parked() + l.wire
  {
    GenuineConcat(Received(s, id), Buffered(s, id));
    assert Received(s, id) + Buffered(s, id) == Project(s, id).Channelled();
  }

  /** At every moment each event of an undisturbed stream is in exactly one place, in order. */
  lemma {:induction false} ExactlyOnce(acts: seq<Action>, s: Sys, id: Id)
    requires Run(INIT, acts) == Some(s) && Undisturbed(acts, id)
    requires id in s.plugin
    ensures Whereabouts(s, id) == s.plugin[id].emitted
    ensures Whereabouts(s, id) + ToCome(s.plugin[id]) == Forwarded(s.plugin[id].script)
  {
    ReachableInv(s, id);
    UndisturbedIsUnhit(INIT, acts, s, id);
    WhereaboutsLocal(s, id);
    UnhitTotal(Project(s, id));
  }

  lemma UnhitTotal(l: Local)
    requires LInv(l) && !l.hit && l.plugin.Some?
    ensures var here := Genuine(l.Channelled()) + l.Flying() + l.Parked() + l.wire;
            here == l.Emitted() && here + ToCome(l.plugin.value) == Forwarded(l.plugin.value.script)
  {
    if l.chan.None? {
      assert Genuine([]) + [] + l.Parked() + l.wire == l.Parked() + l.wire;
      assert Owed(l) == l.Emitted();
    }
  }

  /** A step that is not about a stream leaves everything about that stream as it was. */
  lemma OtherStreamsUnchanged(s: Sys, a: Action, t: Sys, id: Id)
    requires Do(s, a) == Some(t)
    requires ActOn(s, a, id) == Skip
    ensures Project(t, id) == Project(s, id) && Whereabouts(t, id) == Whereabouts(s, id)
  {
    StepProjects(s, a, t, id);
    WhereaboutsLocal(s, id);
    WhereaboutsLocal(t, id);
  }

  /** Only the end of the connection, the clean-ups and a restart are about more than one stream. */
  lemma StepsAreAboutOneStream(s: Sys, a: Action, i: Id, j: Id)
    requires !a.Crash? && !a.HangUp? && !Empties(a) && ActOn(s, a, i) != Skip && ActOn(s, a, j) != Skip
    ensures i == j
  {
  }

  // ---- prefix safety --------------------------------------------------------------------

  lemma {:induction false} RegisteredStays(s: Sys, acts: seq<Action>, t: Sys, id: Id)
    requires Run(s, acts) == Some(t) && id in s.host.chans
    ensures id in t.host.chans && Lost(t, id) == Lost(s, id)
    decreases |acts|
  {
    if acts != [] {
      var u := Do(s, acts[0]).value;
      ChannelsStay(s, acts[0], u, id);
      LostBy(s, acts[0], u, id);
      RegisteredStays(u, acts[1..], t, id);
    }
  }

  lemma {:induction false} NothingLostYet(s: Sys, acts: seq<Action>, t: Sys, id: Id)
    requires Run(s, acts) == Some(t) && (forall i :: 0 <= i < |acts| ==> !Empties(acts[i]))
    ensures Lost(t, id) == Lost(s, id)
    decreases |acts|
  {
    if acts != [] {
      var u := Do(s, acts[0]).value;
      LostBy(s, acts[0], u, id);
      NothingLostYet(u, acts[1..], t, id);
    }
  }

  lemma {:induction false} GenuinePrefix(a: seq<Item>, b: seq<Item>)
    ensures Genuine(a) <= Genuine(a + b)
    ensures Notices(a) <= Notices(a + b)
    ensures Notices(a) > 0 ==> AfterNotice(a) <= AfterNotice(a + b)
  {
    GenuineConcat(a, b);
    NoticesConcat(a, b);
  }

  /**
   * Whatever cancels and crashes happen, a consumer receives a contiguous run of what the
   * plugin emitted, with at most one crash notice and at most one event after it.
   */
  lemma ContiguousDelivery(s: Sys, id: Id)
    requires Reachable(s) && id in s.plugin
    ensures Lost(s, id) <= |s.plugin[id].emitted|
    ensures Genuine(Received(s, id)) <= s.plugin[id].emitted[Lost(s, id)..]
    ensures Notices(Received(s, id)) <= 1
    ensures Notices(Received(s, id)) == 1 ==> AfterNotice(Received(s, id)) <= 1
  {
    ReachableInv(s, id);
    GenuinePrefix(Received(s, id), Buffered(s, id));
    assert Received(s, id) + Buffered(s, id) == Project(s, id).Channelled();
  }

  /** With no clean-up or restart before registration, that run starts at the first event. */
  lemma {:induction false} PrefixSafety(before: seq<Action>, s: Sys, after: seq<Action>, t: Sys, id: Id)
    requires Run(INIT, before) == Some(s) && (forall i :: 0 <= i < |before| ==> !Empties(before[i]))
    requires id in s.host.chans
    requires Run(s, after) == Some(t)
    ensures id in t.plugin && Genuine(Received(t, id)) <= t.plugin[id].emitted
    ensures Notices(Received(t, id)) <= 1
    ensures Notices(Received(t, id)) == 1 ==> AfterNotice(Received(t, id)) <= 1
  {
    NothingLostYet(INIT, before, s, id);
    RegisteredStays(s, after, t, id);
    RunConcat(INIT, before, after);
    assert Reachable(t);
    ReachableInv(t, id);
    assert id in t.plugin;
    ContiguousDelivery(t, id);
    assert t.plugin[id].emitted[0..] == t.plugin[id].emitted;
  }

  // ---- the plugin server's table ----------------------------------------------------------

  /** Its handler has not answered yet, or its forwarder has not returned yet. */
  predicate Running(s: Sys, id: Id) {
    id in s.starting || (id in s.plugin && !s.plugin[id].done)
  }

  /** Whatever else goes on, a stream is in the table exactly while it runs. */
  lemma ListedWhileRunning(s: Sys, id: Id)
    requires Reachable(s)
    ensures id in s.server.streams <==> Running(s, id)
    ensures id in s.refused || (id in s.plugin && s.plugin[id].done) ==> id in s.server.cancelled
  {
    ReachableInv(s, id);
  }

  /** It gets there before the handler runs, and leaves when the handler fails or everything is forwarded. */
  lemma TableChanges(s: Sys, a: Action, t: Sys, id: Id)
    requires Reachable(s) && Do(s, a) == Some(t)
    ensures id !in s.server.streams && id in t.server.streams <==> a == Start(id)
    ensures id in s.server.streams && id !in t.server.streams
            <==> a == Refuse(id) || (a == Forward(id) && ToCome(s.plugin[id]) == [])
  {
    ReachableInv(s, id);
    StepProjects(s, a, t, id);
    EntryChanges(Project(s, id), ActOn(s, a, id));
    ActsOnEntry(s, a, id);
    assert Project(s, id).entry.listed == (id in s.server.streams);
    assert Project(t, id).entry.listed == (id in t.server.streams);
  }

  /** The forwarder returns by the step after everything is forwarded. */
  lemma ForwardReturns(p: Forwarder)
    requires !p.done
    ensures ForwardStep(p).0.done <==> ToCome(p) == []
  {
  }

  lemma ForwardUnlists(l: Local)
    requires LInv(l) && LCan(l, LForward)
    ensures l.entry.listed
    ensures LStep(l, LForward).entry.listed <==> ToCome(l.plugin.value) != []
  {
    ForwardReturns(l.plugin.value);
  }

  lemma EntryAtPlugin(l: Local, a: LocalAct)
    requires LInv(l) && LCan(l, a) && !a.LForward?
    requires a.Skip? || a.LStart? || a.LRefuse? || a.LOpen? || a.LForward? || a.LSendReply? || a.LReadReply? ||
      a.LCancelPlugin?
    ensures !l.entry.listed && LStep(l, a).entry.listed <==> a.LStart?
    ensures l.entry.listed && !LStep(l, a).entry.listed <==> a.LRefuse?
  {
    assert EntryOk(l);
  }

  lemma EntryAtHost(l: Local, a: LocalAct)
    requires LCan(l, a)
    requires a.LRead? || a.LPut? || a.LFinish? || a.LEnroll? || a.LGiveUp? || a.LRecv? || a.LCancelClose?
    ensures LStep(l, a).entry == l.entry
  {
  }

  lemma EntryAtEnd(l: Local, a: LocalAct)
    requires LCan(l, a)
    requires a.LDisconnect? || a.LFail? || a.LRestart? || a.LNotifyCrash? || a.LCloseCrashed?
    ensures LStep(l, a).entry == l.entry
  {
  }

  lemma EntryChanges(l: Local, a: LocalAct)
    requires LInv(l) && LCan(l, a)
    ensures !l.entry.listed && LStep(l, a).entry.listed <==> a.LStart?
    ensures l.entry.listed && !LStep(l, a).entry.listed <==> a.LRefuse? || (a.LForward? && ToCome(l.plugin.value) == [])
  {
    if a.LForward? {
      ForwardUnlists(l);
    } else if a.Skip? || a.LStart? || a.LRefuse? || a.LOpen? || a.LForward? || a.LSendReply? || a.LReadReply? ||
       a.LCancelPlugin? {
      EntryAtPlugin(l, a);
    } else if a.LRead? || a.LPut? || a.LFinish? || a.LEnroll? || a.LGiveUp? || a.LRecv? || a.LCancelClose? {
      EntryAtHost(l, a);
    } else {
      EntryAtEnd(l, a);
    }
  }

  lemma ActsOnEntry(s: Sys, a: Action, id: Id)
    ensures ActOn(s, a, id).LStart? <==> a == Start(id)
    ensures ActOn(s, a, id).LRefuse? <==> a == Refuse(id)
    ensures ActOn(s, a, id).LForward? <==> a == Forward(id)
  {
  }

  /** completion.cancel reaches a stream exactly while it runs, and changes nothing else. */
  lemma CancelReachesIff(s: Sys, id: Id, rest: seq<StreamEvent>, t: Sys)
    requires Reachable(s) && Do(s, CancelPlugin(id, rest)) == Some(t)
    ensures !Running(s, id) ==> t == s
    ensures Running(s, id) ==>
              && t.server == s.server.(cancelled := s.server.cancelled + {id})
              && t.plugin == if id in s.plugin then s.plugin[id := s.plugin[id].(left := rest)] else s.plugin
    ensures t.wire == s.wire && t.host == s.host && t.reader == s.reader && t.starting == s.starting
  {
    ReachableInv(s, id);
  }

  // ---- channel ownership ----------------------------------------------------------------

  /** The streams whose channel this step executes `close` on, apart from a fresh one. */
  function Closes(s: Sys, a: Action): set<Id> {
    match a
    case Finish => if s.reader.Finishing? && s.reader.id in s.host.streams then {s.reader.id} else {}
    case CancelClose(id) => if id in s.host.streams then {id} else {}
    case CloseCrashed(id) => {id}
    case _ => {}
  }

  /** The table's channels are open, and no stream is both live and parked. */
  lemma TablesConsistent(s: Sys, id: Id)
    requires Reachable(s)
    ensures id in s.host.streams ==> id in s.host.chans && !s.host.chans[id].closed
    ensures id !in s.host.streams || id !in s.host.pending
    ensures id in s.host.chans ==> |s.host.chans[id].buf| <= 64
  {
    ReachableInv(s, id);
  }

  /** Every `close` hits an open channel, and a channel becomes closed only by such a `close`. */
  lemma ClosedAtMostOnce(s: Sys, a: Action, t: Sys, id: Id)
    requires Reachable(s) && Do(s, a) == Some(t)
    requires id in s.host.chans
    ensures id in t.host.chans
    ensures id in Closes(s, a) <==> !s.host.chans[id].closed && t.host.chans[id].closed
    ensures s.host.chans[id].closed ==> t.host.chans[id].closed
  {
    ReachableInv(s, id);
    StepProjects(s, a, t, id);
    var l := Project(s, id);
    LocalCloses(l, ActOn(s, a, id));
    ClosesProjects(s, a, t, id);
    assert LStep(l, ActOn(s, a, id)).chan == Get(t.host.chans, id);
  }

  lemma ClosesProjects(s: Sys, a: Action, t: Sys, id: Id)
    requires Do(s, a) == Some(t)
    ensures id in Closes(s, a)
            <==> ((ActOn(s, a, id).LFinish? || ActOn(s, a, id).LCancelClose?) && id in s.host.streams)
                 || ActOn(s, a, id).LCloseCrashed?
  {
  }

  /** The crash notice never meets a closed channel; an in-flight event only after a cancel or a crash. */
  lemma SendsMeetOpenChannels(s: Sys, a: Action, t: Sys)
    requires Reachable(s) && Do(s, a) == Some(t)
    ensures a.NotifyCrash? ==> !s.host.chans[a.id].closed
    ensures a.Put? && s.host.chans[s.reader.id].closed ==> s.reader.id in s.hit
  {
    if a.NotifyCrash? {
      ReachableInv(s, a.id);
    }
    if a.Put? {
      ReachableInv(s, s.reader.id);
      assert Project(s, s.reader.id).flight == InFlight(s.reader.ev);
    }
  }

  // ---- whose notices --------------------------------------------------------------------

  predicate FromErrors(items: seq<Item>, errs: set<ProviderError>) {
    forall x :: x in items && x.Notice? ==> x.err in errs
  }

  /** Every notice for this stream, sent or about to be sent, reports one of these errors. */
  predicate Reporting(l: Local, errs: set<ProviderError>) {
    && (l.crash.Some? && l.crash.value.ToNotify? ==> l.crash.value.err in errs)
    && (l.chan.Some? ==> FromErrors(l.chan.value.received, errs) && FromErrors(l.chan.value.buf, errs))
  }

  /** What a step gives the failure notices to report. */
  function GivenBy(a: Action): set<ProviderError> {
    if CleansUp(a) then {ReportOf(a)} else {}
  }

  lemma LocalReporting(l: Local, a: LocalAct, errs: set<ProviderError>)
    requires LCan(l, a) && Reporting(l, errs) && (a.LFail? ==> a.err in errs)
    ensures Reporting(LStep(l, a), errs)
  {
    if a.LEnroll? {
      TagFromErrors(l.Parked(), errs);
    } else if a.LRecv? {
      ReceiveFromErrors(l.chan.value, errs);
    }
  }

  lemma TagFromErrors(evs: seq<StreamEvent>, errs: set<ProviderError>)
    ensures FromErrors(Tag(evs), errs)
  {
    forall x | x in Tag(evs) ensures x.FromPlugin? {
      var i :| 0 <= i < |Tag(evs)| && Tag(evs)[i] == x;
    }
  }

  lemma ReceiveFromErrors(c: Chan, errs: set<ProviderError>)
    requires c.buf != [] && FromErrors(c.received, errs) && FromErrors(c.buf, errs)
    ensures FromErrors(Receive(c).received, errs) && FromErrors(Receive(c).buf, errs)
  {
    assert c.buf[0] in c.buf;
  }

  lemma GivenToFail(s: Sys, a: Action, id: Id)
    ensures ActOn(s, a, id).LFail? ==> ActOn(s, a, id).err in GivenBy(a)
  {
  }

  lemma ReportingStep(s: Sys, a: Action, t: Sys, id: Id, errs: set<ProviderError>)
    requires Do(s, a) == Some(t) && Reporting(Project(s, id), errs) && GivenBy(a) <= errs
    ensures Reporting(Project(t, id), errs)
  {
    var l, act := Project(s, id), ActOn(s, a, id);
    StepProjects(s, a, t, id);
    GivenToFail(s, a, id);
    LocalReporting(l, act, errs);
  }

  lemma {:induction false} ReportingRun(s: Sys, acts: seq<Action>, t: Sys, id: Id, errs: set<ProviderError>)
    requires Run(s, acts) == Some(t) && Reporting(Project(s, id), errs)
    requires forall i :: 0 <= i < |acts| ==> GivenBy(acts[i]) <= errs
    ensures Reporting(Project(t, id), errs)
    decreases |acts|
  {
    if acts != [] {
      var u := Do(s, acts[0]).value;
      ReportingStep(s, acts[0], u, id, errs);
      ReportingRun(u, acts[1..], t, id, errs);
    }
  }

  /** A failure notice in a channel says that the plugin crashed, after a clean-up, or was stopped, after Stop. */
  lemma {:induction false} NoticesReportCleanUps(acts: seq<Action>, s: Sys, id: Id, x: Item)
    requires Run(INIT, acts) == Some(s)
    requires id in s.host.chans && x in s.host.chans[id].All() && x.Notice?
    ensures || (Sweep in acts &&
                x.err == ProviderError("plugin process crashed", "provider_error", "plugin_crash", Json.Null, 502))
            || (Action.Stop in acts &&
                x.err == ProviderError("plugin stopped", "provider_error", "plugin_stopped", Json.Null, 499))
  {
    var errs := set i, e | 0 <= i < |acts| && e in GivenBy(acts[i]) :: e;
    ReportingRun(INIT, acts, s, id, errs);
    assert x.err in errs;
  }

  // ---- watch and Stop ---------------------------------------------------------------------

  /** What `watch` does to the streams. */
  predicate WatcherActs(a: Action) { a.Sweep? || a.Restart? }

  /** `watch` is between its look at the flag and what it does then. */
  predicate Committed(w: Watcher) { w.Sweeping? || w.Starting? }

  lemma StopSteps(s: Sys, a: Action, t: Sys)
    requires Do(s, a) == Some(t)
    ensures a.Stop? ==> !s.process.stopped && t.process.stopped
    ensures s.process.stopped ==> t.process.stopped
    ensures WatcherActs(a) ==> Committed(s.process.watcher) && !Committed(t.process.watcher)
    ensures s.process.stopped && !Committed(s.process.watcher) ==> !Committed(t.process.watcher)
  {
    if a.Start? || a.Refuse? || a.Open? || a.Forward? || a.SendReply? || a.CancelPlugin? {
      PluginStepKeeps(s, a, t);
    } else if a.Read? || a.Put? || a.Finish? || a.Enroll? || a.GiveUp? || a.Recv? || a.CancelClose? {
      HostStepKeeps(s, a, t);
    }
  }

  /** Once Stop has run, a second one does nothing, and `watch` does at most what it is committed to. */
  lemma {:induction false} StoppedStaysDown(s: Sys, acts: seq<Action>, t: Sys)
    requires Run(s, acts) == Some(t) && s.process.stopped
    ensures t.process.stopped && Action.Stop !in acts
    ensures !Committed(s.process.watcher) ==> forall i :: 0 <= i < |acts| ==> !WatcherActs(acts[i])
    ensures forall i, j :: 0 <= i < j < |acts| && WatcherActs(acts[i]) ==> !WatcherActs(acts[j])
    decreases |acts|
  {
    if acts != [] {
      var u := Do(s, acts[0]).value;
      StopSteps(s, acts[0], u);
      StoppedStaysDown(u, acts[1..], t);
      assert forall i :: 0 < i < |acts| ==> acts[i] == acts[1..][i - 1];
    }
  }

  /** While the instance is not stopped, notices and closes are left only in the pause before the restart. */
  predicate CleanedUpFirst(s: Sys) {
    !s.process.stopped ==>
      && (s.crash != map[] ==> s.process.watcher.Pausing?)
      && !s.process.watcher.Over?
      && (!s.process.watcher.Waiting? ==> s.process.dead)
  }

  lemma CleanedUpFirstKeeps(s: Sys, a: Action, t: Sys)
    requires CleanedUpFirst(s) && Do(s, a) == Some(t)
    ensures CleanedUpFirst(t)
  {
    if a.Start? || a.Refuse? || a.Open? || a.Forward? || a.SendReply? || a.CancelPlugin? {
      PluginStepKeeps(s, a, t);
    } else if a.Read? || a.Put? || a.Finish? || a.Enroll? || a.GiveUp? || a.Recv? || a.CancelClose? {
      HostStepKeeps(s, a, t);
      CrashKept(s, a, t);
    }
  }

  lemma CrashKept(s: Sys, a: Action, t: Sys)
    requires Do(s, a) == Some(t)
    requires a.Read? || a.Put? || a.Finish? || a.Enroll? || a.GiveUp? || a.Recv? || a.CancelClose?
    ensures t.crash == s.crash
  {
  }

  lemma {:induction false} CleanedUpFirstRun(s: Sys, acts: seq<Action>, t: Sys)
    requires CleanedUpFirst(s) && Run(s, acts) == Some(t)
    ensures CleanedUpFirst(t)
    decreases |acts|
  {
    if acts != [] {
      CleanedUpFirstKeeps(s, acts[0], Do(s, acts[0]).value);
      CleanedUpFirstRun(Do(s, acts[0]).value, acts[1..], t);
    }
  }

  /**
   * The plugin is not started again before every stream it left behind was told and closed; an instance
   * that is not stopped never gives up watching.
   */
  lemma RestartComesLast(s: Sys)
    requires Reachable(s) && !s.process.stopped
    ensures s.crash != map[] ==> s.process.watcher.Pausing?
    ensures !s.process.watcher.Over? && (!s.process.watcher.Waiting? ==> s.process.dead)
  {
    var acts :| Run(INIT, acts) == Some(s);
    CleanedUpFirstRun(INIT, acts, s);
  }

  // ---- scheduling does not show -----------------------------------------------------------

  /** The consumer's loop is over: the channel is closed and empty. */
  predicate Complete(s: Sys, id: Id) {
    id in s.host.chans && s.host.chans[id].closed && s.host.chans[id].buf == []
  }

  /**
   * In every complete undisturbed run the consumer has the forwarder's events up to and beyond the
   * first terminal one.
   */
  lemma {:induction false} CompleteDelivery(acts: seq<Action>, s: Sys, id: Id)
    requires Run(INIT, acts) == Some(s) && Undisturbed(acts, id) && Complete(s, id)
    ensures id in s.plugin
    ensures Genuine(Received(s, id)) <= Forwarded(s.plugin[id].script)
    ensures HasTerminal(Genuine(Received(s, id)))
    ensures EndsAtTerminal(Genuine(Received(s, id))) || |Genuine(Received(s, id))| <= 64
    ensures Notices(Received(s, id)) == 0
  {
    ReachableInv(s, id);
    UndisturbedIsUnhit(INIT, acts, s, id);
    assert Received(s, id) + [] == Received(s, id);
    CompleteLocal(Project(s, id));
  }

  lemma CompleteLocal(l: Local)
    requires LInv(l) && !l.hit
    requires l.chan.Some? && l.chan.value.closed && l.chan.value.buf == []
    ensures l.plugin.Some?
    ensures Genuine(l.Channelled()) <= Forwarded(l.plugin.value.script)
    ensures HasTerminal(Genuine(l.Channelled()))
    ensures EndsAtTerminal(Genuine(l.Channelled())) || |Genuine(l.Channelled())| <= CAPACITY
    ensures Notices(l.Channelled()) == 0
  {
  }

  lemma PrefixWithTerminal(got: seq<StreamEvent>, all: seq<StreamEvent>)
    requires got <= all && HasTerminal(got) && EndsAtTerminal(all)
    ensures got == all
  {
  }

  /** When nothing follows the first terminal event, every complete undisturbed run delivers the same events. */
  lemma {:induction false} SchedulingDoesNotShow(acts: seq<Action>, s: Sys, id: Id)
    requires Run(INIT, acts) == Some(s) && Undisturbed(acts, id) && Complete(s, id)
    requires id in s.plugin && EndsAtTerminal(Forwarded(s.plugin[id].script))
    ensures Genuine(Received(s, id)) == Forwarded(s.plugin[id].script)
  {
    CompleteDelivery(acts, s, id);
    PrefixWithTerminal(Genuine(Received(s, id)), Forwarded(s.plugin[id].script));
  }
}
