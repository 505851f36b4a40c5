/**
 * Progress: the steps that need nobody's decision (everything but the requests and answers
 * of completion.stream, calls that give up, cancels, crashes and Stop) cannot go on for ever. What holds of the
 * streams where none is left is the matter of module Endings.
 */
module Progress {
  import opened Wrappers
  import opened Events
  import opened Host
  import opened System
  import opened Stream
  import opened Delivery
  import opened Guarantees
  import opened Schedules

  predicate Internal(a: Action) {
    && !a.Start? && !a.Refuse? && !a.Open? && !a.GiveUp? && !a.CancelPlugin? && !a.CancelClose?
    && !a.Crash? && !a.NextCrash? && !a.Stop?
  }

  /** The internal steps that are about no stream in particular. */
  predicate OfTheInstance(a: Action) { a.Watch? || a.Sweep? || a.Recheck? || a.Restart? || a.HangUp? }

  predicate AllInternal(acts: seq<Action>) {
    forall i :: 0 <= i < |acts| ==> Internal(acts[i])
  }

  // ---- the measure ------------------------------------------------------------------------

  function ForwarderWork(p: Option<Forwarder>): nat {
    if p.None? then 0 else 6 * |ToCome(p.value)| + if p.value.done then 0 else 1
  }

  function FlightWork(f: Flight): nat {
    match f case NoFlight => 0 case InFlight(_) => 4 case Closing => 2
  }

  function ChanWork(c: Option<Chan>): nat { if c.None? then 1 else |c.value.buf| }

  function CrashWork(c: Option<Crash>): nat {
    if c.None? then 0 else if c.value.ToNotify? then 3 else 1
  }

  /** What is left to do for one stream: an event weighs more the further it is from its consumer. */
  function Work(l: Local): nat {
    (if l.dead then 0 else ForwarderWork(l.plugin) + if l.replySent then 0 else 2)
    + l.replies + 5 * |l.wire|
    + FlightWork(l.flight) + 3 * |l.Parked()| + ChanWork(l.chan) + CrashWork(l.crash)
  }

  ghost function Total(s: Sys, ids: set<Id>): nat
    decreases |ids|
  {
    if ids == {} then 0
    else
      var id :| id in ids;
      Work(Project(s, id)) + Total(s, ids - {id})
  }

  /** What the instance itself has still to do; the clean-up gives each live stream more to do. */
  function InstanceWork(s: Sys): nat {
    (if s.jam.Some? then 0 else 1) + (if s.process.dead then 0 else 1)
    + match s.process.watcher
      case Waiting => 3 * |s.plugin.Keys| + 4
      case Sweeping => 3 * |s.plugin.Keys| + 3
      case Pausing => 2
      case Starting => 1
      case WaitingAgain => 0
      case Over => 0
  }

  ghost function Measure(s: Sys): nat { Total(s, s.plugin.Keys) + InstanceWork(s) }

  predicate LInternal(a: LocalAct) {
    a.LForward? || a.LSendReply? || a.LReadReply? || a.LRead? || a.LPut? || a.LFinish? || a.LEnroll? || a.LRecv?
    || a.LNotifyCrash? || a.LCloseCrashed?
  }

  lemma ForwardWorks(p: Forwarder)
    requires !p.done
    ensures var (q, out) := ForwardStep(p);
            ForwarderWork(Some(q)) + 5 * |out| < ForwarderWork(Some(p))
  {
  }

  lemma PluginWorks(l: Local, a: LocalAct)
    requires LInv(l) && LCan(l, a) && (a == LForward || a == LSendReply || a == LReadReply)
    ensures Work(LStep(l, a)) < Work(l)
  {
    if a.LForward? {
      ForwardWorks(l.plugin.value);
    }
  }

  lemma ReaderWorks(l: Local, a: LocalAct)
    requires LInv(l) && LCan(l, a) && (a == LRead || a == LPut || a == LFinish)
    ensures Work(LStep(l, a)) < Work(l)
  {
  }

  lemma LocalWorks(l: Local, a: LocalAct)
    requires LInv(l) && LCan(l, a) && LInternal(a)
    ensures Work(LStep(l, a)) < Work(l)
  {
    match a
    case LForward => PluginWorks(l, a);
    case LSendReply => PluginWorks(l, a);
    case LReadReply => PluginWorks(l, a);
    case LRead => ReaderWorks(l, a);
    case LPut => ReaderWorks(l, a);
    case LFinish => ReaderWorks(l, a);
    case _ => ChannelWorks(l, a);
  }

  lemma EnrollWorks(l: Local)
    requires LInv(l) && LCan(l, LEnroll)
    ensures Work(LStep(l, LEnroll)) < Work(l)
  {
  }

  lemma ChannelWorks(l: Local, a: LocalAct)
    requires LInv(l) && LCan(l, a) && (a == LEnroll || a == LRecv || a == LNotifyCrash || a == LCloseCrashed)
    ensures Work(LStep(l, a)) < Work(l)
  {
    if a == LEnroll {
      EnrollWorks(l);
    }
  }

  lemma {:induction false} TotalSplit(s: Sys, ids: set<Id>, x: Id)
    requires x in ids
    ensures Total(s, ids) == Work(Project(s, x)) + Total(s, ids - {x})
    decreases |ids|
  {
    var y :| y in ids && Total(s, ids) == Work(Project(s, y)) + Total(s, ids - {y});
    if y != x {
      TotalSplit(s, ids - {y}, x);
      TotalSplit(s, ids - {x}, y);
      assert ids - {x} - {y} == ids - {y} - {x};
    }
  }

  lemma {:induction false} TotalSame(s: Sys, t: Sys, ids: set<Id>)
    requires forall id :: id in ids ==> Project(t, id) == Project(s, id)
    ensures Total(t, ids) == Total(s, ids)
    decreases |ids|
  {
    if ids != {} {
      var x :| x in ids;
      TotalSplit(s, ids, x);
      TotalSplit(t, ids, x);
      TotalSame(s, t, ids - {x});
    }
  }

  /** A step that adds to no stream's work, or with `sweep` at most 3 to each. */
  lemma {:induction false} TotalAtMost(s: Sys, t: Sys, ids: set<Id>, sweep: bool)
    requires forall id :: id in ids ==> Work(Project(t, id)) <= Work(Project(s, id)) + if sweep then 3 else 0
    ensures Total(t, ids) <= Total(s, ids) + if sweep then 3 * |ids| else 0
    decreases |ids|
  {
    if ids != {} {
      var x :| x in ids;
      TotalSplit(s, ids, x);
      TotalSplit(t, ids, x);
      TotalAtMost(s, t, ids - {x}, sweep);
    }
  }

  lemma FailWorks(l: Local, err: ProviderError)
    requires LInv(l)
    ensures Work(LStep(l, LFail(err))) <= Work(l) + 3
  {
  }

  lemma EmptyingWorks(l: Local)
    ensures Work(LStep(l, LRestart)) <= Work(l)
  {
  }

  lemma DisconnectWorks(l: Local, notes: nat, replies: nat)
    requires LCan(l, LDisconnect(notes, replies))
    ensures Work(LStep(l, LDisconnect(notes, replies))) <= Work(l)
  {
  }

  /** The one stream an internal step is about. */
  function Subject(s: Sys, a: Action): Id
    requires Internal(a) && !OfTheInstance(a) && Do(s, a).Some?
  {
    match a
    case Read => s.wire[0].id
    case Put => s.reader.id
    case Finish => s.reader.id
    case Forward(id) => id
    case SendReply(id) => id
    case Enroll(id) => id
    case Recv(id) => id
    case NotifyCrash(id) => id
    case CloseCrashed(id) => id
  }

  predicate Jams(s: Sys, a: Action) { a.Enroll? && !DrainFits(s.host, a.id) }

  lemma SubjectActs(s: Sys, a: Action, t: Sys, id: Id)
    requires Internal(a) && !OfTheInstance(a) && Do(s, a) == Some(t)
    ensures ActOn(s, a, id) != Skip <==> id == Subject(s, a) && !Jams(s, a)
    ensures ActOn(s, a, id) != Skip ==> LInternal(ActOn(s, a, id))
  {
  }

  lemma InternalKeepsTables(s: Sys, a: Action, t: Sys)
    requires Internal(a) && !OfTheInstance(a) && Do(s, a) == Some(t)
    ensures t.plugin.Keys == s.plugin.Keys
    ensures InstanceWork(t) == InstanceWork(s) - if Jams(s, a) then 1 else 0
  {
    if a.Start? || a.Refuse? || a.Open? || a.Forward? || a.SendReply? || a.CancelPlugin? {
      PluginStepKeeps(s, a, t);
    } else if a.Enroll? {
      EnrollJams(s, a.id, t);
    } else if a.Read? || a.Put? || a.Finish? || a.Enroll? || a.GiveUp? || a.Recv? || a.CancelClose? {
      HostStepKeeps(s, a, t);
    } else {
      EndStepKeeps(s, a, t);
    }
  }

  lemma SubjectIsOpen(l: Local, a: LocalAct)
    requires LInv(l) && LCan(l, a) && LInternal(a)
    ensures l.plugin.Some?
  {
  }

  /** Every internal step uses up some of the measure. */
  lemma StepDecreases(s: Sys, a: Action, t: Sys)
    requires Reachable(s) && Internal(a) && Do(s, a) == Some(t)
    ensures Measure(t) < Measure(s)
  {
    if OfTheInstance(a) {
      InstanceStepDecreases(s, a, t);
    } else {
      StreamStepDecreases(s, a, t);
    }
  }

  lemma SweepWorks(s: Sys, t: Sys, id: Id)
    requires Reachable(s) && Do(s, Sweep) == Some(t)
    ensures Work(Project(t, id)) <= Work(Project(s, id)) + 3
  {
    ReachableInv(s, id);
    FailProjects(s, CRASHED, t.process, id);
    FailWorks(Project(s, id), CRASHED);
  }

  lemma HangUpWorks(s: Sys, keep: nat, t: Sys, id: Id)
    requires Do(s, HangUp(keep)) == Some(t)
    ensures Work(Project(t, id)) <= Work(Project(s, id))
  {
    DisconnectProjects(s, keep, id);
    DisconnectWorks(Project(s, id), |NotesOf(s.wire[..keep], id)|, RepliesOf(s.wire[..keep], id));
  }

  lemma RestartWorks(s: Sys, t: Sys, id: Id)
    requires Do(s, Restart) == Some(t)
    ensures Work(Project(t, id)) <= Work(Project(s, id))
  {
    EmptyProjects(s, t.process, id);
    EmptyingWorks(Project(s, id));
  }

  lemma InstanceStepWorks(s: Sys, a: Action, t: Sys, id: Id)
    requires Reachable(s) && Do(s, a) == Some(t)
    requires a.Watch? || a.Sweep? || a.Recheck? || a.Restart? || a.HangUp?
    ensures Work(Project(t, id)) <= Work(Project(s, id)) + if a.Sweep? then 3 else 0
  {
    match a
    case Sweep => SweepWorks(s, t, id);
    case HangUp(keep) => HangUpWorks(s, keep, t, id);
    case Restart => RestartWorks(s, t, id);
    case Watch => WatcherProjects(s, a, t, id);
    case Recheck => WatcherProjects(s, a, t, id);
  }

  lemma InstanceStepDecreases(s: Sys, a: Action, t: Sys)
    requires Reachable(s) && Do(s, a) == Some(t)
    requires a.Watch? || a.Sweep? || a.Recheck? || a.Restart? || a.HangUp?
    ensures Measure(t) < Measure(s)
  {
    forall id ensures Work(Project(t, id)) <= Work(Project(s, id)) + if a.Sweep? then 3 else 0 {
      InstanceStepWorks(s, a, t, id);
    }
    EndStepKeeps(s, a, t);
    TotalAtMost(s, t, s.plugin.Keys, a.Sweep?);
    InstanceUsesUp(s, a, t);
  }

  lemma ProcessMoves(s: Sys, a: Action, t: Sys)
    requires Do(s, a) == Some(t)
    requires a.Watch? || a.Sweep? || a.Recheck? || a.Restart? || a.HangUp?
    ensures match a
            case Watch => s.process.watcher.Waiting? && (t.process.watcher.Sweeping? || t.process.watcher.Over?)
            case Sweep => s.process.watcher.Sweeping? && t.process.watcher.Pausing?
            case Recheck => s.process.watcher.Pausing? && (t.process.watcher.Starting? || t.process.watcher.Over?)
            case Restart => s.process.watcher.Starting? && t.process.watcher.WaitingAgain?
            case HangUp(_) => !s.process.dead && t.process == s.process.(dead := true)
            case _ => false
    ensures !a.HangUp? ==> t.process.dead == s.process.dead
  {
  }

  lemma InstanceUsesUp(s: Sys, a: Action, t: Sys)
    requires Do(s, a) == Some(t)
    requires a.Watch? || a.Sweep? || a.Recheck? || a.Restart? || a.HangUp?
    ensures InstanceWork(t) + (if a.Sweep? then 3 * |s.plugin.Keys| else 0) < InstanceWork(s)
  {
    ProcessMoves(s, a, t);
    EndStepKeeps(s, a, t);
  }

  lemma OtherStreamsSame(s: Sys, a: Action, t: Sys, id: Id)
    requires Internal(a) && !OfTheInstance(a) && Do(s, a) == Some(t) && (id != Subject(s, a) || Jams(s, a))
    ensures Project(t, id) == Project(s, id)
  {
    SubjectActs(s, a, t, id);
    StepProjects(s, a, t, id);
  }

  lemma SubjectWorks(s: Sys, a: Action, t: Sys)
    requires Reachable(s) && Internal(a) && !OfTheInstance(a) && Do(s, a) == Some(t) && !Jams(s, a)
    ensures Subject(s, a) in s.plugin && Work(Project(t, Subject(s, a))) < Work(Project(s, Subject(s, a)))
  {
    var x := Subject(s, a);
    ReachableInv(s, x);
    SubjectActs(s, a, t, x);
    StepProjects(s, a, t, x);
    SubjectIsOpen(Project(s, x), ActOn(s, a, x));
    LocalWorks(Project(s, x), ActOn(s, a, x));
  }

  lemma StreamStepDecreases(s: Sys, a: Action, t: Sys)
    requires Reachable(s) && Internal(a) && !OfTheInstance(a) && Do(s, a) == Some(t)
    ensures Measure(t) < Measure(s)
  {
    var ids := s.plugin.Keys;
    InternalKeepsTables(s, a, t);
    forall id | id != Subject(s, a) || Jams(s, a) ensures Project(t, id) == Project(s, id) {
      OtherStreamsSame(s, a, t, id);
    }
    if Jams(s, a) {
      TotalSame(s, t, ids);
    } else {
      var x := Subject(s, a);
      SubjectWorks(s, a, t);
      TotalSplit(s, ids, x);
      TotalSplit(t, ids, x);
      TotalSame(s, t, ids - {x});
    }
  }

  /** Between two outside decisions only a bounded number of steps happen, whatever the schedule. */
  lemma {:induction false} InternalRunsAreBounded(s: Sys, acts: seq<Action>, t: Sys)
    requires Reachable(s) && AllInternal(acts) && Run(s, acts) == Some(t)
    ensures |acts| + Measure(t) <= Measure(s)
    decreases |acts|
  {
    if acts != [] {
      var u := Do(s, acts[0]).value;
      StepDecreases(s, acts[0], u);
      ReachableStep(s, acts[0], u);
      InternalRunsAreBounded(u, acts[1..], t);
    }
  }

  // ---- where nothing is left to do ----------------------------------------------------------

  ghost predicate Quiescent(s: Sys) {
    forall a :: Internal(a) ==> Do(s, a).None?
  }

  /** A busy reader, or one with something to read, is never the reason that nothing can happen. */
  lemma ReaderCanMove(s: Sys) returns (a: Action)
    requires Reachable(s) && s.jam.None? && (s.reader != Idle || s.wire != [])
    ensures Internal(a) && Do(s, a).Some?
  {
    match s.reader
    case Idle => a := Read;
    case Finishing(id) => a := Finish;
    case Sending(id, ev) => a := SenderCanMove(s, id);
  }

  /** A full channel has something to receive. */
  lemma SenderCanMove(s: Sys, id: Id) returns (a: Action)
    requires Reachable(s) && s.reader.Sending? && s.reader.id == id
    ensures Internal(a) && Do(s, a).Some?
  {
    ReachableInv(s, id);
    assert Project(s, id).flight != NoFlight && Project(s, id).chan.Some?;
    a := if SendBlocks(s.host.chans[id]) then Recv(id) else Put;
  }

  /** Nothing is left to do for this stream. */
  predicate AtRest(s: Sys, id: Id) {
    && id in s.plugin && (!s.process.dead ==> s.plugin[id].done && id in s.replied)
    && (id in s.replied && id !in s.gaveUp ==> id in s.host.chans)
    && (id in s.host.chans ==> s.host.chans[id].buf == [])
    && id !in s.crash
  }

  lemma EmptyWireFacts(s: Sys, id: Id)
    requires Reachable(s) && s.wire == []
    ensures !s.process.dead && id in s.replySent ==> id in s.replied
    ensures id in s.crash ==> id in s.host.chans
  {
    ReachableInv(s, id);
    var l := Project(s, id);
    assert RepliesOk(l) && ChannelOk(l) && l.replies == 0;
  }

  lemma StreamCanMove(s: Sys, id: Id) returns (a: Action)
    requires Reachable(s) && s.jam.None? && s.reader == Idle && s.wire == []
    requires id in s.plugin && !AtRest(s, id)
    ensures Internal(a) && Do(s, a).Some?
  {
    EmptyWireFacts(s, id);
    if !s.process.dead && !s.plugin[id].done {
      a := Forward(id);
    } else if !s.process.dead && id !in s.replySent {
      a := SendReply(id);
    } else if id in s.replied && id !in s.gaveUp && id !in s.host.chans {
      a := Enroll(id);
    } else if id in s.host.chans && s.host.chans[id].buf != [] {
      a := Recv(id);
    } else if s.crash[id].ToNotify? {
      a := NotifyCrash(id);
    } else {
      a := CloseCrashed(id);
    }
  }

  lemma QuiescentStream(s: Sys, id: Id)
    requires Reachable(s) && Quiescent(s) && s.jam.None? && id in s.plugin
    ensures s.reader == Idle && s.wire == [] && AtRest(s, id)
  {
    if s.reader != Idle || s.wire != [] {
      var a := ReaderCanMove(s);
    } else if !AtRest(s, id) {
      var a := StreamCanMove(s, id);
    }
  }

  /** What `watch` and Stop have still to do. */
  predicate InstanceOwes(s: Sys) {
    || (s.process.dead && s.process.watcher.Waiting?)
    || s.process.watcher.Sweeping? || s.process.watcher.Starting?
    || (s.process.stopped && !s.process.dead)
  }

  lemma InstanceCanMove(s: Sys) returns (a: Action)
    requires s.jam.None? && InstanceOwes(s)
    ensures Internal(a) && Do(s, a).Some?
  {
    if s.process.watcher.Sweeping? {
      a := Sweep;
    } else if s.process.watcher.Starting? {
      a := Restart;
    } else if s.process.dead {
      a := Watch;
    } else {
      a := HangUp(0);
    }
  }

  lemma QuiescentInstance(s: Sys)
    requires Quiescent(s) && s.jam.None?
    ensures !InstanceOwes(s)
  {
    if InstanceOwes(s) {
      var a := InstanceCanMove(s);
    }
  }

  lemma CrashedHasChannel(s: Sys, id: Id)
    requires Reachable(s) && id in s.crash
    ensures id in s.host.chans
  {
    ReachableInv(s, id);
    assert Project(s, id).crash.Some?;
  }

  /** In the pause either notices and closes are left, or `watch` can look at the flag. */
  lemma PauseEnds(s: Sys) returns (a: Action)
    requires Reachable(s) && s.jam.None? && s.process.watcher.Pausing?
    ensures Internal(a) && Do(s, a).Some?
  {
    if s.crash == map[] {
      a := Recheck;
    } else {
      var id :| id in s.crash;
      CrashedHasChannel(s, id);
      if s.crash[id].ToNotify? {
        a := NotifyCrash(id);
      } else {
        a := CloseCrashed(id);
      }
    }
  }

  /**
   * Where nothing is left to do, a plugin that died has been started again unless Stop came first, and
   * an instance that was stopped has ended its connection.
   */
  lemma CrashedIsRestarted(s: Sys)
    requires Reachable(s) && Quiescent(s) && s.jam.None?
    ensures s.process.dead && !s.process.stopped ==> s.process.watcher.WaitingAgain?
    ensures s.process.stopped ==> s.process.dead
    ensures !s.process.dead ==> s.process.watcher.Waiting?
  {
    QuiescentInstance(s);
    if s.process.watcher.Pausing? {
      var a := PauseEnds(s);
    }
    if !s.process.stopped {
      RestartComesLast(s);
    }
  }

  /** From every reachable state some internal steps lead to where nothing is left to do. */
  lemma Settles(s: Sys) returns (acts: seq<Action>, t: Sys)
    requires Reachable(s)
    ensures AllInternal(acts) && Run(s, acts) == Some(t) && Quiescent(t) && Reachable(t)
    decreases Measure(s)
  {
    if Quiescent(s) {
      acts, t := [], s;
    } else {
      var a :| Internal(a) && Do(s, a).Some?;
      var u := Do(s, a).value;
      StepDecreases(s, a, u);
      ReachableStep(s, a, u);
      var more: seq<Action>;
      more, t := Settles(u);
      acts := [a] + more;
      RunOne(s, a, u, more);
    }
  }
}
