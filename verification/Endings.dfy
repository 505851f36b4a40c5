/**
 * Which consumers reach the end of their stream: over every run that ends with nothing left
 * to do, all but those that a restart dropped and those that the last clean-up or restart
 * came too early for.
 */
module Endings {
  import opened Wrappers
  import opened Events
  import opened Host
  import opened System
  import opened Stream
  import opened Delivery
  import opened Guarantees
  import opened Schedules
  import opened Progress

  /** No clean-up and no restart. */
  predicate NoEmptying(acts: seq<Action>) {
    forall i :: 0 <= i < |acts| ==> !Empties(acts[i])
  }

  /** Nobody has stopped the instance, and the watcher has not failed the streams yet. */
  predicate Unswept(p: Process) {
    !p.stopped && (p.watcher.Waiting? || p.watcher.Sweeping?)
  }

  lemma UnsweptStep(s: Sys, a: Action, t: Sys)
    requires Do(s, a) == Some(t) && Unswept(s.process) && !a.Sweep? && !a.Stop?
    ensures Unswept(t.process)
  {
    if a.Start? || a.Refuse? || a.Open? || a.Forward? || a.SendReply? || a.CancelPlugin? {
      PluginStepKeeps(s, a, t);
    } else if a.Read? || a.Put? || a.Finish? || a.Enroll? || a.GiveUp? || a.Recv? || a.CancelClose? {
      HostStepKeeps(s, a, t);
    } else if a.NotifyCrash? || a.CloseCrashed? {
      EndStepKeeps(s, a, t);
    } else {
      UnsweptProcess(s, a, t);
    }
  }

  lemma UnsweptProcess(s: Sys, a: Action, t: Sys)
    requires Do(s, a) == Some(t) && Unswept(s.process)
    requires a.Crash? || a.Watch? || a.Recheck? || a.Restart? || a.NextCrash? || a.HangUp?
    ensures Unswept(t.process)
  {
  }

  lemma {:induction false} WithoutEmptying(s: Sys, acts: seq<Action>, t: Sys)
    requires Run(s, acts) == Some(t) && NoEmptying(acts) && Unswept(s.process)
    ensures Unswept(t.process)
    decreases |acts|
  {
    if acts != [] {
      assert !Empties(acts[0]);
      UnsweptStep(s, acts[0], Do(s, acts[0]).value);
      WithoutEmptying(Do(s, acts[0]).value, acts[1..], t);
    }
  }

  // ---- two ways to wait for ever ------------------------------------------------------------

  /** The step reads a terminal event of this stream from the connection. */
  predicate ReadsTerminal(s: Sys, a: Action, id: Id) {
    a.Read? && s.wire != [] && s.wire[0].Note? && s.wire[0].id == id && Terminal(s.wire[0].ev)
  }

  /** Some step of a run from `s` does. */
  predicate TerminalRead(s: Sys, acts: seq<Action>, id: Id)
    decreases |acts|
  {
    acts != [] &&
    (ReadsTerminal(s, acts[0], id) || (Do(s, acts[0]).Some? && TerminalRead(Do(s, acts[0]).value, acts[1..], id)))
  }

  /** Some restart of a run from `s` finds the stream in the table, and drops it without closing its channel. */
  predicate Orphaned(s: Sys, acts: seq<Action>, id: Id)
    decreases |acts|
  {
    acts != [] &&
    ((acts[0].Restart? && id in s.host.streams)
     || (Do(s, acts[0]).Some? && Orphaned(Do(s, acts[0]).value, acts[1..], id)))
  }

  /**
   * `before` ends with the last clean-up or restart, which comes too early for this stream:
   * it is not registered yet, and afterwards it is neither cancelled nor is a terminal event
   * of it read.
   */
  predicate StrandedBy(before: seq<Action>, after: seq<Action>, id: Id) {
    && before != [] && Empties(before[|before| - 1]) && NoEmptying(after) && CancelClose(id) !in after
    && match Run(INIT, before)
       case None => false
       case Some(s) => id !in s.host.chans && !TerminalRead(s, after, id)
  }

  /** The step at position `k` is that last one. */
  predicate StrandedAt(acts: seq<Action>, k: nat, id: Id)
    requires k < |acts|
  {
    StrandedBy(acts[..k + 1], acts[k + 1..], id)
  }

  predicate Stranded(acts: seq<Action>, id: Id) {
    exists k :: 0 <= k < |acts| && StrandedAt(acts, k, id)
  }

  // ---- orphans --------------------------------------------------------------------------------

  lemma OrphanStep(s: Sys, a: Action, t: Sys, id: Id)
    requires Do(s, a) == Some(t)
    ensures id in t.orphans <==> id in s.orphans || (a.Restart? && id in s.host.streams)
  {
    if a.Start? || a.Refuse? || a.Open? || a.Forward? || a.SendReply? || a.CancelPlugin? {
      PluginStepKeeps(s, a, t);
    } else if a.Read? || a.Put? || a.Finish? || a.Enroll? || a.GiveUp? || a.Recv? || a.CancelClose? {
      HostStepKeeps(s, a, t);
    } else {
      EndStepKeeps(s, a, t);
    }
  }

  lemma {:induction false} OrphanRun(s: Sys, acts: seq<Action>, t: Sys, id: Id)
    requires Run(s, acts) == Some(t)
    ensures id in t.orphans <==> id in s.orphans || Orphaned(s, acts, id)
    decreases |acts|
  {
    if acts != [] {
      OrphanStep(s, acts[0], Do(s, acts[0]).value, id);
      OrphanRun(Do(s, acts[0]).value, acts[1..], t, id);
    }
  }

  lemma {:induction false} NobodyOrphaned(s: Sys, acts: seq<Action>, id: Id)
    requires NoEmptying(acts)
    ensures !Orphaned(s, acts, id)
    decreases |acts|
  {
    if acts != [] {
      assert !Empties(acts[0]);
      if Do(s, acts[0]).Some? {
        NobodyOrphaned(Do(s, acts[0]).value, acts[1..], id);
      }
    }
  }

  // ---- after the tables were emptied ------------------------------------------------------------

  /**
   * How a stream stands, given whether a terminal event of it has been read: it is live until that
   * event is through.
   */
  predicate Tracks(l: Local, ended: bool) {
    var through := l.flight.Closing? || (l.flight.InFlight? && Terminal(l.flight.ev));
    if l.chan.None? then HasTerminal(l.Parked()) <==> ended
    else if ended then l.live ==> through
    else l.live && !through
  }

  lemma TrackRead(l: Local, ended: bool)
    requires LInv(l) && LCan(l, LRead) && Tracks(l, ended)
    ensures Tracks(LStep(l, LRead), ended || Terminal(l.wire[0]))
  {
    HasTerminalConcat(l.Parked(), [l.wire[0]]);
    HasTerminalOne(l.wire[0]);
  }

  lemma TrackAtHost(l: Local, a: LocalAct, ended: bool)
    requires LInv(l) && LCan(l, a) && Tracks(l, ended)
    requires a.LPut? || a.LFinish? || a.LEnroll? || a.LGiveUp? || a.LRecv?
    ensures Tracks(LStep(l, a), ended)
  {
  }

  lemma TrackAtEnd(l: Local, a: LocalAct, ended: bool)
    requires LInv(l) && LCan(l, a) && Tracks(l, ended)
    requires a.LDisconnect? || a.LNotifyCrash? || a.LCloseCrashed?
    ensures Tracks(LStep(l, a), ended)
  {
  }

  lemma TrackStep(l: Local, a: LocalAct, ended: bool)
    requires LInv(l) && LCan(l, a) && !a.LFail? && !a.LRestart? && !a.LCancelClose? && Tracks(l, ended)
    ensures Tracks(LStep(l, a), ended || (a.LRead? && Terminal(l.wire[0])))
  {
    if a.Skip? || a.LStart? || a.LRefuse? || a.LOpen? || a.LForward? || a.LSendReply? || a.LReadReply? ||
       a.LCancelPlugin? {
      PluginActKeeps(l, a);
    } else if a.LRead? {
      TrackRead(l, ended);
    } else if a.LPut? || a.LFinish? || a.LEnroll? || a.LGiveUp? || a.LRecv? {
      TrackAtHost(l, a, ended);
    } else {
      TrackAtEnd(l, a, ended);
    }
  }

  lemma ReadingProjects(s: Sys, a: Action, t: Sys, id: Id)
    requires Do(s, a) == Some(t)
    ensures ReadsTerminal(s, a, id) <==> ActOn(s, a, id).LRead? && Terminal(Project(s, id).wire[0])
  {
    if a.Read? && s.wire[0].Note? {
      HeadNote(s, id);
    }
  }

  lemma ActsGently(s: Sys, a: Action, id: Id)
    requires !Empties(a) && a != CancelClose(id)
    ensures !ActOn(s, a, id).LFail? && !ActOn(s, a, id).LRestart? && !ActOn(s, a, id).LCancelClose?
  {
  }

  lemma TrackDo(s: Sys, a: Action, t: Sys, id: Id, ended: bool)
    requires Reachable(s) && Do(s, a) == Some(t) && !Empties(a) && a != CancelClose(id)
    requires Tracks(Project(s, id), ended)
    ensures Tracks(Project(t, id), ended || ReadsTerminal(s, a, id))
  {
    var l, act := Project(s, id), ActOn(s, a, id);
    ReachableInv(s, id);
    StepProjects(s, a, t, id);
    ReadingProjects(s, a, t, id);
    ActsGently(s, a, id);
    TrackStep(l, act, ended);
  }

  lemma {:induction false} TrackRun(s: Sys, acts: seq<Action>, t: Sys, id: Id, ended: bool)
    requires Run(s, acts) == Some(t) && NoEmptying(acts) && CancelClose(id) !in acts
    requires Reachable(s) && Tracks(Project(s, id), ended)
    ensures Tracks(Project(t, id), ended || TerminalRead(s, acts, id))
    decreases |acts|
  {
    if acts != [] {
      var a, u := acts[0], Do(s, acts[0]).value;
      assert !Empties(a) && a in acts;
      TrackDo(s, a, u, id, ended);
      ReachableStep(s, a, u);
      assert TerminalRead(s, acts, id) == (ReadsTerminal(s, a, id) || TerminalRead(u, acts[1..], id));
      TrackRun(u, acts[1..], t, id, ended || ReadsTerminal(s, a, id));
    }
  }

  /** Registered once and out of the table. */
  predicate Shut(l: Local) { l.chan.Some? && !l.live }

  lemma ShutAtHost(l: Local, a: LocalAct)
    requires LCan(l, a) && Shut(l)
    requires a.LRead? || a.LPut? || a.LFinish? || a.LEnroll? || a.LGiveUp? || a.LRecv? || a.LCancelClose?
    ensures Shut(LStep(l, a))
  {
  }

  lemma ShutAtEnd(l: Local, a: LocalAct)
    requires LCan(l, a) && Shut(l)
    requires a.LDisconnect? || a.LFail? || a.LRestart? || a.LNotifyCrash? || a.LCloseCrashed?
    ensures Shut(LStep(l, a))
  {
  }

  lemma ShutStep(l: Local, a: LocalAct)
    requires LCan(l, a) && Shut(l)
    ensures Shut(LStep(l, a))
  {
    if a.Skip? || a.LStart? || a.LRefuse? || a.LOpen? || a.LForward? || a.LSendReply? || a.LReadReply? ||
       a.LCancelPlugin? {
      PluginActKeeps(l, a);
    } else if a.LDisconnect? || a.LFail? || a.LRestart? || a.LNotifyCrash? || a.LCloseCrashed? {
      ShutAtEnd(l, a);
    } else {
      ShutAtHost(l, a);
    }
  }

  lemma ShutByCancel(l: Local)
    requires LCan(l, LCancelClose)
    ensures Shut(LStep(l, LCancelClose))
  {
  }

  lemma ShutDo(s: Sys, a: Action, t: Sys, id: Id)
    requires Do(s, a) == Some(t) && (Shut(Project(s, id)) || a == CancelClose(id))
    ensures Shut(Project(t, id))
  {
    var l, act := Project(s, id), ActOn(s, a, id);
    StepProjects(s, a, t, id);
    if a == CancelClose(id) {
      ShutByCancel(l);
    } else {
      ShutStep(l, act);
    }
  }

  lemma {:induction false} ShutRun(s: Sys, acts: seq<Action>, t: Sys, id: Id)
    requires Run(s, acts) == Some(t)
    requires Shut(Project(s, id)) || CancelClose(id) in acts
    ensures Shut(Project(t, id))
    decreases |acts|
  {
    if acts != [] {
      var a, u := acts[0], Do(s, acts[0]).value;
      if Shut(Project(s, id)) || a == CancelClose(id) {
        ShutDo(s, a, u, id);
      }
      ShutRun(u, acts[1..], t, id);
    }
  }

  /**
   * Where nothing is left to do, a registered consumer is done exactly when its stream left the
   * table by being closed.
   */
  lemma DoneIffShut(s: Sys, id: Id)
    requires Reachable(s) && Quiescent(s) && s.jam.None? && id in s.host.chans
    ensures Complete(s, id) <==> Shut(Project(s, id)) && id !in s.orphans
    ensures Project(s, id).flight.NoFlight?
  {
    ReachableInv(s, id);
    RegisteredIsOpen(Project(s, id));
    QuiescentStream(s, id);
    ClosedAtRest(Project(s, id));
  }

  lemma RegisteredIsOpen(l: Local)
    requires LInv(l) && l.chan.Some?
    ensures l.plugin.Some?
  {
  }

  lemma ClosedAtRest(l: Local)
    requires LInv(l) && l.chan.Some? && l.crash.None?
    ensures l.chan.value.closed <==> Shut(l) && !l.orphan
  {
  }

  /** A stream with nothing lost and nothing under way is out of the table: its terminal event has arrived. */
  lemma AllArrived(l: Local)
    requires LInv(l) && l.plugin.Some? && l.plugin.value.done && !l.dead && l.lost == 0
    requires l.flight.NoFlight? && l.wire == []
    ensures !l.live
  {
    assert Owed(l) == l.Emitted();
    assert Genuine(l.Channelled()) + [] + [] == Genuine(l.Channelled());
  }

  lemma EndsUndisturbed(s: Sys, id: Id)
    requires Reachable(s) && Quiescent(s) && s.jam.None? && id in s.plugin && id !in s.gaveUp
    requires !s.process.dead && Lost(s, id) == 0 && id !in s.orphans
    ensures Complete(s, id)
  {
    QuiescentStream(s, id);
    ReachableInv(s, id);
    AllArrived(Project(s, id));
    DoneIffShut(s, id);
  }

  lemma LastEmptying(acts: seq<Action>) returns (k: int)
    ensures -1 <= k < |acts| && (k >= 0 ==> Empties(acts[k])) && NoEmptying(acts[k + 1..])
  {
    k := |acts| - 1;
    while k >= 0 && !Empties(acts[k])
      invariant -1 <= k < |acts| && NoEmptying(acts[k + 1..])
    {
      assert acts[k..] == [acts[k]] + acts[k + 1..];
      k := k - 1;
    }
  }

  lemma EmptiedLocal(l: Local, a: LocalAct)
    requires LInv(l) && LCan(l, a)
    requires a.LFail? || a.LRestart?
    ensures if LStep(l, a).chan.Some? then Shut(LStep(l, a)) else Tracks(LStep(l, a), false)
  {
  }

  lemma ActsEmptying(s: Sys, a: Action, id: Id)
    requires Empties(a)
    ensures ActOn(s, a, id).LFail? || ActOn(s, a, id).LRestart?
  {
  }

  /** Right after the tables were emptied a registered stream is out of the table, and any other has nothing parked. */
  lemma EmptyingEffect(s: Sys, a: Action, t: Sys, id: Id)
    requires Reachable(s) && Empties(a) && Do(s, a) == Some(t)
    ensures if id in t.host.chans then Shut(Project(t, id)) else Tracks(Project(t, id), false)
  {
    var l, act := Project(s, id), ActOn(s, a, id);
    ReachableInv(s, id);
    StepProjects(s, a, t, id);
    ActsEmptying(s, a, id);
    EmptiedLocal(l, act);
  }

  lemma SplitBefore(before: seq<Action>, s: Sys) returns (r: Sys)
    requires Run(INIT, before) == Some(s) && before != []
    ensures Reachable(r) && Reachable(s) && Do(r, before[|before| - 1]) == Some(s)
  {
    var n := |before| - 1;
    assert before == before[..n] + [before[n]];
    RunConcat(INIT, before[..n], [before[n]]);
    r := Run(INIT, before[..n]).value;
    LastStep(r, before[n], s);
  }

  lemma {:induction false} LastStep(s: Sys, a: Action, t: Sys)
    requires Run(s, [a]) == Some(t)
    ensures Do(s, a) == Some(t)
  {
    assert [a][1..] == [];
  }

  lemma {:induction false} ReachableAfter(before: seq<Action>, s: Sys, after: seq<Action>, t: Sys)
    requires Run(INIT, before) == Some(s) && Run(s, after) == Some(t)
    ensures Reachable(t)
  {
    RunConcat(INIT, before, after);
    assert Run(INIT, before + after) == Some(t);
  }

  /** From where the tables were emptied for the last time to where nothing is left to do. */
  lemma {:induction false} AfterEmptying(s: Sys, after: seq<Action>, t: Sys, id: Id)
    requires Reachable(s) && if id in s.host.chans then Shut(Project(s, id)) else Tracks(Project(s, id), false)
    requires Run(s, after) == Some(t) && NoEmptying(after)
    requires Reachable(t) && Quiescent(t) && t.jam.None? && id in t.host.chans
    ensures Complete(t, id) <==>
              id !in t.orphans && (id in s.host.chans || CancelClose(id) in after || TerminalRead(s, after, id))
  {
    DoneIffShut(t, id);
    if id in s.host.chans || CancelClose(id) in after {
      ShutRun(s, after, t, id);
    } else {
      TrackRun(s, after, t, id, false);
    }
  }

  lemma {:induction false} EndsAfter(before: seq<Action>, after: seq<Action>, t: Sys, id: Id)
    requires before != [] && Empties(before[|before| - 1]) && NoEmptying(after)
    requires Run(INIT, before).Some? && Run(Run(INIT, before).value, after) == Some(t)
    requires Quiescent(t) && t.jam.None? && id in t.host.chans
    ensures Complete(t, id) <==> id !in t.orphans && !StrandedBy(before, after, id)
  {
    var s := Run(INIT, before).value;
    var r := SplitBefore(before, s);
    EmptyingEffect(r, before[|before| - 1], s, id);
    ReachableAfter(before, s, after, t);
    AfterEmptying(s, after, t, id);
  }

  lemma OnlyTheLast(acts: seq<Action>, k: nat, id: Id)
    requires k < |acts| && Empties(acts[k]) && NoEmptying(acts[k + 1..])
    ensures Stranded(acts, id) <==> StrandedAt(acts, k, id)
  {
    if Stranded(acts, id) {
      var j :| 0 <= j < |acts| && StrandedAt(acts, j, id);
      assert acts[..j + 1][j] == acts[j];
      if j < k {
        OneBehind(acts, j, k);
      } else if k < j {
        OneBehind(acts, k, j);
      }
    }
  }

  lemma OneBehind(acts: seq<Action>, j: nat, k: nat)
    requires j < k < |acts| && Empties(acts[k])
    ensures !NoEmptying(acts[j + 1..])
  {
    assert acts[j + 1..][k - j - 1] == acts[k];
  }

  lemma {:induction false} EndsUnlessStranded(acts: seq<Action>, s: Sys, id: Id, k: nat)
    requires Run(INIT, acts) == Some(s) && Quiescent(s) && s.jam.None? && id in s.host.chans
    requires k < |acts| && Empties(acts[k]) && NoEmptying(acts[k + 1..])
    ensures Complete(s, id) <==> id !in s.orphans && !Stranded(acts, id)
  {
    var before, after := acts[..k + 1], acts[k + 1..];
    SplitRun(acts, k + 1);
    assert before[|before| - 1] == acts[k];
    EndsAfter(before, after, s, id);
    OnlyTheLast(acts, k, id);
  }

  lemma {:induction false} SplitRun(acts: seq<Action>, n: nat)
    requires n <= |acts| && Run(INIT, acts).Some?
    ensures Run(INIT, acts[..n]).Some? && Run(Run(INIT, acts[..n]).value, acts[n..]) == Run(INIT, acts)
  {
    assert acts == acts[..n] + acts[n..];
    RunConcat(INIT, acts[..n], acts[n..]);
  }

  lemma {:induction false} EndsWithoutEmptying(acts: seq<Action>, s: Sys, id: Id)
    requires Run(INIT, acts) == Some(s) && NoEmptying(acts) && Quiescent(s) && s.jam.None?
    requires id in s.plugin && id in s.host.chans
    ensures Complete(s, id) && !Stranded(acts, id) && id !in s.orphans
  {
    assert Reachable(s);
    WithoutEmptying(INIT, acts, s);
    QuiescentInstance(s);
    NothingLostYet(INIT, acts, s, id);
    OrphanRun(INIT, acts, s, id);
    NobodyOrphaned(INIT, acts, id);
    ReachableInv(s, id);
    assert Project(s, id).chan.Some? ==> !Project(s, id).gaveUp;
    EndsUndisturbed(s, id);
    NotStranded(acts, id);
  }

  lemma NotStranded(acts: seq<Action>, id: Id)
    requires NoEmptying(acts)
    ensures !Stranded(acts, id)
  {
    forall k | 0 <= k < |acts| ensures !StrandedAt(acts, k, id) {
      assert acts[..k + 1][k] == acts[k];
    }
  }

  lemma {:induction false} EndsUnlessDropped(acts: seq<Action>, s: Sys, id: Id)
    requires Run(INIT, acts) == Some(s) && Quiescent(s) && s.jam.None? && id in s.plugin && id in s.host.chans
    ensures Complete(s, id) <==> id !in s.orphans && !Stranded(acts, id)
  {
    var k := LastEmptying(acts);
    if k < 0 {
      assert acts[0..] == acts;
      EndsWithoutEmptying(acts, s, id);
    } else {
      EndsUnlessStranded(acts, s, id, k);
    }
  }

  lemma {:induction false} OrphansAre(acts: seq<Action>, s: Sys, id: Id)
    requires Run(INIT, acts) == Some(s)
    ensures id in s.orphans <==> Orphaned(INIT, acts, id)
  {
    OrphanRun(INIT, acts, s, id);
  }

  lemma RegisteredAtRest(s: Sys, id: Id)
    requires Reachable(s) && Quiescent(s) && s.jam.None? && id in s.plugin
    ensures (!s.process.dead || id in s.replied) && id !in s.gaveUp ==> id in s.host.chans
  {
    QuiescentStream(s, id);
  }

  /**
   * Where nothing is left to do, every stream whose reply arrived and whose call did not give
   * up is registered. Its consumer has reached the end, except exactly if a restart dropped
   * it from the table, or the last clean-up or restart came too early for it.
   */
  lemma {:induction false} EveryStreamEnds(acts: seq<Action>, s: Sys, id: Id)
    requires Run(INIT, acts) == Some(s) && Quiescent(s) && s.jam.None? && id in s.plugin
    ensures (!s.process.dead || id in s.replied) && id !in s.gaveUp ==> id in s.host.chans
    ensures id in s.host.chans ==> (Complete(s, id) <==> !Orphaned(INIT, acts, id) && !Stranded(acts, id))
  {
    assert Reachable(s);
    RegisteredAtRest(s, id);
    OrphansAre(acts, s, id);
    if id in s.host.chans {
      EndsUnlessDropped(acts, s, id);
    }
  }

  /**
   * An undisturbed stream always reaches its end with nothing lost: where nothing is left to
   * do its consumer is done, and has every event if nothing follows the first terminal one.
   */
  lemma {:induction false} UndisturbedStreamsComplete(acts: seq<Action>, s: Sys, id: Id)
    requires Run(INIT, acts) == Some(s) && Undisturbed(acts, id)
    requires Quiescent(s) && s.jam.None? && id in s.plugin && id !in s.gaveUp
    ensures Complete(s, id)
    ensures EndsAtTerminal(Forwarded(s.plugin[id].script)) ==>
              Genuine(Received(s, id)) == Forwarded(s.plugin[id].script)
  {
    assert Reachable(s);
    ReachableInv(s, id);
    UndisturbedIsUnhit(INIT, acts, s, id);
    assert UnhitOk(Project(s, id));
    EndsUndisturbed(s, id);
    if EndsAtTerminal(Forwarded(s.plugin[id].script)) {
      SchedulingDoesNotShow(acts, s, id);
    }
  }

  // ---- a call that gives up -------------------------------------------------------------------

  lemma GivenUpLocal(l: Local, a: LocalAct, m: Local)
    requires LInv(l) && LCan(l, a) && m == LStep(l, a) && l.gaveUp
    ensures m.gaveUp && m.chan.None?
    ensures !a.LFail? && !a.LRestart? ==> l.Parked() <= m.Parked()
  {
    assert ChannelOk(l) && l.chan.None?;
    if a.Skip? || a.LStart? || a.LRefuse? || a.LOpen? || a.LForward? || a.LSendReply? || a.LReadReply? ||
       a.LCancelPlugin? {
      PluginActKeeps(l, a);
    } else if a.LDisconnect? || a.LFail? || a.LRestart? || a.LNotifyCrash? || a.LCloseCrashed? {
      GivenUpAtEnd(l, a);
    } else {
      GivenUpAtHost(l, a);
    }
  }

  lemma GivenUpAtHost(l: Local, a: LocalAct)
    requires LInv(l) && LCan(l, a) && l.gaveUp && l.chan.None?
    requires a.LRead? || a.LPut? || a.LFinish? || a.LEnroll? || a.LGiveUp? || a.LRecv? || a.LCancelClose?
    ensures LStep(l, a).gaveUp && LStep(l, a).chan.None? && l.Parked() <= LStep(l, a).Parked()
  {
  }

  lemma GivenUpAtEnd(l: Local, a: LocalAct)
    requires LCan(l, a) && l.gaveUp && l.chan.None?
    requires a.LDisconnect? || a.LFail? || a.LRestart? || a.LNotifyCrash? || a.LCloseCrashed?
    ensures LStep(l, a).gaveUp && LStep(l, a).chan.None?
    ensures !a.LFail? && !a.LRestart? ==> LStep(l, a).parked == l.parked
  {
  }

  /** A stream whose call gave up is never registered, and what is parked for it stays until the tables are emptied. */
  lemma {:induction false} GivenUpStaysParked(s: Sys, acts: seq<Action>, t: Sys, id: Id)
    requires Reachable(s) && Run(s, acts) == Some(t) && id in s.gaveUp
    ensures id in t.gaveUp && id !in t.host.chans
    ensures NoEmptying(acts) ==> s.host.Pending(id) <= t.host.Pending(id)
    decreases |acts|
  {
    if acts == [] {
      ReachableInv(s, id);
      assert ChannelOk(Project(s, id));
    } else {
      var a, u := acts[0], Do(s, acts[0]).value;
      GivenUpDo(s, a, u, id);
      ReachableStep(s, a, u);
      GivenUpStaysParked(u, acts[1..], t, id);
      assert NoEmptying(acts) ==> !Empties(a);
    }
  }

  lemma PendingIsParked(s: Sys, id: Id)
    ensures Project(s, id).Parked() == s.host.Pending(id)
  {
  }

  lemma GivenUpDo(s: Sys, a: Action, t: Sys, id: Id)
    requires Reachable(s) && Do(s, a) == Some(t) && id in s.gaveUp
    ensures id in t.gaveUp
    ensures !Empties(a) ==> s.host.Pending(id) <= t.host.Pending(id)
  {
    ReachableInv(s, id);
    StepProjects(s, a, t, id);
    GivenUpLocal(Project(s, id), ActOn(s, a, id), Project(t, id));
    EmptyingActs(s, a, id);
    PendingIsParked(s, id);
    PendingIsParked(t, id);
  }

  lemma EmptyingActs(s: Sys, a: Action, id: Id)
    ensures ActOn(s, a, id).LFail? || ActOn(s, a, id).LRestart? <==> Empties(a)
  {
  }

  /** Where nothing is left to do, all of its events are parked, if it was not disturbed otherwise. */
  lemma {:induction false} GivenUpAtRest(acts: seq<Action>, s: Sys, id: Id)
    requires Run(INIT, acts) == Some(s) && Undisturbed(acts, id)
    requires Quiescent(s) && s.jam.None? && id in s.plugin && id in s.gaveUp
    ensures id !in s.host.chans && s.host.Pending(id) == Forwarded(s.plugin[id].script)
  {
    assert Reachable(s);
    ReachableInv(s, id);
    UndisturbedIsUnhit(INIT, acts, s, id);
    QuiescentStream(s, id);
    ExactlyOnce(acts, s, id);
    AllParked(Project(s, id));
  }

  lemma AllParked(l: Local)
    requires LInv(l) && l.gaveUp && !l.hit && l.plugin.Some? && l.plugin.value.done && l.wire == []
    ensures l.chan.None? && l.Parked() == Forwarded(l.plugin.value.script)
  {
    UnhitTotal(l);
    assert Genuine([]) + [] + l.Parked() + [] == l.Parked();
    assert l.Emitted() + [] == l.Emitted();
  }

  // ---- a condition on the input -------------------------------------------------------------

  /** Nobody crashes, stops or cancels, and no opened stream has more events than the channel has slots. */
  predicate PeacefulAndShort(acts: seq<Action>) {
    forall i :: 0 <= i < |acts| ==>
      && !acts[i].Crash? && !acts[i].Stop? && !acts[i].CancelPlugin? && !acts[i].CancelClose?
      && (acts[i].Open? ==> |Forwarded(acts[i].script)| <= 64)
  }

  predicate AllShort(s: Sys) {
    s.process == INIT.process && forall id :: id in s.plugin ==> |Forwarded(s.plugin[id].script)| <= CAPACITY
  }

  lemma PeacefulStep(s: Sys, a: Action, t: Sys)
    requires Do(s, a) == Some(t) && s.process == INIT.process && !a.Crash? && !a.Stop?
    ensures t.process == s.process
    ensures !a.HangUp? && !a.Sweep? && !a.Watch? && !a.Recheck? && !a.Restart? && !a.NextCrash?
  {
    if a.Start? || a.Refuse? || a.Open? || a.Forward? || a.SendReply? || a.CancelPlugin? {
      PluginStepKeeps(s, a, t);
    } else if a.Read? || a.Put? || a.Finish? || a.Enroll? || a.GiveUp? || a.Recv? || a.CancelClose? {
      HostStepKeeps(s, a, t);
    } else if a.NotifyCrash? || a.CloseCrashed? {
      EndStepKeeps(s, a, t);
    }
  }

  lemma ScriptsStay(s: Sys, a: Action, t: Sys, id: Id)
    requires Do(s, a) == Some(t) && id in t.plugin
    ensures if id in s.plugin then t.plugin[id].script == s.plugin[id].script else a == Open(id, t.plugin[id].script)
  {
    if a.Start? || a.Refuse? || a.Open? || a.Forward? || a.SendReply? || a.CancelPlugin? {
      ScriptsAtPlugin(s, a, t, id);
    } else if a.Read? || a.Put? || a.Finish? || a.Enroll? || a.GiveUp? || a.Recv? || a.CancelClose? {
      HostStepKeeps(s, a, t);
    } else {
      EndStepKeeps(s, a, t);
    }
  }

  lemma ScriptsAtPlugin(s: Sys, a: Action, t: Sys, id: Id)
    requires Do(s, a) == Some(t) && id in t.plugin
    requires a.Start? || a.Refuse? || a.Open? || a.Forward? || a.SendReply? || a.CancelPlugin?
    ensures if id in s.plugin then t.plugin[id].script == s.plugin[id].script else a == Open(id, t.plugin[id].script)
  {
  }

  lemma ShortStep(s: Sys, a: Action, t: Sys)
    requires Do(s, a) == Some(t) && AllShort(s) && !a.Crash? && !a.Stop?
    requires a.Open? ==> |Forwarded(a.script)| <= CAPACITY
    ensures AllShort(t)
  {
    PeacefulStep(s, a, t);
    forall id | id in t.plugin ensures |Forwarded(t.plugin[id].script)| <= CAPACITY {
      ScriptsStay(s, a, t, id);
    }
  }

  lemma OneMoreUndisturbed(acts: seq<Action>, id: Id)
    requires acts != [] && !Disturbs(acts[0], id) && Undisturbed(acts[1..], id)
    ensures Undisturbed(acts, id)
  {
    assert forall i :: 1 <= i < |acts| ==> acts[i] == acts[1..][i - 1];
  }

  /** Such a run has neither hang-up, clean-up nor restart either. */
  lemma {:induction false} ShortRun(s: Sys, acts: seq<Action>, t: Sys, id: Id)
    requires Run(s, acts) == Some(t) && AllShort(s) && PeacefulAndShort(acts)
    ensures AllShort(t) && Undisturbed(acts, id)
    decreases |acts|
  {
    if acts != [] {
      var a, rest := acts[0], acts[1..];
      assert forall i :: 0 <= i < |rest| ==> rest[i] == acts[i + 1];
      ShortStep(s, a, Do(s, a).value);
      PeacefulStep(s, a, Do(s, a).value);
      ShortRun(Do(s, a).value, rest, t, id);
      OneMoreUndisturbed(acts, id);
    }
  }

  lemma {:induction false} JammedStreamIsOpen(acts: seq<Action>, s: Sys)
    requires Run(INIT, acts) == Some(s) && s.jam.Some?
    ensures s.jam.value in s.plugin
  {
    JamIsForever(INIT, acts, s);
    assert Reachable(s);
    ReachableInv(s, s.jam.value);
  }

  lemma {:induction false} ShortStreamsDoNotJam(acts: seq<Action>, s: Sys)
    requires Run(INIT, acts) == Some(s) && PeacefulAndShort(acts)
    ensures s.jam.None?
  {
    if s.jam.Some? {
      JammedStreamIsOpen(acts, s);
      var id := s.jam.value;
      ShortRun(INIT, acts, s, id);
      assert CanJam(s.plugin[id].script);
      JamsIffOverCapacity(s.plugin[id].script);
    }
  }

  /** With at most 64 events a stream and no outside interference, no drain blocks and every stream completes. */
  lemma {:induction false} ShortStreamsComplete(acts: seq<Action>, s: Sys, id: Id)
    requires Run(INIT, acts) == Some(s) && PeacefulAndShort(acts)
    ensures s.jam.None?
    ensures Quiescent(s) && id in s.plugin && id !in s.gaveUp ==> Complete(s, id)
    ensures Quiescent(s) && id in s.plugin && id !in s.gaveUp && EndsAtTerminal(Forwarded(s.plugin[id].script)) ==>
              Genuine(Received(s, id)) == Forwarded(s.plugin[id].script)
  {
    ShortStreamsDoNotJam(acts, s);
    ShortRun(INIT, acts, s, id);
    if Quiescent(s) && id in s.plugin && id !in s.gaveUp {
      UndisturbedStreamsComplete(acts, s, id);
    }
  }
}
