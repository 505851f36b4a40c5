/**
 * The exceptions are real: runs at whose end nothing is left to do and a consumer waits for
 * ever on an open channel.
 */
module Hangs {
  import opened Wrappers
  import opened Events
  import opened Host
  import opened System
  import opened Guarantees
  import opened Schedules
  import opened Progress

  /**
   * One stream after the death of its plugin: `forgotten` parked events are gone, the channel,
   * if there is one, is empty and open, and `live` says whether it is in the table.
   */
  function Bereft(id: Id, p: Forwarder, forgotten: nat, w: Watcher, registered: bool, live: bool, orphan: bool): Sys {
    Announced(id, p).(
    host := HostState(if live then {id} else {}, map[], if registered then map[id := Chan([], false, [])] else map[]),
    process := Process(true, false, w),
    lost := if forgotten == 0 then map[] else map[id := forgotten],
    orphans := if orphan then {id} else {},
    hit := {id})
  }

  lemma {:induction false} RunOnce(s: Sys, a: Action, t: Sys)
    requires Do(s, a) == Some(t)
    ensures Run(s, [a]) == Some(t)
  {
    RunOne(s, a, t, []);
    assert [a] + [] == [a];
  }

  lemma {:induction false} RunThen(s: Sys, first: seq<Action>, u: Sys, rest: seq<Action>, t: Sys)
    requires Run(s, first) == Some(u) && Run(u, rest) == Some(t)
    ensures Run(s, first + rest) == Some(t)
  {
    RunConcat(s, first, rest);
  }

  lemma Dies(id: Id, p: Forwarder, parked: seq<StreamEvent>)
    ensures var t := ParkState(id, p, parked).(process := Process(true, false, Sweeping), hit := {id});
            Run(ParkState(id, p, parked), [Crash(0)] + [Watch]) == Some(t)
  {
    var s := ParkState(id, p, parked);
    var u := s.(process := Process(true, false, Waiting), hit := {id});
    var t := s.(process := Process(true, false, Sweeping), hit := {id});
    assert s.hit + s.plugin.Keys == {id} && s.wire[..0] == s.wire;
    RunOnce(s, Crash(0), u);
    RunOnce(u, Watch, t);
    RunThen(s, [Crash(0)], u, [Watch], t);
  }

  lemma ForgottenParked(s: Sys, id: Id, parked: seq<StreamEvent>)
    requires s.host == HostState({}, if parked == [] then map[] else map[id := parked], map[]) && s.lost == map[]
    ensures Forgotten(s) == if |parked| == 0 then map[] else map[id := |parked|]
  {
  }

  lemma Swept(id: Id, p: Forwarder, parked: seq<StreamEvent>)
    ensures var s := ParkState(id, p, parked).(process := Process(true, false, Sweeping), hit := {id});
            Run(s, [Sweep]) == Some(Bereft(id, p, |parked|, Pausing, false, false, false))
  {
    var s := ParkState(id, p, parked).(process := Process(true, false, Sweeping), hit := {id});
    var t := Bereft(id, p, |parked|, Pausing, false, false, false);
    ForgottenParked(s, id, parked);
    assert s.hit + s.plugin.Keys == {id} && s.crash.Keys + s.host.streams == {};
    assert FailStreams(s, CRASHED, t.process) == t;
    RunOnce(s, Sweep, t);
  }

  /** The plugin dies with nothing on the wire, and `watch` fails the streams: nothing of this one was registered. */
  lemma DiesAndIsSwept(id: Id, p: Forwarder, parked: seq<StreamEvent>) returns (acts: seq<Action>)
    ensures Run(ParkState(id, p, parked), acts) == Some(Bereft(id, p, |parked|, Pausing, false, false, false))
  {
    var s := ParkState(id, p, parked).(process := Process(true, false, Sweeping), hit := {id});
    Dies(id, p, parked);
    Swept(id, p, parked);
    var t := Bereft(id, p, |parked|, Pausing, false, false, false);
    RunThen(ParkState(id, p, parked), [Crash(0)] + [Watch], s, [Sweep], t);
    acts := [Crash(0)] + [Watch] + [Sweep];
  }

  /** Then it starts the plugin again; a stream in the table becomes an orphan. */
  lemma Restarts(id: Id, p: Forwarder, n: nat, live: bool)
    ensures Run(Bereft(id, p, n, Pausing, live, live, false), [Recheck] + [Restart])
            == Some(Bereft(id, p, n, WaitingAgain, live, false, live))
  {
    var s, u := Bereft(id, p, n, Pausing, live, live, false), Bereft(id, p, n, Starting, live, live, false);
    var t := Bereft(id, p, n, WaitingAgain, live, false, live);
    RunOnce(s, Recheck, u);
    assert u.hit + u.plugin.Keys == {id} && Forgotten(u) == u.lost;
    assert EmptyTables(u, t.process) == t;
    RunOnce(u, Restart, t);
    RunThen(s, [Recheck], u, [Restart], t);
  }

  lemma Enrolls(id: Id, p: Forwarder, n: nat, w: Watcher)
    ensures Run(Bereft(id, p, n, w, false, false, false), [Enroll(id)]) == Some(Bereft(id, p, n, w, true, true, false))
  {
    var s, t := Bereft(id, p, n, w, false, false, false), Bereft(id, p, n, w, true, true, false);
    assert Tag([]) == [];
    assert Register(s.host, id) == t.host;
    RunOnce(s, Enroll(id), t);
  }

  lemma CancelsInVain(id: Id, p: Forwarder, n: nat)
    ensures var s := Bereft(id, p, n, WaitingAgain, true, false, true); Run(s, [CancelClose(id)]) == Some(s)
  {
    var s := Bereft(id, p, n, WaitingAgain, true, false, true);
    assert CloseStream(s.host, id) == s.host && s.hit + {id} == s.hit;
    RunOnce(s, CancelClose(id), s);
  }

  lemma NothingLeft(id: Id, p: Forwarder, n: nat, live: bool)
    ensures Quiescent(Bereft(id, p, n, WaitingAgain, true, live, !live))
  {
    var s := Bereft(id, p, n, WaitingAgain, true, live, !live);
    forall a | Internal(a) ensures Do(s, a).None? {
    }
  }

  /** Death, clean-up, restart, and then the call registers its stream. */
  lemma EnrollAfterRestart(id: Id, p: Forwarder, parked: seq<StreamEvent>) returns (acts: seq<Action>)
    ensures Run(ParkState(id, p, parked), acts) == Some(Bereft(id, p, |parked|, WaitingAgain, true, true, false))
  {
    var n := |parked|;
    var s, u := ParkState(id, p, parked), Bereft(id, p, n, Pausing, false, false, false);
    var v, t := Bereft(id, p, n, WaitingAgain, false, false, false), Bereft(id, p, n, WaitingAgain, true, true, false);
    var die := DiesAndIsSwept(id, p, parked);
    Restarts(id, p, n, false);
    Enrolls(id, p, n, WaitingAgain);
    RunThen(u, [Recheck] + [Restart], v, [Enroll(id)], t);
    RunThen(s, die, u, [Recheck] + [Restart] + [Enroll(id)], t);
    acts := die + ([Recheck] + [Restart] + [Enroll(id)]);
  }

  /** Death, clean-up, registration, restart, and then the consumer's cancel. */
  lemma EnrollBeforeRestart(id: Id, p: Forwarder) returns (acts: seq<Action>)
    ensures Run(ParkState(id, p, []), acts) == Some(Bereft(id, p, 0, WaitingAgain, true, false, true))
    ensures acts != [] && acts[|acts| - 1] == CancelClose(id)
  {
    var s, u := ParkState(id, p, []), Bereft(id, p, 0, Pausing, false, false, false);
    var v, t := Bereft(id, p, 0, Pausing, true, true, false), Bereft(id, p, 0, WaitingAgain, true, false, true);
    var die := DiesAndIsSwept(id, p, []);
    Enrolls(id, p, 0, Pausing);
    Restarts(id, p, 0, true);
    CancelsInVain(id, p, 0);
    RunThen(u, [Enroll(id)], v, [Recheck] + [Restart], t);
    RunThen(u, [Enroll(id)] + ([Recheck] + [Restart]), t, [CancelClose(id)], t);
    RunThen(s, die, u, [Enroll(id)] + ([Recheck] + [Restart]) + [CancelClose(id)], t);
    acts := die + ([Enroll(id)] + ([Recheck] + [Restart]) + [CancelClose(id)]);
  }

  /**
   * One way to be stranded: the reply and the terminal event have arrived, the plugin dies,
   * the clean-up forgets the parked event, the call registers its stream. The consumer then
   * waits for ever on an open channel.
   */
  lemma CrashBeforeRegistrationHangs(id: Id) returns (acts: seq<Action>, s: Sys)
    ensures Run(INIT, acts) == Some(s) && Quiescent(s) && s.jam.None? && Lost(s, id) > 0
    ensures id in s.plugin && id in s.host.chans && !s.host.chans[id].closed && !Complete(s, id)
  {
    var before, q := ParkFirst(id, [], 1);
    var parked := Forwarded([])[..1];
    var rest := EnrollAfterRestart(id, q, parked);
    s := Bereft(id, q, 1, WaitingAgain, true, true, false);
    RunThen(INIT, before, ParkState(id, q, parked), rest, s);
    NothingLeft(id, q, 1, true);
    acts := before + rest;
  }

  /** Another way: only the reply has arrived. Nothing is forgotten, but nothing can come either. */
  lemma RegistrationAfterCrashHangs(id: Id, script: seq<StreamEvent>)
    returns (acts: seq<Action>, s: Sys)
    ensures Run(INIT, acts) == Some(s) && Quiescent(s) && s.jam.None? && Lost(s, id) == 0
    ensures id in s.plugin && s.plugin[id].script == script
    ensures id in s.host.chans && !s.host.chans[id].closed && !Complete(s, id)
  {
    var before, q := ParkFirst(id, script, 0);
    var rest := EnrollAfterRestart(id, q, []);
    s := Bereft(id, q, 0, WaitingAgain, true, true, false);
    assert Forwarded(script)[..0] == [];
    RunThen(INIT, before, ParkState(id, q, []), rest, s);
    NothingLeft(id, q, 0, true);
    acts := before + rest;
  }

  /**
   * The way to be orphaned: the call registers its stream between clean-up and restart. Not
   * even a cancel, here the last thing that happens, ends the consumer's wait.
   */
  lemma CancelAfterRestartHangs(id: Id, script: seq<StreamEvent>)
    returns (acts: seq<Action>, s: Sys)
    ensures Run(INIT, acts) == Some(s) && Quiescent(s) && s.jam.None? && Lost(s, id) == 0
    ensures acts != [] && acts[|acts| - 1] == CancelClose(id)
    ensures id in s.plugin && s.plugin[id].script == script
    ensures id in s.host.chans && !s.host.chans[id].closed && !Complete(s, id)
  {
    var before, q := ParkFirst(id, script, 0);
    var rest := EnrollBeforeRestart(id, q);
    s := Bereft(id, q, 0, WaitingAgain, true, false, true);
    assert Forwarded(script)[..0] == [];
    RunThen(INIT, before, ParkState(id, q, []), rest, s);
    NothingLeft(id, q, 0, false);
    acts := before + rest;
  }
}
