/**
 * The whole way from upstream to the client: delivery, rendering, translation and framing
 * put together.
 */
module EndToEnd {
  import opened Wrappers
  import opened Json
  import opened Events
  import opened Host
  import System
  import opened Guarantees
  import opened Schedules
  import opened Upstream
  import opened Render
  import opened Utterances
  import opened Meaning
  import opened Translation
  import opened Framing
  import EventStream

  // ---- what the consumer writes -------------------------------------------------------------------

  function EventsOf(items: seq<Item>): seq<StreamEvent> {
    if items == [] then [] else [items[0].Event()] + EventsOf(items[1..])
  }

  /** What a connected client has been sent when its consumer's loop is over. */
  function Written(m: Meta, s: System.Sys, id: Id): seq<Sse> {
    Rendered(m, EventsOf(Received(s, id)))
  }

  lemma {:induction false} EventsAreGenuine(items: seq<Item>)
    requires Notices(items) == 0
    ensures EventsOf(items) == Genuine(items)
  {
    if items != [] {
      EventsAreGenuine(items[1..]);
    }
  }

  /**
   * Scheduling does not show: when nothing follows the first terminal event, every complete
   * undisturbed run writes the one rendering of what the forwarder was given.
   */
  lemma {:induction false} OneRendering(m: Meta, acts: seq<System.Action>, s: System.Sys, id: Id)
    requires System.Run(System.INIT, acts) == Some(s) && Undisturbed(acts, id) && Complete(s, id)
    requires id in s.plugin && EndsAtTerminal(System.Forwarded(s.plugin[id].script))
    ensures EventsOf(Received(s, id)) == System.Forwarded(s.plugin[id].script)
    ensures Written(m, s, id) == Rendered(m, System.Forwarded(s.plugin[id].script))
  {
    CompleteDelivery(acts, s, id);
    SchedulingDoesNotShow(acts, s, id);
    EventsAreGenuine(Received(s, id));
  }

  /** Whether all complete undisturbed runs of a stream with this script look the same to the client. */
  ghost predicate LooksTheSame(m: Meta, script: seq<StreamEvent>) {
    forall a, b :: CanDeliver(script, a) && CanDeliver(script, b) ==> Rendered(m, a) == Rendered(m, b)
  }

  lemma {:induction false} CutIsPrefix(evs: seq<StreamEvent>)
    ensures UpToTerminal(evs) <= evs
    ensures HasTerminal(evs) ==> UpToTerminal(evs) != [] && Terminal(UpToTerminal(evs)[|UpToTerminal(evs)| - 1])
    ensures !HasTerminal(evs) ==> UpToTerminal(evs) == evs
    ensures forall i :: 0 <= i < |UpToTerminal(evs)| - 1 ==> !Terminal(evs[i])
  {
    if evs != [] {
      assert evs == [evs[0]] + evs[1..];
      HasTerminalConcat([evs[0]], evs[1..]);
      HasTerminalOne(evs[0]);
      CutIsPrefix(evs[1..]);
    }
  }

  lemma {:induction false} PrefixSees(a: seq<StreamEvent>, b: seq<StreamEvent>)
    requires a <= b
    ensures SawError(a) ==> SawError(b)
    ensures HasTerminal(a) ==> HasTerminal(b)
  {
    SawErrorMeans(a);
    SawErrorMeans(b);
    if SawError(a) {
      var i :| 0 <= i < |a| && a[i].kind == ErrorKind;
      assert b[i].kind == ErrorKind;
    }
    if HasTerminal(a) {
      var i :| 0 <= i < |a| && Terminal(a[i]);
      assert Terminal(b[i]);
    }
  }

  /** A delivery begins with everything up to the first terminal event. */
  lemma {:induction false} DeliveryHasCut(all: seq<StreamEvent>, got: seq<StreamEvent>)
    requires got <= all && HasTerminal(got)
    ensures UpToTerminal(all) <= got
  {
    CutIsPrefix(all);
    var i :| 0 <= i < |got| && Terminal(got[i]);
    assert Terminal(all[i]);
  }

  /** The client cannot tell two event sequences apart. */
  predicate Alike(m: Meta, a: seq<StreamEvent>, b: seq<StreamEvent>) {
    && (SawError(a) <==> SawError(b)) && Body(m, a) == Body(m, b)
    && (!SawError(a) ==> FinishOr(LastFinish(a)) == FinishOr(LastFinish(b)) && LastUsage(a) == LastUsage(b))
  }

  lemma {:induction false} RenderedParts(m: Meta, evs: seq<StreamEvent>)
    ensures var out, n := Rendered(m, evs), |Body(m, evs)|;
            && |out| == n + |Tail(m, evs)| && out[..n] == AsData(Body(m, evs)) && out[n..] == Tail(m, evs)
  {
  }

  lemma {:induction false} TailsAlike(m: Meta, a: seq<StreamEvent>, b: seq<StreamEvent>)
    requires Tail(m, a) == Tail(m, b) && !SawError(a) && !SawError(b)
    ensures FinishOr(LastFinish(a)) == FinishOr(LastFinish(b)) && LastUsage(a) == LastUsage(b)
  {
    FinalTells(m, FinishOr(LastFinish(a)));
    FinalTells(m, FinishOr(LastFinish(b)));
    assert Tail(m, a)[0] == Tail(m, b)[0];
    if LastUsage(a).Some? {
      UsageDecodes(m, LastUsage(a).value);
      UsageDecodes(m, LastUsage(b).value);
      assert Tail(m, a)[1] == Tail(m, b)[1];
    }
  }

  lemma FinalTells(m: Meta, finish: string)
    ensures Field(FinalChunk(m, finish).fields["choices"].items[0].fields, "finish_reason") == Str(finish)
  {
  }

  lemma {:induction false} SameText(a: seq<Json>, b: seq<Json>)
    requires AsData(a) == AsData(b)
    ensures a == b
  {
    forall i | 0 <= i < |a| ensures a[i] == b[i] {
      assert AsData(a)[i] == Data(a[i]) && AsData(b)[i] == Data(b[i]);
    }
  }

  /** What a client is sent tells it just that much about the events. */
  lemma RenderedAlikeIff(m: Meta, a: seq<StreamEvent>, b: seq<StreamEvent>)
    ensures Rendered(m, a) == Rendered(m, b) <==> Alike(m, a, b)
  {
    if Rendered(m, a) == Rendered(m, b) {
      StreamShape(m, a);
      StreamShape(m, b);
      RenderedParts(m, a);
      RenderedParts(m, b);
      SameText(Body(m, a), Body(m, b));
      if !SawError(a) {
        TailsAlike(m, a, b);
      }
    }
  }

  /** An event that adds nothing to what a client hears of `cut`. */
  predicate Silent(cut: seq<StreamEvent>, ev: StreamEvent) {
    && Tells(ev) == []
    && (SawError(cut)
        || (&& ev.kind != ErrorKind
            && (ev.finish == "" || ev.finish == FinishOr(LastFinish(cut)))
            && (ev.kind == UsageReport || (ev.kind == StreamEnd && ev.usage.Some?) ==> ev.usage == LastUsage(cut))))
  }

  lemma SilentStep(m: Meta, cut: seq<StreamEvent>, evs: seq<StreamEvent>, n: nat)
    requires n < |evs| && Alike(m, cut, evs[..n])
    ensures Alike(m, cut, evs[..n + 1]) <==> Silent(cut, evs[n])
  {
    OneMore(m, evs, n);
    WrittenIfTold(m, evs[n]);
    assert evs[..n + 1][..n] == evs[..n];
    assert Body(m, evs[..n + 1]) == Body(m, evs[..n]) + FramesOf(m, evs[n]);
  }

  lemma SilentRun(m: Meta, cut: seq<StreamEvent>, evs: seq<StreamEvent>, n: nat)
    requires |cut| <= n <= |evs| && cut == evs[..|cut|]
    requires forall k :: |cut| <= k < n ==> Silent(cut, evs[k])
    ensures Alike(m, cut, evs[..n])
    decreases n
  {
    if n > |cut| {
      SilentRun(m, cut, evs, n - 1);
      SilentStep(m, cut, evs, n - 1);
    }
  }

  lemma SameMeansSilent(m: Meta, script: seq<StreamEvent>, all: seq<StreamEvent>, cut: seq<StreamEvent>, k: nat)
    requires all == System.Forwarded(script) && cut == UpToTerminal(all)
    requires LooksTheSame(m, script) && |cut| <= k < |all| && k < CAPACITY
    ensures Silent(cut, all[k])
  {
    AlikeByDelivery(m, script, all, cut, k);
    AlikeByDelivery(m, script, all, cut, k + 1);
    SilentStep(m, cut, all, k);
  }

  lemma SilentMeansSame(m: Meta, script: seq<StreamEvent>, all: seq<StreamEvent>, cut: seq<StreamEvent>)
    requires all == System.Forwarded(script) && cut == UpToTerminal(all)
    requires forall k :: |cut| <= k < |all| && k < CAPACITY ==> Silent(cut, all[k])
    ensures LooksTheSame(m, script)
  {
    forall got | CanDeliver(script, got) ensures Rendered(m, got) == Rendered(m, cut) {
      DeliveredAlike(m, script, all, cut, got);
    }
  }

  /**
   * A stream looks the same under every schedule exactly when no event that follows the
   * first terminal one and fits into the channel would add to what the client is sent.
   */
  lemma LooksTheSameIff(m: Meta, script: seq<StreamEvent>)
    ensures var all, cut := System.Forwarded(script), UpToTerminal(System.Forwarded(script));
            LooksTheSame(m, script) <==> forall k :: |cut| <= k < |all| && k < 64 ==> Silent(cut, all[k])
  {
    var all := System.Forwarded(script);
    var cut := UpToTerminal(all);
    if LooksTheSame(m, script) {
      forall k | |cut| <= k < |all| && k < 64 ensures Silent(cut, all[k]) {
        SameMeansSilent(m, script, all, cut, k);
      }
    }
    if forall k :: |cut| <= k < |all| && k < 64 ==> Silent(cut, all[k]) {
      SilentMeansSame(m, script, all, cut);
    }
  }

  lemma ForwardedHasEnd(script: seq<StreamEvent>)
    ensures HasTerminal(System.Forwarded(script))
  {
    HasTerminalConcat(script, [System.SYNTHETIC_END]);
    HasTerminalOne(System.SYNTHETIC_END);
  }

  lemma {:induction false} AlikeByDelivery(
      m: Meta, script: seq<StreamEvent>, all: seq<StreamEvent>, cut: seq<StreamEvent>, n: nat)
    requires all == System.Forwarded(script) && cut == UpToTerminal(all)
    requires LooksTheSame(m, script) && |cut| <= n <= |all| && n <= CAPACITY
    ensures Alike(m, cut, all[..n])
  {
    BothDeliverable(script, all, cut, n);
    RenderedAlikeIff(m, cut, all[..n]);
  }

  lemma {:induction false} BothDeliverable(
      script: seq<StreamEvent>, all: seq<StreamEvent>, cut: seq<StreamEvent>, n: nat)
    requires all == System.Forwarded(script) && cut == UpToTerminal(all)
    requires |cut| <= n <= |all| && n <= CAPACITY
    ensures CanDeliver(script, cut) && CanDeliver(script, all[..n])
  {
    CutIsPrefix(all);
    ForwardedHasEnd(script);
    assert Terminal(cut[|cut| - 1]);
    PrefixSees(cut, all[..n]);
    DeliverableIff(script, cut);
    DeliverableIff(script, all[..n]);
  }

  lemma {:induction false} DeliveredAlike(
      m: Meta, script: seq<StreamEvent>, all: seq<StreamEvent>, cut: seq<StreamEvent>, got: seq<StreamEvent>)
    requires all == System.Forwarded(script) && cut == UpToTerminal(all) && CanDeliver(script, got)
    requires forall k :: |cut| <= k < |all| && k < CAPACITY ==> Silent(cut, all[k])
    ensures Rendered(m, got) == Rendered(m, cut)
  {
    DeliverableIff(script, got);
    DeliveryHasCut(all, got);
    if got != cut {
      BeginningAlike(m, all, cut, got);
    }
  }

  lemma BeginningAlike(m: Meta, all: seq<StreamEvent>, cut: seq<StreamEvent>, got: seq<StreamEvent>)
    requires cut <= got <= all && |got| <= CAPACITY
    requires forall k :: |cut| <= k < |all| && k < CAPACITY ==> Silent(cut, all[k])
    ensures Rendered(m, got) == Rendered(m, cut)
  {
    assert all[..|cut|] == cut && all[..|got|] == got;
    SilentRun(m, cut, all, |got|);
    RenderedAlikeIff(m, cut, got);
  }

  /**
   * After an error event, as the OpenAI-compatible plugin sends it for an upstream error chunk, only
   * chunks can add anything.
   */
  lemma ErrorStreamsLookTheSameIff(m: Meta, script: seq<StreamEvent>)
    requires var cut := UpToTerminal(System.Forwarded(script)); cut != [] && cut[|cut| - 1].kind == ErrorKind
    ensures var all, cut := System.Forwarded(script), UpToTerminal(System.Forwarded(script));
            LooksTheSame(m, script)
            <==> forall k :: |cut| <= k < |all| && k < 64 ==> Tells(all[k]) == []
  {
    LooksTheSameIff(m, script);
    SawErrorMeans(UpToTerminal(System.Forwarded(script)));
  }

  // ---- under cancels and crashes ----------------------------------------------------------------------

  lemma {:induction false} BodySnoc(m: Meta, evs: seq<StreamEvent>, ev: StreamEvent)
    ensures Body(m, evs + [ev]) == Body(m, evs) + FramesOf(m, ev)
  {
    assert (evs + [ev])[..|evs|] == evs;
  }

  lemma PayloadsAssoc(a: seq<Json>, b: seq<Json>, c: seq<Json>)
    ensures a + (b + c) == (a + b) + c
  {
  }

  lemma {:induction false} BodyConcat(m: Meta, a: seq<StreamEvent>, b: seq<StreamEvent>)
    ensures Body(m, a + b) == Body(m, a) + Body(m, b)
    decreases |b|
  {
    if b == [] {
      assert a + b == a;
    } else {
      var init, last := b[..|b| - 1], b[|b| - 1];
      assert b == init + [last] && a + b == (a + init) + [last];
      BodyConcat(m, a, init);
      BodySnoc(m, init, last);
      BodySnoc(m, a + init, last);
      PayloadsAssoc(Body(m, a), Body(m, init), FramesOf(m, last));
    }
  }

  lemma {:induction false} EventsConcat(a: seq<Item>, b: seq<Item>)
    ensures EventsOf(a + b) == EventsOf(a) + EventsOf(b)
  {
    if a == [] {
      assert a + b == b;
    } else {
      assert (a + b)[1..] == a[1..] + b;
      EventsConcat(a[1..], b);
    }
  }

  /** Where the one notice stands. */
  lemma NoticeAt(items: seq<Item>) returns (k: nat)
    requires Notices(items) == 1
    ensures k < |items| && items[k].Notice? && items == items[..k] + ([items[k]] + items[k + 1..])
    ensures Notices(items[..k]) == 0 == Notices(items[k + 1..]) && AfterNotice(items) == |items| - k - 1
  {
    if items[0].Notice? {
      k := 0;
    } else {
      k := NoticeAt(items[1..]);
      k := k + 1;
      assert items[..k][1..] == items[1..][..k - 1];
      assert items[1..][k..] == items[k + 1..];
    }
  }

  /**
   * The chunks for what a consumer received: those of the plugin's events, with one error chunk
   * where the notice is.
   */
  lemma BodyOfReceived(
      m: Meta, items: seq<Item>)
    returns (sent: seq<StreamEvent>, report: Option<ProviderError>, late: seq<StreamEvent>)
    requires Notices(items) <= 1
    ensures Genuine(items) == sent + late && (report.Some? <==> Notices(items) == 1)
    ensures if report.Some? then |late| == AfterNotice(items) else late == []
    ensures report.None? ==> EventsOf(items) == sent
    ensures report.Some? ==> Notice(report.value) in items
    ensures report.Some? ==> SawError(EventsOf(items))
    ensures Body(m, EventsOf(items))
            == Body(m, sent) + (if report.Some? then [ErrorChunk(report.value)] else []) + Body(m, late)
  {
    if Notices(items) == 0 {
      EventsAreGenuine(items);
      sent, report, late := Genuine(items), None, [];
    } else {
      var k := NoticeAt(items);
      var a, b := items[..k], items[k + 1..];
      sent, report, late := Genuine(a), Some(items[k].err), Genuine(b);
      EventsAreGenuine(a);
      EventsAreGenuine(b);
      GenuineIsAsLong(b);
      assert items == a + ([Notice(items[k].err)] + b);
      EventsAround(a, items[k].err, b);
      BodyAround(m, sent, items[k].err, late);
    }
  }

  lemma {:induction false} EventsAround(a: seq<Item>, err: ProviderError, b: seq<Item>)
    ensures var items := a + ([Notice(err)] + b);
            && Genuine(items) == Genuine(a) + Genuine(b)
            && EventsOf(items) == EventsOf(a) + ([ErrorEvent(err)] + EventsOf(b))
  {
    var x := [Notice(err)];
    GenuineConcat(a, x + b);
    GenuineConcat(x, b);
    EventsConcat(a, x + b);
    EventsConcat(x, b);
    assert x[1..] == [] && EventsOf(x) == [ErrorEvent(err)] && Genuine(x) == [];
    assert [] + Genuine(b) == Genuine(b);
  }

  lemma {:induction false} BodyAround(m: Meta, a: seq<StreamEvent>, err: ProviderError, b: seq<StreamEvent>)
    ensures var evs := a + ([ErrorEvent(err)] + b);
            SawError(evs) && Body(m, evs) == Body(m, a) + [ErrorChunk(err)] + Body(m, b)
  {
    BodyConcat(m, a, [ErrorEvent(err)] + b);
    BodyConcat(m, [ErrorEvent(err)], b);
    BodyOfNotice(m, err);
    var evs := a + ([ErrorEvent(err)] + b);
    SawErrorMeans(evs);
    assert evs[|a|] == ErrorEvent(err);
  }

  lemma {:induction false} BodyOfNotice(m: Meta, err: ProviderError)
    ensures Body(m, [ErrorEvent(err)]) == [ErrorChunk(err)]
  {
    assert [ErrorEvent(err)][..0] == [];
  }

  lemma {:induction false} GenuineIsAsLong(items: seq<Item>)
    requires Notices(items) == 0
    ensures |Genuine(items)| == |items|
  {
    if items != [] {
      GenuineIsAsLong(items[1..]);
    }
  }

  /** The chunks around a notice let the client hear what the events around it tell, and the notice. */
  lemma {:induction false} HeardAroundNotice(
      m: Meta, sent: seq<StreamEvent>, err: ProviderError, late: seq<StreamEvent>)
    ensures Heard(AsData(Body(m, sent) + [ErrorChunk(err)] + Body(m, late)) + [Done])
            == AllAsSent(Told(sent) + [Problem(err)] + Told(late))
  {
    var body := Body(m, sent) + [ErrorChunk(err)];
    AsDataConcat(body, Body(m, late));
    AsDataConcat(Body(m, sent), [ErrorChunk(err)]);
    FlatMapConcat(Hears, AsData(body + Body(m, late)), [Done]);
    FlatMapConcat(Hears, AsData(body), AsData(Body(m, late)));
    FlatMapConcat(Hears, AsData(Body(m, sent)), AsData([ErrorChunk(err)]));
    FlatMapOne(Hears, Done);
    AsDataOfAtMostOne([ErrorChunk(err)]);
    FlatMapOne(Hears, Data(ErrorChunk(err)));
    ErrorHeard(err);
    ClientHearsEvents(m, sent);
    ClientHearsEvents(m, late);
    SentConcat(Told(sent) + [Problem(err)], Told(late));
    SentConcat(Told(sent), [Problem(err)]);
    SentOne(Problem(err));
  }

  /**
   * Whatever cancels and crashes happen, the client hears a contiguous run of the emitted events, from the
   * first one on if nothing was lost before registration, with at most one report in it, that the plugin
   * crashed or was stopped, and at most one event behind that.
   */
  lemma ClientSeesContiguousRun(m: Meta, s: System.Sys, id: Id)
    returns (sent: seq<StreamEvent>, report: Option<ProviderError>, late: seq<StreamEvent>)
    requires Reachable(s) && id in s.plugin
    ensures System.Lost(s, id) <= |s.plugin[id].emitted| && sent + late <= s.plugin[id].emitted[System.Lost(s, id)..]
    ensures report.None? ==> late == [] && Written(m, s, id) == Rendered(m, sent)
    ensures report.Some? ==> |late| <= 1
    ensures report.Some? ==> Heard(Written(m, s, id)) == AllAsSent(Told(sent) + [Problem(report.value)] + Told(late))
    ensures report.Some? ==>
              || report.value == ProviderError("plugin process crashed", "provider_error", "plugin_crash", Null, 502)
              || report.value == ProviderError("plugin stopped", "provider_error", "plugin_stopped", Null, 499)
  {
    ContiguousDelivery(s, id);
    sent, report, late := BodyOfReceived(m, Received(s, id));
    if report.Some? {
      HeardAroundNotice(m, sent, report.value, late);
      ReceivedReport(s, id, report.value);
    }
  }

  lemma ReceivedReport(s: System.Sys, id: Id, err: ProviderError)
    requires Reachable(s) && Notice(err) in Received(s, id)
    ensures || err == ProviderError("plugin process crashed", "provider_error", "plugin_crash", Null, 502)
            || err == ProviderError("plugin stopped", "provider_error", "plugin_stopped", Null, 499)
  {
    var acts :| System.Run(System.INIT, acts) == Some(s);
    NoticesReportCleanUps(acts, s, id, Notice(err));
  }

  // ---- from upstream to the client --------------------------------------------------------------------

  /** What the client of an upstream without errors hears in the end: "stop" and no usage if the context was cut off. */
  function LastHeard(decode: string -> Option<Json>, lines: seq<string>, live: nat): seq<Utterance> {
    var es := Envelopes(decode, lines, live);
    if CutOff(decode, lines, live) then Ended("stop", None) else Ended(LastFinishOf(es, ""), LastUsageOf(es, None))
  }

  /** The synthetic end tells nothing, and ends with "stop" and the usage there was. */
  lemma {:induction false} SyntheticEndTells(script: seq<StreamEvent>)
    requires Endless(script) && !SawError(script)
    ensures var all := System.Forwarded(script);
            && EndsAtTerminal(all) && !SawError(all) && Told(all) == Told(script)
            && Ending(all) == Ended("stop", None)
  {
    var end := StreamEvent(StreamEnd, None, None, None, "stop", None);
    SawErrorMeans(script);
    assert System.Forwarded(script) == script + [end];
    EndsAtAppended(script, end);
    OneMoreTold(script, end);
    SawErrorConcat(script, [end]);
    EndlessHasNoUsage(script);
    OneMoreEvent(script, end);
  }

  /** What the forwarder makes of the events of an upstream without errors. */
  lemma {:induction false} ForwardedEnds(
      decode: string -> Option<Json>, lines: seq<string>, end: BodyEnd, live: nat)
    requires !Reports(decode, lines, live) && !Breaks(decode, lines, end, live)
    ensures var all := System.Forwarded(Emit(decode, BEGUN, lines, end, live));
            && EndsAtTerminal(all) && !SawError(all) && Told(all) == SaidByUpstream(decode, lines, live)
            && Ending(all) == LastHeard(decode, lines, live)
  {
    var script := Emit(decode, BEGUN, lines, end, live);
    PluginTellsWhatItRead(decode, lines, end, live);
    SawErrorIff(decode, lines, end, live);
    if CutOff(decode, lines, live) {
      PluginEndsLikeUpstream(decode, lines, end, live);
      SyntheticEndTells(script);
    } else {
      LastValuesConserved(decode, lines, end, live);
    }
  }

  lemma {:induction false} NothingFailed(evs: seq<StreamEvent>)
    requires !SawError(evs)
    ensures Failures(evs) == []
  {
    if evs != [] {
      NothingFailed(evs[..|evs| - 1]);
    }
  }

  /** What a complete undisturbed run lets the client hear of a script without errors that goes on behind no end. */
  lemma {:induction false} DeliveredIsHeard(m: Meta, acts: seq<System.Action>, s: System.Sys, id: Id)
    requires System.Run(System.INIT, acts) == Some(s) && Undisturbed(acts, id) && Complete(s, id) && id in s.plugin
    requires var all := System.Forwarded(s.plugin[id].script); EndsAtTerminal(all) && !SawError(all)
    ensures var all := System.Forwarded(s.plugin[id].script);
            Heard(Written(m, s, id)) == AllAsSent(Told(all)) + Ending(all)
    ensures Failures(EventsOf(Received(s, id))) == []
  {
    OneRendering(m, acts, s, id);
    ClientHearsEvents(m, System.Forwarded(s.plugin[id].script));
    NothingFailed(System.Forwarded(s.plugin[id].script));
  }

  /**
   * For an upstream that neither reports an error nor breaks off, every complete undisturbed run of the
   * pipeline lets the client hear what the chunks that were read say, in order, whatever the schedule,
   * and then how the stream ended. No failure goes on record.
   */
  lemma {:induction false} GatewayPreservesMeaning(
      m: Meta, decode: string -> Option<Json>, lines: seq<string>, end: BodyEnd, live: nat,
      acts: seq<System.Action>, s: System.Sys, id: Id, index: Int64)
    requires !Reports(decode, lines, live) && !Breaks(decode, lines, end, live)
    requires System.Run(System.INIT, acts) == Some(s) && Undisturbed(acts, id) && Complete(s, id)
    requires id in s.plugin && s.plugin[id].script == Emit(decode, BEGUN, lines, end, live)
    ensures var heard, said := Heard(Written(m, s, id)), SaidByUpstream(decode, lines, live);
            && heard == AllAsSent(said) + LastHeard(decode, lines, live)
            && TextIn(heard) == TextIn(said)
            && Assemble(FragmentsIn(heard), index) == Assemble(FragmentsIn(said), index)
    ensures Failures(EventsOf(Received(s, id))) == []
  {
    ForwardedEnds(decode, lines, end, live);
    DeliveredIsHeard(m, acts, s, id);
    SentWithEnding(SaidByUpstream(decode, lines, live), LastHeard(decode, lines, live), index);
  }

  /** The one error event at `i` is told. */
  lemma {:induction false} ErrorIsTold(evs: seq<StreamEvent>, i: nat)
    requires i < |evs| && evs[i].kind == ErrorKind && evs[i].error.Some?
    ensures ProblemsIn(Told(evs)) != []
  {
    var a, b := evs[..i], [evs[i]] + evs[i + 1..];
    assert evs == a + b;
    FlatMapConcat(Tells, a, b);
    FlatMapConcat(Tells, [evs[i]], evs[i + 1..]);
    FlatMapOne(Tells, evs[i]);
    FlatMapConcat(ProblemOf, Told(a), Told(b));
    FlatMapConcat(ProblemOf, Tells(evs[i]), Told(evs[i + 1..]));
    FlatMapOne(ProblemOf, Problem(evs[i].error.value));
  }

  /** A beginning of the events with a terminal one has an error in it, if there is an error at all. */
  lemma {:induction false} ErrorComesFirst(
      decode: string -> Option<Json>, lines: seq<string>, end: BodyEnd, live: nat, got: seq<StreamEvent>)
    requires SawError(Emit(decode, BEGUN, lines, end, live))
    requires got <= Emit(decode, BEGUN, lines, end, live) && HasTerminal(got)
    ensures SawError(got) && ProblemsIn(Told(got)) != []
  {
    var script := Emit(decode, BEGUN, lines, end, live);
    PluginEndsLikeUpstream(decode, lines, end, live);
    SawErrorMeans(script);
    SawErrorMeans(got);
    var i :| 0 <= i < |got| && Terminal(got[i]);
    var k := if got[i].kind == ErrorKind then i else var k :| 0 <= k < |script| && script[k].kind == ErrorKind; k;
    assert script[k].kind == ErrorKind && k < |got|;
    ErrorIsTold(got, k);
  }

  /**
   * An upstream error, or the error the reader breaks off with, is not lost: in every complete undisturbed run the
   * client hears what a beginning of the plugin's events tells, at least one error among it and no other ending.
   * Each of these errors goes on record.
   */
  lemma {:induction false} ErrorsReachTheClient(
      m: Meta, decode: string -> Option<Json>, lines: seq<string>, end: BodyEnd, live: nat,
      acts: seq<System.Action>, s: System.Sys, id: Id)
    returns (got: seq<StreamEvent>)
    requires Reports(decode, lines, live) || Breaks(decode, lines, end, live)
    requires System.Run(System.INIT, acts) == Some(s) && Undisturbed(acts, id) && Complete(s, id)
    requires id in s.plugin && s.plugin[id].script == Emit(decode, BEGUN, lines, end, live)
    ensures got <= Emit(decode, BEGUN, lines, end, live) && got == EventsOf(Received(s, id))
    ensures Heard(Written(m, s, id)) == AllAsSent(Told(got)) && ProblemsIn(Told(got)) != []
    ensures |Failures(got)| == |ProblemsIn(Told(got))|
  {
    var script := Emit(decode, BEGUN, lines, end, live);
    CompleteDelivery(acts, s, id);
    EventsAreGenuine(Received(s, id));
    got := EventsOf(Received(s, id));
    SawErrorIff(decode, lines, end, live);
    SawErrorMeans(script);
    var k :| 0 <= k < |script| && script[k].kind == ErrorKind;
    assert Terminal(script[k]);
    ErrorComesFirst(decode, lines, end, live, got);
    ClientHearsEvents(m, got);
    ProblemsOnRecord(got);
  }

  // ---- as text ------------------------------------------------------------------------------------------

  function SseText(encode: Json -> string, out: seq<Sse>): string {
    if out == [] then ""
    else Frame(if out[0].Data? then encode(out[0].payload) else DONE_MARK) + SseText(encode, out[1..])
  }

  function Encoded(encode: Json -> string, js: seq<Json>): (r: seq<string>)
    ensures |r| == |js| && forall i :: 0 <= i < |js| ==> r[i] == encode(js[i])
  {
    if js == [] then [] else [encode(js[0])] + Encoded(encode, js[1..])
  }

  function TailPayloads(m: Meta, evs: seq<StreamEvent>): seq<Json> {
    if SawError(evs) then []
    else if LastUsage(evs).Some? then [FinalChunk(m, FinishOr(LastFinish(evs))), UsageChunk(m, LastUsage(evs).value)]
    else [FinalChunk(m, FinishOr(LastFinish(evs)))]
  }

  function AllPayloads(m: Meta, evs: seq<StreamEvent>): seq<Json> { Body(m, evs) + TailPayloads(m, evs) }

  lemma RenderedIsPayloads(m: Meta, evs: seq<StreamEvent>)
    ensures Rendered(m, evs) == AsData(AllPayloads(m, evs)) + [Done]
  {
    TailIsPayloads(m, evs);
    AsDataConcat(Body(m, evs), TailPayloads(m, evs));
    assert AsData(Body(m, evs)) + (AsData(TailPayloads(m, evs)) + [Done]) == AsData(AllPayloads(m, evs)) + [Done];
  }

  lemma {:induction false} TailIsPayloads(m: Meta, evs: seq<StreamEvent>)
    ensures Tail(m, evs) == AsData(TailPayloads(m, evs)) + [Done]
  {
  }

  lemma {:induction false} TextIsFrames(encode: Json -> string, js: seq<Json>)
    ensures SseText(encode, AsData(js) + [Done]) == Transcript(Encoded(encode, js), "")
  {
    if js == [] {
      assert AsData(js) + [Done] == [Done] && [Done][1..] == [];
    } else {
      var out := AsData(js) + [Done];
      assert out[0] == Data(js[0]) && out[1..] == AsData(js[1..]) + [Done];
      assert Encoded(encode, js)[1..] == Encoded(encode, js[1..]);
      TextIsFrames(encode, js[1..]);
    }
  }

  /** The decoder undoes the encoder on these payloads, and the reader does not touch their text. */
  predicate Transparent(encode: Json -> string, decode: string -> Option<Json>, js: seq<Json>) {
    forall i :: 0 <= i < |js| ==> decode(encode(js[i])) == Some(js[i]) && Sendable(encode(js[i]))
  }

  lemma PayloadsRelay(m: Meta, evs: seq<StreamEvent>, j: Json)
    requires j in AllPayloads(m, evs)
    ensures Relays(j)
  {
    if j in Body(m, evs) {
      BodyRelays(m, evs, j);
    } else {
      assert j in TailPayloads(m, evs);
      FinalRelays(m, FinishOr(LastFinish(evs)));
      if LastUsage(evs).Some? {
        UsageRelays(m, LastUsage(evs).value);
      }
    }
  }

  lemma {:induction false} BodyRelays(m: Meta, evs: seq<StreamEvent>, j: Json)
    requires j in Body(m, evs)
    ensures Relays(j)
  {
    var last := |evs| - 1;
    if j in Body(m, evs[..last]) {
      BodyRelays(m, evs[..last], j);
    } else {
      FrameRelays(m, evs[last], j);
    }
  }

  function Decoded(js: seq<Json>): (es: seq<Envelope>)
    requires forall i :: 0 <= i < |js| ==> DecodeChunk(js[i]).Some?
    ensures |es| == |js| && forall i :: 0 <= i < |js| ==> DecodeChunk(js[i]) == Some(es[i])
  {
    if js == [] then [] else [DecodeChunk(js[0]).value] + Decoded(js[1..])
  }

  lemma {:induction false} DecodedSays(js: seq<Json>)
    requires forall i :: 0 <= i < |js| ==> DecodeChunk(js[i]).Some? && Relays(js[i])
    ensures Said(Decoded(js)) == Relayed(Heard(AsData(js)))
  {
    if js != [] {
      DecodedSays(js[1..]);
      assert AsData(js)[1..] == AsData(js[1..]);
      FlatMapConcat(Kept, HearsPayload(js[0]), Heard(AsData(js[1..])));
    }
  }

  lemma EndingIsNotRelayed(evs: seq<StreamEvent>)
    ensures Relayed(Ending(evs)) == []
  {
    if !SawError(evs) {
      var finished := Finished(FinishOr(LastFinish(evs)));
      FlatMapOne(Kept, finished);
      if LastUsage(evs).Some? {
        FlatMapConcat(Kept, [finished], Ending(evs)[1..]);
        FlatMapOne(Kept, Ending(evs)[1]);
        assert Ending(evs) == [finished] + Ending(evs)[1..];
      }
    }
  }

  lemma {:induction false} TransparentChunks(
      encode: Json -> string, decode: string -> Option<Json>, js: seq<Json>, es: seq<Envelope>)
    requires Transparent(encode, decode, js)
    requires |es| == |js| && forall i :: 0 <= i < |js| ==> DecodeChunk(js[i]) == Some(es[i])
    ensures forall i :: 0 <= i < |es| ==> Chunk(decode, Encoded(encode, js)[i]) == Some(es[i])
  {
  }

  /** The chunks that the payloads decode to are the chunks that are read. */
  lemma {:induction false} EnvelopesOfPayloads(decode: string -> Option<Json>, lines: seq<string>, es: seq<Envelope>)
    requires |Payloads(lines)| == |es| && forall i :: 0 <= i < |es| ==> Chunk(decode, Payloads(lines)[i]) == Some(es[i])
    ensures Envelopes(decode, lines, |lines|) == es
    decreases |lines|
  {
    if lines != [] {
      match PayloadOf(lines[0])
      case None => EnvelopesOfPayloads(decode, lines[1..], es);
      case Some(p) =>
        if p != DONE_MARK {
          assert Payloads(lines)[0] == p && Payloads(lines)[1..] == Payloads(lines[1..]);
          EnvelopesOfPayloads(decode, lines[1..], es[1..]);
        }
    }
  }

  lemma {:induction false} PayloadsHeard(m: Meta, evs: seq<StreamEvent>)
    ensures Heard(AsData(AllPayloads(m, evs))) == AllAsSent(Told(evs)) + Ending(evs)
  {
    RenderedIsPayloads(m, evs);
    FlatMapConcat(Hears, AsData(AllPayloads(m, evs)), [Done]);
    FlatMapOne(Hears, Done);
    ClientHearsEvents(m, evs);
  }

  /** What the payloads say to a plugin. */
  lemma {:induction false} PayloadsSay(m: Meta, evs: seq<StreamEvent>)
    ensures forall i :: 0 <= i < |AllPayloads(m, evs)| ==> DecodeChunk(AllPayloads(m, evs)[i]).Some?
    ensures Said(Decoded(AllPayloads(m, evs))) == Relayed(AllAsSent(Told(evs)))
  {
    var js := AllPayloads(m, evs);
    forall i | 0 <= i < |js| ensures DecodeChunk(js[i]).Some? && Relays(js[i]) {
      PayloadsRelay(m, evs, js[i]);
    }
    DecodedSays(js);
    PayloadsHeard(m, evs);
    FlatMapConcat(Kept, AllAsSent(Told(evs)), Ending(evs));
    EndingIsNotRelayed(evs);
  }

  /**
   * Who reads the written text line by line, as the plugin reads its own upstream, recovers the chunks
   * that were written, and their decoder says what the events tell, as far as a plugin keeps it: text,
   * fragments and the messages of errors. A gateway can therefore be another gateway's upstream.
   */
  lemma {:induction false} TextCarriesMeaning(
      m: Meta, evs: seq<StreamEvent>, encode: Json -> string, decode: string -> Option<Json>)
    requires Transparent(encode, decode, AllPayloads(m, evs))
    ensures var lines := Scan(SseText(encode, Rendered(m, evs))).0;
            && Payloads(lines) == Encoded(encode, AllPayloads(m, evs))
            && Said(Envelopes(decode, lines, |lines|)) == Relayed(AllAsSent(Told(evs)))
  {
    var js := AllPayloads(m, evs);
    var lines := Scan(SseText(encode, Rendered(m, evs))).0;
    RenderedIsPayloads(m, evs);
    TextIsFrames(encode, js);
    RoundTrip(Encoded(encode, js), "");
    PayloadsSay(m, evs);
    TransparentChunks(encode, decode, js, Decoded(js));
    EnvelopesOfPayloads(decode, lines, Decoded(js));
  }

  /** A client that takes the text apart as an event stream gets every payload, and the mark, as one event each. */
  lemma {:induction false} TextIsEvents(m: Meta, evs: seq<StreamEvent>, encode: Json -> string)
    ensures var text, js := SseText(encode, Rendered(m, evs)), AllPayloads(m, evs);
            EventStream.EventsIn(text, "") == Encoded(encode, js) + ["[DONE]"]
            <==> forall i :: 0 <= i < |js| ==> EventStream.OneLine(encode(js[i]))
  {
    RenderedIsPayloads(m, evs);
    TextIsFrames(encode, AllPayloads(m, evs));
    EventStream.EventsAreIff(Encoded(encode, AllPayloads(m, evs)));
  }
}
