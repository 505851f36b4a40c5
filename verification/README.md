# ProviderApi: a verified model of the streaming gateway

ProviderApi is an OpenAI Chat Completions gateway. A request reaches a provider plugin over
JSON-RPC on a Unix socket; the plugin calls its upstream and sends stream events back; the
gateway renders them as server-sent events. This project models that path in Dafny 4.11 and
proves what it promises. `dafny verify dfyconfig.toml` checks everything.

The model has four parts.

**The streaming pipeline** (`Host`, `Instance`, `Server`, `System`, `Stream`, `Delivery`,
`Guarantees`, `Schedules`, `Progress`, `Endings`, `Hangs`). `Host.dfy` gives every lock region
and channel operation of `Instance` as a function on values; `Instance.dfy` ties the objects
that are updated in place to those functions. `System.dfy` runs the same functions as the atomic
steps of a whole system: the plugin's stream table and forwarders, the socket, the reader with
its one in-flight event, the drain under the mutex, calls that give up, cancels, the death of
the plugin, what `watch` and `Stop` do about it, restarts included, and the consumers, over any
number of streams and every interleaving. A cancelled handler may go on to emit anything; of
what was written before the connection ended, any beginning may still be read. `Stream.dfy`
shows that the system is, for each stream, a small machine of its own; the invariants live
there. A run is a list of labelled steps, so "for every run" is a statement about every list.

**Translation and framing** (`Upstream`, `Render`, `Utterances`, `Meaning`, `Translation`,
`Framing`, `EventStream`, `EndToEnd`). The plugin's reader turns upstream lines into events, the gateway
turns events into chunks and text. What a stream says is a sequence of utterances: openings, text,
tool-call fragments, errors, the finish reason and the usage. `Utterances` defines what a client
hears by reading the fields of the chunks, independently of how they are built; `Meaning` also says
what the plugin's own decoder makes of them. `EventStream` takes the written text apart as the
WHATWG HTML Standard has a client do it.

**JSON trees** (`Overlay`, `ToolCodec` in `Tool.dfy`, `RequestBody`, `Redact`). Deep merging,
the tool codec, the request body with its reasoning patch, and redaction. Go's map iteration is
an arbitrary choice of the next key.

**JSON-RPC calls** (`Rpc`). One connection with any number of calls and a peer that may
answer anything, any number of times.

Six things the code does are worth knowing, and each is proved here with its exact extent.

* The drain in `Stream` pushes parked events into a 64-slot channel while holding the mutex and
  before anybody reads. A stream with more than 64 events can therefore block the whole instance
  for ever, and one with at most 64 cannot (`JamsIffOverCapacity`).
* The drain goes on behind a terminal event, the live path does not. What a consumer can end up
  with is characterised exactly (`DeliverableIff`); it is always the same precisely when nothing
  follows the first terminal event (`DeliversAllIffNothingAfterTerminal`). The client sees no
  difference precisely when nothing that follows and fits into the channel would add to what it
  is sent (`LooksTheSameIff`); for the OpenAI-compatible plugin, which goes on after an upstream
  error chunk, that means no further chunk (`ErrorStreamsLookTheSameIff`).
* After a crash `watch` first fails the streams and a second later starts the plugin again, which
  replaces both tables and closes nothing; `Stop` fails the streams too. Either can come at a bad
  moment. Where no drain blocks and nothing is left to do, a registered consumer waits for ever
  exactly if a restart found its stream in the table, or if its stream was not registered at the
  last clean-up or restart and afterwards was neither cancelled nor had a terminal event read from
  the socket (`EveryStreamEnds`). Of the second kind are streams whose terminal event a clean-up
  forgot (`CrashBeforeRegistrationHangs`) and streams registered when nothing can come any more
  (`RegistrationAfterCrashHangs`); of the first kind, one registered between clean-up and restart,
  which not even a later cancel ends (`CancelAfterRestartHangs`).
* One reader serves all streams. While one consumer leaves its channel full and open, the host
  gets no reply and no further event of any stream (`StallStopsEverybody`). What is said about
  endings is said where nothing is left to do, and so of consumers that keep reading.
* The reader goes on behind an upstream chunk that reports an error, and breaks off with an error of
  its own at a payload that is no chunk and at a read error (`SawErrorIff` says exactly when an error
  is emitted). No schedule loses the first error; which of the later ones arrive depends on the
  schedule (`ErrorsReachTheClient`). If the context ends while lines remain, the plugin emits no end,
  and the client is told "stop" with no usage, whatever upstream had said by then
  (`GatewayPreservesMeaning`).
* The recover around the crash notice is never needed: only an in-flight event of a cancelled or
  crashed stream can meet a closed channel (`SendsMeetOpenChannels`).

The fields `lost`, `orphans` and `hit` of `System.Sys`, the origin tag of `Host.Item` and the
counter `claims` of `Rpc.Call` are book-keeping for statements; no step depends on them.

## Model

| member | source | states |
|---|---|---|
| Plugin.Channel.Send | internal/plugin/runtime.go:260-263 | a send blocks exactly on a full open channel, is recovered exactly on a closed one, and otherwise appends |
| Plugin.Channel.TrySend | internal/plugin/runtime.go:213-219 | the non-blocking send of the failure notice is lost exactly when the channel is full or closed |
| Plugin.Channel.Close | internal/plugin/runtime.go:230 | closing needs an open channel, keeps what is buffered, and stays closed |
| Plugin.Channel.Receive | internal/api/openai.go:231 | the consumer takes the oldest event, and nothing only when nothing is buffered |
| Plugin.Channel.Fill | internal/plugin/runtime.go:317-325 | the drain's loop gets through exactly when at most 64 events are parked; it pushes them all, in order, also behind a terminal one |
| Plugin.Channel.Fail | internal/plugin/runtime.go:212-224 | notice if there is room, then close |
| Plugin.Instance.NotifyLocked | internal/plugin/runtime.go:252-259 | an event is parked exactly when its stream has no live channel; nothing else changes |
| Plugin.Instance.OnNotify | internal/plugin/runtime.go:241-266 | the whole handler: park, or send and after a terminal event close; it does not return exactly when the send blocks |
| Plugin.NotifyIsThreeSteps | internal/plugin/runtime.go:241-266 | the handler alone is the reader's steps read, put and finish of the system |
| Plugin.Instance.CloseStream | internal/plugin/runtime.go:227-239 | closes and removes a live channel, forgets parked events, leaves every other stream alone |
| Plugin.Instance.Register | internal/plugin/runtime.go:317-332 | drain and registration: a new channel with all parked events, closed if one was terminal, else live; no return exactly for more than 64 |
| Plugin.Instance.FailActiveStreams | internal/plugin/runtime.go:198-225 | every live channel gets the notice if it has room and is closed; no stream stays live, no event stays parked; other channels keep their contents |
| Plugin.Instance.EmptyTables | internal/plugin/runtime.go:80-89 | the first lock region of Start replaces both tables and touches no channel |
| Plugin.CleanUpIsSteps | internal/plugin/runtime.go:198-225 | failActiveStreams alone is the system's lock region followed, in any order of the channels, by notice and close for each |
| Plugin.Instance.ShowsOne | internal/plugin/runtime.go:57-58 | the object's fields stand for exactly one value of the specification |
| Server.Server.Enter | sdk/plugin/server.go:126-128 | puts the stream into the table and changes nothing else |
| Server.Server.Drop | sdk/plugin/server.go:159-164 | cancels the context and takes the stream out of the table, for a failed handler as for a finished forwarder |
| Server.Server.StartStream | sdk/plugin/server.go:124-138 | the stream is in the table while the handler's Stream runs, stays if that succeeds, and is out again with its context cancelled exactly when it fails |
| Server.Server.CancelStream | sdk/plugin/server.go:146-152 | cancels the context of a stream in the table only, and leaves the table alone |
| Server.Server.ForwardStream | sdk/plugin/server.go:158-186 | notifications are numbered 1 to n without gaps and carry the handler's events in order plus one synthetic end exactly when none was terminal; the table is unchanged at each of them, and only then does the stream leave it |
| Guarantees.ListedWhileRunning | sdk/plugin/server.go:124-186 | in every reachable state a stream is in the table exactly while its handler has not answered or its forwarder has not returned |
| Guarantees.TableChanges | sdk/plugin/server.go:126-164 | a stream enters the table only by being started, and leaves it exactly when its handler fails or its forwarder returns with everything forwarded |
| Guarantees.CancelReachesIff | sdk/plugin/server.go:146-152 | completion.cancel has an effect exactly on a stream that still runs: its context is cancelled, its handler goes on as it pleases, and nothing else changes |
| Server.ForwardedEndsOnce | sdk/plugin/server.go:178-185 | a script without a terminal event gets one stream_end with the finish reason "stop", any other stays as it is; so what is forwarded always has a terminal event, and ends where the script ends |
| Stream.StepProjects | internal/plugin/runtime.go:198-343 | every step of the whole system is, for each stream, one step of that stream's own machine |
| Delivery.LocalStepKeeps | internal/plugin/runtime.go:198-343 | every step keeps conservation of events, channel ownership, the terminal-event rule and the notice rule of a stream |
| Delivery.RunKeeps | internal/plugin/runtime.go:198-343 | so does every run of the system |
| Guarantees.ExactlyOnce | internal/plugin/runtime.go:252-332 | at every moment of every run without crash or own cancel, received, buffered, in-flight, parked, on the wire and still to come are exactly the stream's events in order |
| Guarantees.OtherStreamsUnchanged | internal/plugin/runtime.go:252-266 | a step that is not about a stream changes nothing of that stream |
| Guarantees.StepsAreAboutOneStream | internal/plugin/runtime.go:203-208 | only the end of the connection, the clean-ups and a restart are about more than one stream |
| Guarantees.ContiguousDelivery | internal/plugin/runtime.go:198-266 | under any cancels and crashes a consumer receives a contiguous run of the emitted events, at most one crash notice, and at most one event behind it |
| Guarantees.PrefixSafety | internal/plugin/runtime.go:198-266 | with no clean-up or restart before registration that run is a prefix, whatever happens afterwards |
| Guarantees.TablesConsistent | internal/plugin/runtime.go:57-58 | channels in the table are open, no stream is both live and parked, no channel holds more than 64 events |
| Guarantees.ClosedAtMostOnce | internal/plugin/runtime.go:220-232 | a channel becomes closed exactly by a `close` that the step executes, and that `close` always hits an open channel |
| Guarantees.SendsMeetOpenChannels | internal/plugin/runtime.go:213-219 | the crash notice never meets a closed channel, an in-flight event only one of a stream that was cancelled or crashed |
| Guarantees.NoticesReportCleanUps | internal/plugin/runtime.go:167 | a failure notice in a channel says that the plugin crashed, and then a clean-up has run, or that it was stopped, and then Stop has; with these codes and statuses |
| Guarantees.StoppedStaysDown | internal/plugin/runtime.go:347-357 | over every run: once Stop has run, a second one does nothing, and `watch` fails or restarts at most what it was committed to |
| Guarantees.RestartComesLast | internal/plugin/runtime.go:167-177 | unless stopped, the plugin is not started again before every stream it left behind was told and closed, and watching never ends |
| Guarantees.CompleteDelivery | internal/plugin/runtime.go:317-332 | a finished consumer of an undisturbed stream has a prefix of the forwarded events with a terminal one in it |
| Guarantees.SchedulingDoesNotShow | internal/plugin/runtime.go:241-332 | if nothing follows the first terminal event it has all of them, whatever the schedule |
| Schedules.DeliverableIff | internal/plugin/runtime.go:317-332 | exactly which event sequences some schedule can deliver: up to the first terminal event, or a longer beginning of at most 64 events |
| Schedules.DeliversAllIffNothingAfterTerminal | internal/plugin/runtime.go:264-266 | delivery is independent of scheduling exactly when nothing follows the first terminal event |
| Schedules.EarlyRegistration | internal/plugin/runtime.go:252-266 | for every script the live path delivers exactly up to the first terminal event |
| Schedules.LateRegistration | internal/plugin/runtime.go:317-332 | for every script and every beginning of at most 64 events with a terminal one, some schedule delivers just that |
| Schedules.JamsIffOverCapacity | internal/plugin/runtime.go:317-321 | some schedule blocks the drain with the mutex held exactly when the stream has more than 64 events |
| Schedules.JamIsForever | internal/plugin/runtime.go:318-332 | once the drain blocks, tables and parked events never change again and no stream is registered or closed by its table |
| Schedules.StallStopsEverybody | internal/plugin/runtime.go:260-263 | while one channel stays full and open with the reader waiting for it, no reply is read and no event of any stream reaches the host, whatever else happens |
| Schedules.StallKeeps | internal/plugin/runtime.go:260-263 | only that consumer's next receive or a close of that channel ends the wait |
| Progress.StepDecreases | internal/plugin/runtime.go:252-332 | every step that needs no outside decision uses up a stage-weighted measure of undelivered events and unfinished clean-up |
| Progress.InternalRunsAreBounded | internal/plugin/runtime.go:252-332 | so between outside decisions at most that many steps happen |
| Progress.Settles | sdk/plugin/server.go:158-186 | from every reachable state such steps lead to one where none is left |
| Progress.CrashedIsRestarted | internal/plugin/runtime.go:164-177 | where nothing is left to do, a plugin that died has been started again unless Stop came first, and a stopped instance has ended its connection |
| Endings.EveryStreamEnds | internal/plugin/runtime.go:81-225 | over every run that ends unblocked with nothing left to do: each stream whose reply arrived and whose call did not give up is registered, and a registered consumer is done, except exactly if a restart found its stream in the table, or if it was not registered at the last clean-up or restart and afterwards was neither cancelled nor had a terminal event read |
| Endings.UndisturbedStreamsComplete | internal/plugin/runtime.go:310-332 | an undisturbed stream whose call did not give up is complete there, with every event if nothing follows the first terminal one |
| Endings.ShortStreamsComplete | internal/plugin/runtime.go:310-332 | with at most 64 forwarded events per stream and no crash, stop or cancel, no drain ever blocks and every stream whose call did not give up completes |
| Endings.GivenUpStaysParked | internal/plugin/runtime.go:252-259 | a stream whose call gave up is never registered, and what is parked for it stays until a clean-up or restart |
| Endings.GivenUpAtRest | internal/jsonrpc/jsonrpc.go:139-147 | undisturbed otherwise, all of its events end up parked |
| Hangs.CrashBeforeRegistrationHangs | internal/plugin/runtime.go:208 | the exception happens: a clean-up forgets a parked terminal event, and the consumer registered later waits on an open channel with nothing left to do |
| Hangs.RegistrationAfterCrashHangs | internal/plugin/runtime.go:203-208 | it also happens with no event forgotten, for every script: the clean-up has passed and nothing more can come |
| Hangs.CancelAfterRestartHangs | internal/plugin/runtime.go:80-89 | a stream registered between clean-up and restart, for every script: not even its cancel, the last step of the run, ends the wait |
| Upstream.Stream | plugins/openai-compat/main.go:136-193 | the reader loop emits exactly what the line-by-line specification says, also for malformed chunks, read errors and cancelled contexts |
| Upstream.ChunkDecodesIff | plugins/openai-compat/main.go:340-369 | a payload is a chunk exactly if every field that is read is missing, null or of its type, in every choice; the type and code of an error included |
| Render.Write | internal/api/openai.go:232-275 | what the switch writes and records for one event |
| Render.Consume | internal/api/openai.go:231-279 | over all events: their chunks in order, the last finish reason, the last usage, whether an error was seen |
| Render.HandleStream | internal/api/openai.go:231-316 | the complete output and records, for connected and disconnected clients |
| Render.LastFinishMeans | internal/api/openai.go:277-279 | the finish reason is that of the last event of any kind that bears one |
| Render.LastUsageMeans | internal/api/openai.go:259-274 | the usage is that of the last usage event, even if that has none, or end with a usage |
| Render.StreamShape | internal/api/openai.go:287-315 | one [DONE], last; without an error event exactly one final chunk, then usage exactly when collected; with one neither |
| Render.EveryPayloadIsOurs | internal/api/openai.go:318-346 | every payload carries the response's id, object, time and model and at most one choice, number 0, or reports an error event |
| Meaning.ClientHearsEvents | internal/api/openai.go:231-315 | for any events, the client hears exactly what they tell, in order: one opening as "assistant" per stream_start and none elsewhere, text, typed fragments and errors with message, type, code and param; then the finish reason and the usage unless there was an error |
| Meaning.FragmentKeys | internal/api/openai.go:348-369 | of a tool-call fragment an empty id, name or argument is left out, and nothing else is |
| Meaning.ProblemsOnRecord | internal/api/openai.go:261-267 | each error told goes on record once, with its own status or else 502, and nothing else does |
| Translation.PluginTellsWhatItRead | plugins/openai-compat/main.go:147-184 | for any upstream, the events tell exactly what the chunks that were read said, errors included, in order, and then the one malformed_sse error the reader breaks off with, if it does |
| Translation.SawErrorIff | plugins/openai-compat/main.go:147-184 | the plugin emits an error exactly if, with the context alive, a chunk that is read reports one, a payload is no chunk, or a read error is known where the reader stops |
| Translation.ChunkEvents | plugins/openai-compat/main.go:383-398 | every event of a chunk bears its finish reason, and a tool-call event starts a call exactly if it has an id or a name |
| Translation.TranslationPreservesMeaning | plugins/openai-compat/main.go:340-400 | for any upstream, the client hears all that the chunks that were read say, in order, then only the error the reader broke off with or the ending; so text and assembled calls are the same |
| Translation.LastValuesConserved | internal/api/openai.go:259-307 | for an error-free upstream the client hears at the end upstream's last finish reason (else "stop") and last usage, and the record holds both |
| Translation.PluginEndsLikeUpstream | plugins/openai-compat/main.go:174-192 | for any upstream the events end with a stream_end exactly if the reader neither breaks off nor is cut off by the context; it is the only one, with the last finish reason and usage |
| Meaning.TotalIsSum | internal/api/openai.go:435-441 | the total is prompt plus completion exactly when that sum fits Go's int |
| Meaning.ErrorDecodes | internal/api/openai.go:457-467 | the plugin's decoder takes an error chunk as an error with its message and nothing else |
| Framing.RoundTrip | plugins/openai-compat/main.go:145-161 | reading back what was written yields the written payloads exactly when each is non-empty, trimmed, newline-free, not [DONE] and fits a scanner line; what follows [DONE] is ignored (section 9.2 of the WHATWG HTML Standard) |
| Framing.ReadFrame | internal/api/openai.go:222-229 | one written frame yields its payload, or ends the reading if it is [DONE] or too long |
| Framing.PayloadMeans | plugins/openai-compat/main.go:151-158 | which lines have which payload: "data:" and then the payload, with any white space around it and none at its ends |
| Framing.PayloadIsClean | plugins/openai-compat/main.go:151-158 | whatever the line, a payload handed on is non-empty, trimmed and newline-free |
| Framing.LongLineEndsReading | plugins/openai-compat/main.go:146 | a line of 8 MiB or more ends the reading with an error |
| Framing.LineEndsDoNotMatter | plugins/openai-compat/main.go:145-151 | lines that end with a carriage return and a line feed are read like those that end with a line feed |
| EventStream.EventsAreIff | internal/api/openai.go:222-229 | a client that reads the text as the standard says gets each payload as one event, and [DONE] as the last, exactly if no payload has a line break in it (section 9.2.6 of the WHATWG HTML Standard) |
| EndToEnd.OneRendering | internal/api/openai.go:231-316 | what a connected client is sent is one function of the plugin's events, whatever the schedule |
| EndToEnd.LooksTheSameIff | internal/api/openai.go:231-316 | for every script, all schedules look the same to the client exactly when each later event that fits the channel tells nothing and, after an end without error, changes neither error state, finish reason nor usage |
| EndToEnd.ClientSeesContiguousRun | internal/plugin/runtime.go:212-218 | under any cancels and crashes the client hears a contiguous run of the emitted events, with at most one report, that the plugin crashed or was stopped, in it and at most one event behind that |
| EndToEnd.ErrorStreamsLookTheSameIff | plugins/openai-compat/main.go:162-180 | a stream whose first terminal event is an error looks the same under every schedule exactly when no later event that fits the channel tells anything |
| EndToEnd.GatewayPreservesMeaning | plugins/openai-compat/main.go:136-193 | through the whole pipeline, under every schedule, the client of an upstream without errors hears all that the chunks that were read say, in order, and upstream's finish reason and usage, or "stop" if the context ended first; no failure goes on record |
| EndToEnd.ErrorsReachTheClient | plugins/openai-compat/main.go:162-184 | through the whole pipeline, under every schedule, the client of any other upstream hears what a beginning of the events tells, with at least one error in it and no finish reason; each error heard goes on record |
| EndToEnd.TextCarriesMeaning | internal/api/openai.go:222-229 | the plugin's own reader recovers every written chunk from the text, and its decoder says what the events tell: text, fragments and the messages of errors |
| EndToEnd.TextIsEvents | internal/api/openai.go:222-229 | a client of the text gets every chunk as one event exactly if no encoded chunk has a line break |
| Overlay.JsonMap.DeepOverlay | internal/protocol/tool.go:121-131 | the loop, in any key order, computes the recursive overlay |
| Overlay.JsonMap.OverlayKey | internal/protocol/tool.go:122-129 | one turn changes only its key: merged if both sides are objects, else replaced |
| Overlay.JsonMap.DeepMerge | plugins/openai-compat/main.go:433-446 | the loop, in any key order, computes the overlay of the unprotected part |
| Overlay.JsonMap.MergeKey | plugins/openai-compat/main.go:438-444 | one turn changes only its key, with nothing protected further down |
| Overlay.OverlayByPath | internal/protocol/tool.go:121-131 | path by path: the source wins except where objects meet, everything else of the destination stays |
| Overlay.OverlayWithin | internal/protocol/tool.go:121-131 | laying over what is already there changes nothing, so an object over itself is itself |
| Overlay.OverlayTwice | internal/protocol/tool.go:121-131 | laying the same object over twice is laying it over once |
| Overlay.ProtectedKeysStay | plugins/openai-compat/main.go:433-446 | protected keys stay, others land as by deepOverlay; with none protected the two functions agree |
| ToolCodec.UpstreamObject | internal/protocol/tool.go:58-88 | the in-place construction computes the specified object |
| ToolCodec.UpstreamByKey | internal/protocol/tool.go:58-88 | key by key: a non-empty type replaces the raw one, function and custom part are laid over the raw ones, all else is the raw form's |
| ToolCodec.HopIsIdentity | internal/protocol/tool.go:10-54 | encoding and decoding a tool that carries its raw form changes nothing |
| ToolCodec.ToolFidelity | internal/protocol/tool.go:10-131 | after any number of hops the upstream object is the client's exactly when it has no raw key, its function is an object with a string name and its custom part an object |
| ToolCodec.DecodesIff | internal/protocol/tool.go:20-34 | which tool objects decode |
| RequestBody.BuildBody | plugins/openai-compat/main.go:204-263 | body or error as specified, for every request, level and map entry |
| RequestBody.MessagesArrive | plugins/openai-compat/main.go:205-222 | the conversation: for every level and patch, message by message, what upstream reads key by key is the request's message, with role and content always and every other key exactly if it is not empty |
| RequestBody.PatchFrame | plugins/openai-compat/main.go:219-261 | no patch changes model, stream or tools, nor adds tools; under every other key the patch is laid over what the request asks for: stream_options, temperature, max_tokens, tool_choice or nothing |
| RequestBody.BuildFailsIff | plugins/openai-compat/main.go:246-259 | exactly when building fails, and how; the empty level is the default |
| RequestBody.ToolsArriveUnchanged | plugins/openai-compat/main.go:233-239 | from the client's objects over any hops and any patch, the body's tools equal the client's exactly for the faithful ones |
| Redact.RedactValue | internal/redact/redact.go:86-105 | the in-place rewriting, in any key order, computes the redacted tree |
| Redact.RedactMap | internal/redact/redact.go:88-99 | the same for one map |
| Redact.Headers | internal/redact/redact.go:34-47 | the fresh map holds the marker for secret names and redacted values otherwise; no headers give none |
| Redact.ValueMeans | internal/redact/redact.go:49-55 | a value becomes the marker exactly if somewhere in it, in any case, it reads "bearer ", "sk-" or "api_key"; character by character, with the two letters outside ASCII that lower-case into it |
| Redact.SensitiveMeans | internal/redact/redact.go:23-32 | a name is secret exactly if one of the ten hints stands in it, in any case, dashes and underscores alike |
| Redact.HeadersMean | internal/redact/redact.go:34-47 | every header stays; it holds the marker exactly if its name is secret or its value is to be redacted, and else its value |
| Redact.RedactedIsClean | internal/redact/redact.go:86-105 | afterwards, at every depth, secret names hold the marker and no string directly in an object is one to be redacted, both in terms of characters |
| Redact.FixedIffClean | internal/redact/redact.go:86-105 | redaction changes nothing exactly where that already holds |
| Redact.RedactingTwice | sdk/plugin/server.go:217-218 | redacting again is harmless |
| Redact.HeadersAgree | internal/redact/redact.go:34-47 | headers redacted as headers or as part of the event come out the same |
| Redact.RedactedByPath | internal/redact/redact.go:86-105 | off the secret names every path leads where it led: shape, keys and lengths stay, and strings in arrays stay as they are |
| Redact.SecretByPath | internal/redact/redact.go:90-93 | a secret name holds the marker and nothing is left below it |
| Redact.UnderscoreHint | internal/redact/redact.go:23-32 | the hint with an underscore never matches a name, and no name containing it is missed |
| Redact.CaseAndDashesDoNotMatter | internal/redact/redact.go:23-26 | neither case nor underscores hide a name |
| Rpc.IdsRepeatIff | internal/jsonrpc/jsonrpc.go:120-121 | two calls share an id exactly when a multiple of 2^64 lies between them |
| Rpc.StepKeeps | internal/jsonrpc/jsonrpc.go:83-156 | every step keeps the invariant of table, slots and claimed replies |
| Rpc.ReplyIsOwn | internal/jsonrpc/jsonrpc.go:105-154 | a call that returns a reply returns the one bearing its own id, which no other call has (section 5 of the JSON-RPC 2.0 specification) |
| Rpc.DeliveryNeverBlocks | internal/jsonrpc/jsonrpc.go:107-115 | at most one reply is claimed per call, so the send into the one-slot channel never blocks |
| Rpc.RepliesReachTheirCalls | internal/jsonrpc/jsonrpc.go:105-154 | a response with the id of a call that expects one, failed or not, is claimed for that call and no other, whatever other calls there are; a call that has written its request returns it |
| Rpc.LateRepliesAreDropped | internal/jsonrpc/jsonrpc.go:107-115 | a response changes something exactly if some call expects it, and a second one with its id never does |
| Rpc.ClosedConnectionEndsCalls | internal/jsonrpc/jsonrpc.go:132-147 | on a closed connection no request is written, a call that has not written fails and leaves the table, and one that waits returns |
| Rpc.LeftInTableIff | internal/jsonrpc/jsonrpc.go:139-147 | a finished call stays in the table exactly when it returned because the connection closed, unanswered; on an open connection none does |
| Rpc.WaitingCallsAreServed | internal/jsonrpc/jsonrpc.go:139-154 | a waiting call is in the table or its reply is on its way |
| Rpc.Connection.TakeId | internal/jsonrpc/jsonrpc.go:120-121 | takes the next id of the wrapping counter |
| Rpc.Connection.Enter | internal/jsonrpc/jsonrpc.go:123-125 | enters the call into the table, as the protocol's step does |
| Rpc.Connection.Leave | internal/jsonrpc/jsonrpc.go:133-143 | removes just that id, as the failing write and the ended context of the protocol do |
| Rpc.Connection.Claim | internal/jsonrpc/jsonrpc.go:105-112 | finds the call of a reply, if any, and removes it, as the protocol's dispatch does |
| Rpc.Connection.CloseWith | internal/jsonrpc/jsonrpc.go:199-204 | closes once and keeps the first reason |

## Left out

- Plugin.Instance.Register: the blocked drain is shown as no result; that the half-filled channel then exists unseen is not shown, because nobody can observe it.
- Plugin.Instance.OnNotify: describes the handler with nobody in between; the interleaved form is the system's steps.
- Plugin.Instance.FailActiveStreams: likewise; Plugin.CleanUpIsSteps ties it to the system's separate notices and closes.
- Overlay.JsonMap.DeepOverlay: a nested map is merged in an object of its own and stored back, so sharing of nested maps between two trees is not modelled.
- Overlay.JsonMap.DeepMerge: likewise.
- Redact.RedactValue: likewise; it returns the rewritten value.
- Server.Server.ForwardStream: failing writes to the socket are ignored by the code and not modelled.
- Upstream.Stream: the handler's own 32-slot channel and the texts of decoder errors are not modelled.
- EndToEnd.TextCarriesMeaning: encoder and decoder of JSON text are parameters; text and values are related only by decoding what was encoded.
- JSON text: keys are matched case-sensitively, duplicate keys do not occur, numbers other than integers are literals, and the rounding of large numbers to floating point is not modelled.
- Lower-casing outside ASCII is modelled only as far as it can produce an ASCII letter, which is all the hints can see.
- Process handling, sockets, timers and health polling: operating system calls. Of a restart, only what it does to the streams of the first connection is modelled, any number of times; the streams of the next connection have other ids and a reader of their own, and are left out with the mutex they might block.
- The plugin after its connection has ended: it can no longer reach the host, and what it still does to its own table is not modelled.
- The deadline of completion.cancel: cancelling at the plugin and closing at the host are two steps that may happen in any order.
- handleStream before the stream starts, flushing, headers, metrics, time to first token and session events other than Finish.
- Non-streaming completion, error status mapping, model resolution and reasoning levels: finite tables that would only add easy members.
- Configuration, storage, traces on disk, the admin API, the console, the command line and the mock plugin.
