# Simple Serving, its protocols proved

Simple Serving puts a rented GPU behind a small HTTP gateway: a text lane in front of vLLM, a picture lane in front of
ComfyUI, and a client that measures and checks them. It runs on one thread of asyncio, so that whatever the code does
between two awaits is one step. This project models its protocols as such steps, and its loops and objects as they are,
and proves what the contract and the comments promise of them. `dafny verify dfyconfig.toml` checks all of it.

What is here, by component:

- **Places** (`PlaceRules.dfy`, `CountRules.dfy`, `Admission.dfy`): the rules of class, shared and per-key caps on
  values, and the tickets, lines and counters that carry them out in place. The invariant the code relies on and never
  states, that no waiting ticket ever has room, is proved of every run.
- **The text gateway** (`Gateway.dfy`, `GatewayProofs.dfy`, `GatewayTheorems.dfy`, `GatewayCounts.dfy`,
  `GatewayCaps.dfy`, `Lifecycle.dfy`): accepted requests as small programs over both pools of places, with the drain,
  sleep, open and engine machine around them; then the service object, with a method for every event of the machine,
  which after any list of events is where the machine's run is (`Lifecycle.AfterRun`). `Idle.dfy` is the idle timer,
  `Exchanges.dfy` one request's ASGI messages, `Relay.dfy` its measurements.
- **The stream** (`Wire.dfy`, `EngineEvents.dfy`, `Chunks.dfy`, `RoundTrip.dfy`, `Consumer.dfy`, `StreamPath.dfy`): from
  the engine's bytes through the translator to the bytes that a client, written independently, reads and checks.
- **The upload registry** (`Uploads.dfy`, `UploadTheorems.dfy`, `UploadRegistry.dfy`): generations, first-come locks,
  expiry and reclaim over a remote store whose failed writes may or may not have landed.
- **Pictures** (`PictureJob.dfy`, `PictureOrder.dfy`, `PictureStops.dfy`, `PictureCard.dfy`): a job followed over a
  socket, a queue and a record that may speak in any order, the stop of one, and what the card may hold.
- **The prefix cache** (`LastUse.dfy`, `PrefixCache.dfy`): two least-recently-used stores that are one.
- **Single algorithms**: the log scan (`Scan.dfy`), the PNG filter (`Png.dfy`), the prompt search (`PromptSize.dfy`).

`Wrappers.dfy` and `Sets.dfy` hold an option, a result and the sizes of sets.

A protocol appears twice: as a machine on values, over whose runs the theorems are proved, and, where the source keeps
an object, as a class whose methods change its fields in place and are proved to take the machine's steps. In
`Gateway.dfy`, `Uploads.dfy` and `PictureCard.dfy` an event that cannot happen in a state leaves it as it is, so that
every list of events is a run and a theorem about all lists is one about all interleavings.

## What is assumed

- Cancelling a task makes its next step raise. No handler that is shutting down is cancelled a second time, and the
  first cancellation while a stream is being closed still counts as the stream's end on the gateway's side.
- An ASGI server takes a message whole or not at all.
- Timers come due exactly at their time.
- `asyncio.Lock` is first come, first served. An erasure may be cancelled while it waits in the lock's line, but nothing
  that holds the lock is cancelled while it writes.
- A write to the picture store is settled when it is answered or fails: it has landed by then, or it never does. A
  failed write may have landed or not.
- A submit's effect on ComfyUI is settled when it returns; a refused or unreachable one had none; a job that left
  ComfyUI's queue never comes back; reads of the queue and of the record are true at their time.
- The JSON codec reads an object as it was written, writes it on one line and never as `[DONE]`. Numbers that are not
  integers are their literals. Text is Unicode scalar values: a lone surrogate from the engine is outside the model.
- A hash of blocks has no collision: a link of the prefix cache is its salt with the text it stands for.
- Job ids are fresh.

## What the proofs found

Properties that the code does not have on all inputs, each with an input that shows it and the exact condition:

- A picture whose cleanup is itself cut by the server's shutdown may stay on the card outside both sets
  (pictures/jobs.py:405-431). `PictureCard.UnaccountedExactly`: a job on the card is outside them if and only if a
  shutdown cut its cleanup short and it was released after that. `PictureCard.CutLeavesOneBehind` is such a run.
- A re-sent name skips the cap on live uploads (pictures/uploads.py:122-130). `UploadTheorems.CapExactly` says exactly
  when a PUT passes it, `UploadTheorems.CapIsPassed` shows one that does.
- `Exchange.start_stream` (asgi.py:112-116) notes the start only after its send returned. If a server took the start and
  the send were cut or raised all the same, an error would send a second start: `Exchanges.MessagesInOrder` has the
  exact condition for every script of sends, `Exchanges.PossibleInOrder` for those the code can make, and
  `Exchanges.TwoStarts` the run of a stop. A server that takes a message only after its last await never meets it.
- The client's bound of bytes (smoke.py:343-346) is a bound of its own beside the bound of text. `RoundTrip.ReadsBack`
  says that a stream is in order exactly within both, and `RoundTrip.WordlessIsPastBytes` that they are apart: 250,000
  deltas that hold only a role pass the one with no text at all, however the codec writes them.
- A line of the engine's stream past MAX_LINE_BYTES makes the cut of the body matter (engine.py:207-218).
  `EngineEvents.InStepExactly` and `EngineEvents.CutReadsAsWhole` say exactly when it does, and
  `EngineEvents.LongComment` is a body that one cut breaks.
- The order of agents before experiments on the card (pictures/service.py:105-110) holds for the first thousand million
  jobs of a boot, exactly (`PictureCard.NumbersOrder`).

And one that no run of the program meets: `scan` by itself, given a marker of one byte, keeps the whole buffer and not
nothing, since `[1 - 1:]` is all of it (card.py:969-970), and counts it again with every later piece
(`Scan.OneByteFound`, `Scan.OneByteFoundTwice`). The one entry point refuses any marker but 32 hexadecimal digits
(card.py:71, 998-999), and each of those is found exactly if it occurs, and counted between its occurrences that do not
overlap and all of them: `Scan.AdmittedIsCounted`.

## Model

| member | source | states |
|---|---|---|
| `Admission.Ticket.Grant` | simple_serving/admission.py:65-68 | a grant makes the ticket active and settles its future only if nothing has cancelled it |
| `Admission.Line.Add` | simple_serving/admission.py:48-49 | the ticket joins the end of its own class's queue and no other queue changes |
| `Admission.Line.Remove` | simple_serving/admission.py:51-52 | exactly that ticket leaves its queue, the order of the rest kept |
| `Admission.Line.InOrder` | simple_serving/admission.py:60-62 | the tickets in class order, then by arrival |
| `Admission.Admission.Enter` | simple_serving/admission.py:84-96 | in place, with its counters: the new ticket is active, waits or is refused as the rules of places say, and the whole state is theirs |
| `Admission.Admission.HasRoomNow` | simple_serving/admission.py:127-132 | the answer read off the counters is the one counted over the active tickets |
| `Admission.Admission.Activate` | simple_serving/admission.py:134-138 | a grant counts the ticket in its class and for its owner, and makes it active |
| `Admission.Admission.FirstWithRoom` | simple_serving/admission.py:119-121 | the search along the line finds the first waiting ticket with room, or that there is none |
| `Admission.Admission.Dispatch` | simple_serving/admission.py:119-125 | the loop ends, grants what the rules grant, and leaves no waiting ticket with room |
| `Admission.Admission.Leave` | simple_serving/admission.py:98-111 | a waiting ticket leaves the line, an active one its place, a ticket that has left nothing; the places after it are the rules' |
| `Admission.CountPlaces.Enter` | simple_serving/admission.py:156-167 | a count runs at once, waits, or is refused past its key's cap, in place |
| `Admission.CountPlaces.Fill` | simple_serving/admission.py:179-182 | the loop gives free places to the head of the line until none is free or nobody waits |
| `Admission.CountPlaces.RunningIs` | simple_serving/admission.py:184-186 | the sum of the classes' counters is the number of running counts |
| `Admission.CountPlaces.Leave` | simple_serving/admission.py:169-182 | a departure in place: what it frees goes to the head of the line |
| `PlaceRules.PickIsFirst` | simple_serving/admission.py:60-62 | the grant goes to the first ticket with room: no class before its own has one, and in its class none arrived earlier |
| `PlaceRules.DispatchKeeps` | simple_serving/admission.py:119-125 | after a dispatch no waiting ticket has room, all caps hold, no ticket is lost and no active place is taken away |
| `PlaceRules.EnterKeeps` | simple_serving/admission.py:84-96 | an arrival keeps every cap, the counters' meaning and the order of arrival, and gives no waiting ticket room |
| `PlaceRules.RoomKeepsCaps` | simple_serving/admission.py:127-132 | a ticket has room exactly if the active caps hold with it |
| `PlaceRules.EnterHoldsNothingBack` | simple_serving/admission.py:84-96 | an arrival is active exactly if the active caps allow it, and refused exactly if neither they nor the waiting caps do |
| `PlaceRules.LeaveKeeps` | simple_serving/admission.py:98-111 | so does a departure, which takes out exactly its own ticket |
| `PlaceRules.WithdrawalGrantsNothing` | simple_serving/admission.py:98-111 | a waiting ticket that leaves grants nothing to anyone |
| `PlaceRules.DepartureGrantsOne` | simple_serving/admission.py:119-125 | if only tickets of class `external` have an owner, an active ticket that leaves grants one waiter at most: the dispatch runs once |
| `PlaceRules.DispatchRunsOnce` | simple_serving/config.py:232-234 | in every run whose arrivals keep the owner rule, an active ticket that leaves grants one waiter at most |
| `PlaceRules.WithoutOwnerRuleTwoGrants` | simple_serving/config.py:232-234 | without that rule of the configuration one departure can grant two waiters: a concrete line, under limits the configuration allows |
| `PlaceRules.RunIsGood` | simple_serving/admission.py:84-111 | in every run of arrivals and departures: no waiting ticket has room, class, shared and per-key caps hold, active and waiting |
| `PlaceRules.FirstComeFirstServed` | simple_serving/admission.py:60-62 | in every run, once a ticket is active no earlier ticket of its class and owner waits, then or later |
| `CountRules.EnterKeeps` | simple_serving/admission.py:156-167 | a new count keeps the places, the per-key cap over running and waiting counts, and the turn within a class |
| `CountRules.EnterHoldsNothingBack` | simple_serving/admission.py:156-167 | a count is refused exactly if its key's cap would be passed, and waits exactly if every place is taken |
| `CountRules.LeaveKeeps` | simple_serving/admission.py:169-182 | so does a departure, and counts wait only while every place is taken |
| `CountRules.LeaveGrantsOne` | simple_serving/admission.py:169-182 | a waiting count that leaves grants nothing; a running one hands its place to exactly the head of the line |
| `Lifecycle.Service.Accept` | simple_serving/service.py:150-154 | in place: the work is taken on exactly if the service serves, and the machine's step is the whole change |
| `Lifecycle.Service.Release` | simple_serving/service.py:156-160 | the work is gone, and the end of the last work wakes a sleep that waits |
| `Lifecycle.Service.Stop` | simple_serving/inference.py:63-75 | only the first stop counts; a generation that waits for its place leaves the line in the same step |
| `Lifecycle.Service.CloseOne` | simple_serving/service.py:201-203 | a drain stops a work exactly if it waits or is outside |
| `Lifecycle.Service.StopAll` | simple_serving/service.py:300-301 | a loop of stops over the work |
| `Lifecycle.Service.IsActive` | simple_serving/inference.py:183-185 | whether the engine has the main call is read off the tickets, as the places say |
| `Lifecycle.Service.Close` | simple_serving/service.py:195-204 | the drain loop over the work, in any order, is the machine's close |
| `Lifecycle.Service.Sleep` | simple_serving/service.py:218-229 | a first sleep closes the service and starts the wait; a repeated one changes nothing |
| `Lifecycle.Service.Open` | simple_serving/service.py:181-193 | an open takes effect exactly for the drain it names, and never after a sleep |
| `Lifecycle.Service.DrainDeadline` | simple_serving/service.py:241-245 | the deadline stops all work that is left |
| `Lifecycle.Service.EngineIsAnother` | simple_serving/service.py:291-301 | another engine stops all work once |
| `Lifecycle.Service.EngineIsReady` | simple_serving/service.py:284-289 | a check that finds the verified engine makes the service ready again |
| `Lifecycle.Service.CheckFails` | simple_serving/service.py:272-277 | a failed check makes only a ready service failed |
| `Lifecycle.Service.SleeperGoesOn` | simple_serving/service.py:231-240 | the sleep's task goes on once all work is done, or 120 seconds after it began to wait |
| `Lifecycle.Service.EnterCount` | simple_serving/inference.py:163-177 | a request takes its count place or waits for it; a refusal ends its task |
| `Lifecycle.Service.Begin` | simple_serving/inference.py:163-177 | a task that starts unstopped asks for its count place, and a stopped one does nothing |
| `Lifecycle.Service.CountAnswers` | simple_serving/inference.py:209-216 | a count leaves its place before a generation asks for its own |
| `Lifecycle.Service.EnterPlace` | simple_serving/inference.py:214-216 | a counted generation takes its place, waits for it, or is refused and ends |
| `Lifecycle.Service.CountIsGranted` | simple_serving/inference.py:169-173 | a count goes on to the engine only with its place |
| `Lifecycle.Service.PlaceIsGranted` | simple_serving/inference.py:216-221 | a generation goes on to the engine only with its place |
| `Lifecycle.Service.EngineAnswersGeneration` | simple_serving/inference.py:221-222 | the engine's answer opens the stream, or ends the task with the place still held |
| `Lifecycle.Service.StreamEnds` | simple_serving/inference.py:263-281 | the end of the engine's stream ends the task, with the place still held |
| `Lifecycle.Service.CancelReaches` | simple_serving/inference.py:71-73 | a stopped work's task ends, and a count place it held is free |
| `Lifecycle.Service.CleanUp` | simple_serving/inference.py:233-241 | the stream is closed first and the place freed after |
| `Lifecycle.Service.HandlerWakes` | simple_serving/inference.py:104-115 | after the task the handler closes an open stream first, and else cleans up at once |
| `Lifecycle.Service.StreamIsClosed` | simple_serving/inference.py:229-236 | the place is left only once the stream is closed |
| `Lifecycle.Service.HasAnswered` | simple_serving/inference.py:77-93 | a work that has answered is released |
| `Lifecycle.Service.CancelHandler` | simple_serving/inference.py:104-115 | a cancelled handler stops its task and answers nobody |
| `Lifecycle.Service.Step` | simple_serving/service.py:131-301 | whatever the event, the object takes the machine's step, and the tickets it gains are new |
| `Lifecycle.AfterRun` | simple_serving/service.py:131-301 | after any list of events the object is exactly where the machine's run is, so that every theorem about runs holds of it |
| `GatewayProofs.NextKeeps` | simple_serving/inference.py:104-177 | every step keeps the tie between phases, stops, tickets and places, and the rules of both pools |
| `GatewayProofs.RunKeeps` | simple_serving/service.py:150-245 | so every run of accepts, grants, answers, stops, drains, sleeps and opens does |
| `GatewayTheorems.DrainStopsExactly` | simple_serving/service.py:195-204 | a drain stops exactly the waiting and the outside work, whatever the order of its loop, and promotes nobody on the way |
| `GatewayTheorems.WhileDraining` | simple_serving/service.py:195-204 | while a drain is on, nobody waits for a generation place, and work that is not stopped is ours and at the engine or done |
| `GatewayTheorems.DrainStepOnlyEnds` | simple_serving/inference.py:57-75 | no step of a drain grants a place or accepts, and only work that was active already goes on to call the engine |
| `GatewayTheorems.DrainOnlyEnds` | simple_serving/service.py:195-204 | over a whole drain the work, its tickets and its active places only become fewer |
| `GatewayTheorems.EngineCallsAreOld` | simple_serving/inference.py:229-231 | an open engine request during a drain held its place when the drain began |
| `GatewayCounts.EngineCountsAreOld` | simple_serving/inference.py:163-177 | an engine count open during a drain held its count place when the drain began, and then ran already or was ours and just granted; one not stopped is a count request of ours |
| `GatewayTheorems.DrainsAndOpens` | simple_serving/service.py:181-204 | a drain that begins takes the next number and arms its deadline; only an open of that drain ends it, and none after a sleep |
| `GatewayTheorems.GenerationCounts` | simple_serving/service.py:195-200 | the drain generation is the number of drains begun, in every run |
| `GatewayTheorems.DeadlineOfThisDrain` | simple_serving/service.py:204-204 | an armed deadline is the current drain's |
| `GatewayTheorems.SleepIsForGood` | simple_serving/service.py:218-229 | after a sleep the service drains for good, under one generation, and accepts nothing |
| `GatewayTheorems.StopsEmptyOrLate` | simple_serving/service.py:231-239 | the instance is stopped only with no work left, or 120 seconds after the sleep began |
| `GatewayTheorems.FirstStopCounts` | simple_serving/inference.py:63-75 | a work that was stopped keeps its first reason as long as it is there |
| `GatewayTheorems.OnlyAcceptsAdd` | simple_serving/service.py:145-154 | work comes in only by an accept, and exactly while the service is ready and not draining |
| `GatewayCaps.PlaceUntilClosed` | simple_serving/inference.py:233-241 | an open engine request holds an active place of its own class and key: the place is freed only after the stream is closed |
| `GatewayCaps.ClassCapHolds` | simple_serving/inference.py:209-222 | open engine requests of a class never exceed its active cap |
| `GatewayCaps.SharedCapHolds` | simple_serving/admission.py:132-132 | nor do those of the sharing classes the shared places |
| `GatewayCaps.KeyCapHolds` | simple_serving/admission.py:130-131 | nor those of one outside key its cap |
| `GatewayCaps.CountCapsHold` | simple_serving/inference.py:163-177 | running engine counts never exceed the count places, nor one key's its cap |
| `GatewayCaps.NoWorkNoPlace` | simple_serving/service.py:156-160 | without work both pools hold no ticket and every counter is zero |
| `Idle.IdleTimer.IdleCheck` | simple_serving/service.py:206-216 | in place: the check falls asleep or sets the timer for the earliest moment it could |
| `Idle.IdleTimer.FallAsleep` | simple_serving/service.py:218-226 | a first sleep cancels the timer; a repeated one changes nothing |
| `Idle.IdleTimer.FirstVerification` | simple_serving/service.py:279-282 | the idle interval starts with the first verified engine |
| `Idle.IdleTimer.OursEnds` | simple_serving/service.py:138-143 | the interval starts anew as a request of ours ends |
| `Idle.RunKeeps` | simple_serving/service.py:131-143 | an armed timer lies between now and the timeout after now, or after the end of our last request |
| `Idle.SleepsOnTime` | simple_serving/service.py:206-216 | the service falls asleep by itself exactly the timeout after our last request ended, with none in flight |
| `Idle.NeverLate` | simple_serving/service.py:279-282 | a verified, awake service with nothing of ours in flight is not past that moment |
| `Idle.TimeWaits` | simple_serving/service.py:206-216 | helper: at that moment the due timer runs before time goes on, and puts the service to sleep |
| `UploadRegistry.Registry.Put` | simple_serving/pictures/uploads.py:63-72 | in place: a PUT that is taken is another generation of its name, with its send due |
| `UploadRegistry.Registry.Claim` | simple_serving/pictures/uploads.py:112-132 | the name is the scope's with its ten minutes begun, or refused as another's or past the cap; an expired one is reclaimed unless its lock is held |
| `UploadRegistry.Registry.TakeTurn` | simple_serving/pictures/uploads.py:137-166 | a turn with the lock writes, or has nothing to do: its name was reclaimed, a newer PUT came, the expiry was renewed, or the blank is there |
| `UploadRegistry.Registry.AskTurn` | simple_serving/pictures/uploads.py:137-139 | the lock is first come, first served |
| `UploadRegistry.Registry.StartSend` | simple_serving/pictures/uploads.py:69-72 | the sends of an upload ask for the lock in the order of its PUTs |
| `UploadRegistry.Registry.NextTurn` | simple_serving/pictures/uploads.py:138-138 | the lock goes to the first that waits |
| `UploadRegistry.Registry.GiveUp` | simple_serving/pictures/uploads.py:157-158 | an erasure cancelled while it waits leaves the lock's line, the order of the others kept |
| `UploadRegistry.Registry.EraseFor` | simple_serving/pictures/uploads.py:150-161 | a cleanup or a sweep asks for the lock with the generation it is for |
| `UploadRegistry.Registry.CountLive` | simple_serving/pictures/uploads.py:127-128 | the uploads of a scope that count against its cap |
| `UploadRegistry.Registry.DropExpiredName` | simple_serving/pictures/uploads.py:118-121 | a name over its time is freed unless its lock is held |
| `UploadRegistry.Registry.EndWrite` | simple_serving/pictures/uploads.py:141-172 | the state is the writer's to set only while its PUT is the newest |
| `UploadRegistry.Registry.WriteHasLanded` | simple_serving/pictures/uploads.py:136-148 | the store takes the holder's bytes, and nothing else changes |
| `UploadRegistry.Registry.Forget` | simple_serving/pictures/uploads.py:103-110 | a sweep forgets a name only while it is the one it went for and is still over its time |
| `UploadRegistry.Registry.EraseByClient` | simple_serving/pictures/uploads.py:95-101 | only the scope's own upload is erased by its client |
| `Uploads.RunKeeps` | simple_serving/pictures/uploads.py:63-172 | in every run each upload's sends take their turns in the order of its PUTs, only the registered upload of a name writes, and the state agrees with the store |
| `UploadTheorems.OneWriteAtATime` | simple_serving/pictures/uploads.py:137-172 | at most one write of a name is in flight, even across delete and reclaim with another lock |
| `UploadTheorems.StateAgreesWithStore` | simple_serving/pictures/uploads.py:141-148 | once the newest PUT's send is over and nothing writes, `live` means the store holds exactly its bytes and `erased` the blank |
| `UploadTheorems.SuccessIsTold` | simple_serving/pictures/uploads.py:147-172 | an answered send of the newest PUT makes the name live with exactly its bytes in the store, an answered erasure erased with the blank |
| `UploadTheorems.OnlyItsOwnErasure` | simple_serving/pictures/uploads.py:156-172 | while bytes are live, only an erasure of that very PUT changes the store under the name |
| `UploadTheorems.OlderCleanupDoesNothing` | simple_serving/pictures/uploads.py:156-161 | helper: a cleanup of an older PUT does nothing when its turn comes |
| `UploadTheorems.EntryStays` | simple_serving/pictures/uploads.py:103-125 | no cleanup, sweep or claim removes an entry, or gives it to another scope, before the ten minutes that stood are over |
| `UploadTheorems.PutStartsTenMinutes` | simple_serving/pictures/uploads.py:112-132 | a PUT that is taken owns the name for its scope for ten minutes from now, as the newest generation |
| `UploadTheorems.CapExactly` | simple_serving/pictures/uploads.py:122-130 | the cap on live uploads is passed from within it exactly by re-sending a name of the scope that does not count, with the cap reached |
| `UploadTheorems.CapIsPassed` | simple_serving/pictures/uploads.py:122-130 | a concrete run that passes a cap of one |
| `PrefixCaches.PrefixCache.Call` | simple_serving/interference/worlds.py:290-325 | one request in place: what it tells the generation, its counters and both stores are those of one list of last uses; a count touches nothing |
| `PrefixCaches.PrefixCache.Look` | simple_serving/interference/worlds.py:297-305 | the loop over the blocks counts the prefix held on the card and the prefix held in both stores |
| `PrefixCaches.PrefixCache.Move` | simple_serving/interference/worlds.py:306-309 | the loop moves a chain to the young end and out of the copy |
| `PrefixCaches.PrefixCache.Trim` | simple_serving/interference/worlds.py:310-315 | the two loops drop the oldest past each room, blocks into the copy |
| `PrefixCaches.PrefixCache.SpillBlocks` | simple_serving/interference/worlds.py:310-313 | the blocks keep their newest, and the copy gets the others in order, or none without room of its own |
| `PrefixCaches.TwoTiersAreOne` | simple_serving/interference/worlds.py:282-325 | the copy followed by the blocks is exactly one least-recently-used store of both rooms; the stores are disjoint and within their rooms |
| `PrefixCaches.LargerNeverLoses` | simple_serving/interference/worlds.py:290-318 | a smaller cache's list is the young end of a larger one's, so no request has fewer cached tokens with more room, nor more than its prompt |
| `PrefixCaches.SaltsShareNothing` | simple_serving/interference/worlds.py:297-300 | requests under a new salt find nothing |
| `LastUse.LruHoldsNewest` | simple_serving/interference/worlds.py:306-312 | a store that drops the least recently used holds the newest of all links by last use |
| `LastUse.SpillKeepsNewest` | simple_serving/interference/worlds.py:310-315 | spilling the dropped blocks into the copy keeps both stores together the newest |
| `LastUse.HitsGrow` | simple_serving/interference/worlds.py:301-304 | a longer young end has no shorter prefix of a chain |
| `Chunks.Translator.ChunksOfEvent` | simple_serving/stream.py:48-58 | in place: the chunks of an event, or its refusal, and the translator's new state |
| `Chunks.Translator.Choice` | simple_serving/stream.py:73-91 | the chunks of a choice, with the finish on the last |
| `Chunks.TextIsTaken` | simple_serving/stream.py:73-91 | an engine event of text before the finish is taken as one chunk of that text |
| `Chunks.FinishIsTaken` | simple_serving/stream.py:83-90 | an event that only finishes is taken as an empty chunk with the finish |
| `Chunks.CountsAreTaken` | simple_serving/stream.py:53-58 | helper: an event of counts alone sends nothing and is kept for the end |
| `RoundTrip.PartsText` | simple_serving/stream.py:104-119 | the single-field parts of a delta hold its content and its reasoning, whole |
| `RoundTrip.TranslateKeepsText` | simple_serving/stream.py:48-91 | the chunks of a translated stream hold the engine's content and reasoning in order, and end with its only finish |
| `RoundTrip.UsageIsShaped` | simple_serving/stream.py:66-71 | a usage chunk has the shape the client asks for exactly when a prompt was counted, and reads back as the engine's counts |
| `Wire.BodyLines` | simple_serving/asgi.py:118-122 | the sent events read as a data line and an empty line each |
| `RoundTrip.ReadsChunks` | simple_serving/smoke.py:252-310 | after the chunks the client has the text and the finish, and complains only of its length |
| `RoundTrip.ReadsAnswer` | simple_serving/smoke.py:312-330 | and after [DONE] the whole answer, in order exactly within the bound of text and with a prompt counted |
| `RoundTrip.ReadsBack` | simple_serving/smoke.py:333-362 | for every cut of the sent bytes: the client is content exactly within its bounds, and has the engine's text, finish and counts |
| `RoundTrip.ReadsFailure` | simple_serving/smoke.py:252-318 | of a stream that fails after it has begun the client has the text so far and the error's code, and never finds it in order |
| `RoundTrip.WordlessIsPastBytes` | simple_serving/smoke.py:343-346 | a stream of 250,000 role deltas or more is taken by the translator, holds no text, and passes the client's bound of bytes for every codec |
| `Consumer.ReadStream` | simple_serving/smoke.py:333-362 | a refusal gives its code; else, however the body is cut, the loop reads it as a whole; past the bound of bytes, or with a failed connection, it is not in order |
| `Consumer.Stream.TakeEvent` | simple_serving/smoke.py:252-288 | one event in place: [DONE], an error, a chunk, or a rule it breaks |
| `Consumer.Stream.TakeChunkEvent` | simple_serving/smoke.py:270-288 | a chunk's checks in the client's order |
| `Consumer.Stream.TakeUsageChunk` | simple_serving/smoke.py:280-286 | a usage chunk comes once, after the finish, and in its shape |
| `Consumer.Stream.TakeOneChoice` | simple_serving/smoke.py:290-310 | a choice adds its text and its finish, or breaks a rule |
| `Consumer.Stream.Ends` | simple_serving/smoke.py:312-317 | the checks of a stream that has ended |
| `EngineEvents.ReadPieces` | simple_serving/engine.py:207-218 | the two loops read the body's pieces to [DONE] or to the first broken rule |
| `EngineEvents.PiecesDoNotMatter` | simple_serving/engine.py:207-218 | however a body of lines within MAX_LINE_BYTES is cut, it gives the same events |
| `EngineEvents.LongLineBreaks` | simple_serving/engine.py:215-216 | at the first cut where a line is pending past MAX_LINE_BYTES and the reader has not settled, the stream is broken, whatever comes after |
| `EngineEvents.InStepExactly` | simple_serving/engine.py:207-218 | at every cut the reader is where it would be with all of it read at once, exactly if no line is pending past MAX_LINE_BYTES before it has settled |
| `EngineEvents.CutReadsAsWhole` | simple_serving/engine.py:207-218 | a cut body comes to the events and the end of the whole exactly if the whole brings no event and no [DONE] after a cut where a line is pending past the bound |
| `EngineEvents.LongComment` | simple_serving/engine.py:215-216 | a comment past MAX_LINE_BYTES before [DONE]: read at once the stream is done, cut after the comment it is broken |
| `EngineEvents.ReadsEngine` | simple_serving/engine.py:85-101 | newline-free payloads come out as their own objects, in order, for every cut |
| `StreamPath.Relayed` | simple_serving/inference.py:251-285 | piece by piece and event by event: each event's chunks are sent as it comes, then the usage and [DONE], or an error event if the stream has begun |
| `StreamPath.WholeWay` | simple_serving/inference.py:251-285 | from the engine's pieces to the client's pieces: the client has the engine's own text, finish and counts |
| `StreamPath.BrokenWay` | simple_serving/inference.py:251-281 | for every body of the engine that breaks a rule after the first event, and every cut: the client has exactly the text before the break and the error's code, and never finds the stream in order |
| `Wire.LinesOfTwo` | simple_serving/engine.py:207-214 | reading on from what is pending gives the lines of the whole |
| `Relay.Measure` | simple_serving/inference.py:287-297 | 0 <= wait_ms <= first_token_ms <= total_ms, and the first token is that of the first event with a token or the finish |
| `Exchanges.Exchange.SendError` | simple_serving/asgi.py:101-110 | in place: a plain answer before the stream, the last event after it, nothing once the end has begun |
| `Exchanges.Exchange.SendJson` | simple_serving/asgi.py:83-86 | the terminal message has begun before its first send |
| `Exchanges.Exchange.StartStream` | simple_serving/asgi.py:112-116 | the start is noted once its send has returned |
| `Exchanges.Exchange.SendEvent` | simple_serving/asgi.py:118-122 | the last event marks the end as begun before its send |
| `Exchanges.RelayAll` | simple_serving/inference.py:264-272 | the relay sends event after event until one is cut |
| `Exchanges.Exchange.EndStream` | simple_serving/asgi.py:124-129 | a stream is ended once, and nothing else is |
| `Exchanges.Serve` | simple_serving/inference.py:121-150 | the task's sends and then its terminal message, each whole or cut |
| `Exchanges.MessagesInOrder` | simple_serving/asgi.py:83-129 | in every run the messages begin one start, bodies and one last body, but exactly for a start that the server took although its send did not return, with an error after it |
| `Exchanges.PossibleInOrder` | simple_serving/inference.py:121-150 | of the runs the code can make the order fails exactly in two kinds: a stop cut the start's send and its code goes out, or that send raised and the failure does |
| `Exchanges.TwoStarts` | simple_serving/asgi.py:112-116 | a run the code can make: a stop cuts the start's send after the server took it, and its code is sent as a second start |
| `Exchanges.UncutIsWhole` | simple_serving/inference.py:135-150 | with nothing cut, exactly the stream, its events, and the usage and [DONE], the error or the plain end go out; without a stream the plain answer or error |
| `Exchanges.CutMeansUnsent` | simple_serving/inference.py:121-150 | on a server that takes a message only once its send must return the order always holds |
| `PictureJob.Picture.Run` | simple_serving/pictures/jobs.py:149-178 | from the submit to the end: the events keep their order, the phase never goes back, and a delivered job has told all its images |
| `PictureJob.Picture.TakeNews` | simple_serving/pictures/jobs.py:225-260 | what the socket tells, in any order, is told to the client in that order, and keeps the order of the events |
| `PictureJob.Picture.TakeOne` | simple_serving/pictures/jobs.py:229-260 | each message is heard and told as it is: a start once, cached nodes, nodes and progress as they come |
| `PictureJob.Picture.TellPlace` | simple_serving/pictures/jobs.py:283-288 | a place is told only once a read of the queue has held the job |
| `PictureJob.Picture.TakeView` | simple_serving/pictures/jobs.py:262-281 | a read of the queue places the job, or lets it leave |
| `PictureJob.Picture.Start` | simple_serving/pictures/jobs.py:290-299 | `started` is told once |
| `PictureJob.Picture.Poll` | simple_serving/pictures/jobs.py:310-340 | a job in neither twice in a row is lost, reads that fail more than three times in a row end it, and only a record that says so is over |
| `PictureJob.Picture.Follow` | simple_serving/pictures/jobs.py:183-218 | the loop ends with a record that was heard or read, a lost job or too many failed reads, and never tells a place after the start |
| `PictureJob.Picture.Deliver` | simple_serving/pictures/jobs.py:342-375 | exactly `started` unless it was told, `over`, and the images; all of them go out if nothing is cut and each is a picture |
| `PictureOrder.StagesKeepOrder` | simple_serving/pictures/jobs.py:149-178 | what the stages allow, in words: `accepted` first and once, no place after the one `started`, `started` before the one `over`, then only images |
| `PictureOrder.DeliveredShape` | simple_serving/pictures/jobs.py:342-375 | a delivered stream is a started one, `over`, and its images |
| `PictureOrder.FinishedPasses` | simple_serving/pictures/smoke.py:198-270 | the client's own check passes a finished stream exactly if it has one image, within its bound of events |
| `PictureOrder.Course.Event` | simple_serving/pictures/smoke.py:198-270 | in place: an event is taken exactly if the client's automaton takes it, and the fields are then its next state |
| `PictureStops.StopJob` | simple_serving/pictures/comfy.py:189-208 | the cancel first, and then at most ten polls, the queue before the record: they confirm exactly what their answers confirm |
| `PictureStops.ConfirmsExactly` | simple_serving/pictures/comfy.py:189-208 | a stop is confirmed by a record, or by two answers in a row, of those that came, that find the job nowhere |
| `PictureStops.SilenceConfirmsNothing` | simple_serving/pictures/comfy.py:189-208 | a card that answers nothing, or that it holds the job, confirms nothing |
| `PictureCard.PictureService.TakeOn` | simple_serving/pictures/service.py:112-121 | in place: a picture is taken on exactly if the service serves and its class has room for accepted jobs and unconfirmed stops |
| `PictureCard.PictureService.UnresolvedStop` | simple_serving/pictures/service.py:123-125 | an unconfirmed stop counts on after its request |
| `PictureCard.PictureService.ResolveStop` | simple_serving/pictures/service.py:207-222 | the cancel asked again and one look: resolved by the job's record, which is then deleted, or by the second look in a row that finds it nowhere; a look that fails changes nothing |
| `PictureCard.LimitHolds` | simple_serving/pictures/service.py:112-125 | the distinct jobs of a class that the card may hold, accepted or unconfirmed, never exceed its limit |
| `PictureCard.UnaccountedExactly` | simple_serving/pictures/jobs.py:405-431 | in every run a job on the card is outside both sets if and only if a shutdown cut its cleanup short and it was released after that |
| `PictureCard.CutLeavesOneBehind` | simple_serving/pictures/jobs.py:405-431 | a concrete run in which the shutdown cuts a cleanup and the job stays on the card in neither set: it is left behind |
| `PictureCard.CardWithinLimits` | simple_serving/pictures/service.py:112-125 | so the card never holds more jobs of a class than its limit, those left behind by a cut cleanup apart |
| `PictureCard.NumbersOrder` | simple_serving/pictures/service.py:105-110 | helper: later readers before earlier ones, readers before all others, and agents before experiments exactly while the numbers are within ORDER |
| `Scan.ScanPieces` | simple_serving/card.py:962-971 | the loop reports the exact number of newlines, and what it finds piece by piece |
| `Scan.FoundBetween` | simple_serving/card.py:962-971 | for a marker of two bytes or more: at least one count over the whole file, at most all its occurrences, for every cut |
| `Scan.FoundExactly` | simple_serving/card.py:969-970 | and exactly both for a marker without a border |
| `Scan.FoundIffOccurs` | simple_serving/card.py:962-971 | a marker is found at all exactly when it occurs |
| `Scan.AdmittedIsCounted` | simple_serving/card.py:998-999 | every marker the entry point admits is found exactly if it occurs, and counted between the two counts |
| `Scan.OneByteFound` | simple_serving/card.py:969-970 | of `scan` alone, past the entry point's guard: a marker of one byte is counted right exactly when no piece before the last holds it |
| `Scan.OneByteFoundTwice` | simple_serving/card.py:969-970 | of `scan` alone: two pieces in which one occurrence is found twice |
| `Png.StripPng` | simple_serving/pictures/graphs.py:91-109 | the loop returns the kept chunks, or says why the data is not a whole PNG |
| `Png.StripsExactly` | simple_serving/pictures/graphs.py:91-109 | exactly the data that is a signature and a layout of chunks with two kept ones is stripped, to the signature and the kept chunks in order |
| `Png.StripsOnce` | simple_serving/pictures/graphs.py:91-109 | no chunk of another kind is left, and stripping again changes nothing |
| `PromptSize.FindSize` | simple_serving/interference/runner.py:81-111 | for nondecreasing counts: the greatest count not above the target, or the right refusal, with at most 30 counts |
| `PromptSize.Measure` | simple_serving/interference/runner.py:85-91 | a count that contradicts an earlier one refuses the search, and only on counts that do fall |
| `PromptSize.Double` | simple_serving/interference/runner.py:96-100 | the doublings meet the target or reach the most units |
| `PromptSize.Halve` | simple_serving/interference/runner.py:101-108 | fourteen of the sixteen rounds close the gap |

## Left out

- Sockets, HTTP, TLS, SSH, subprocesses, files, locks on disk, the Vast API, uvicorn and httpx: their answers, failures
  and pieces are inputs wherever a protocol depends on them.
- Configuration parsing, key lookup, request validation and the checks of a graph: tests of single fields.
- Metrics, log rows, the records' fields and the state route: they read what the model holds.
- The text of JSON, UTF-8, base64, HMAC, regular expressions and hashes: opaque, under the assumptions above.
- The wall timer, the watcher of a client and the route's own refusals before acceptance: they appear as stops at any
  step, and as requests that were never accepted.
- The engine's checks and warm-up: they appear as the engine becoming ready, failing or being another.
- Awaits inside one object's method: the classes `Lifecycle.Service`, `UploadRegistry.Registry` and
  `PictureCard.PictureService` have one method for each step between two awaits, and the order of the steps is the
  machines'. A work and its tickets are entries of maps there, not objects that point at one another.
- UploadRegistry.Registry.EraseFor: stands for the tasks of a cleanup and of the sweep's loop, whose snapshot of expired
  names is any entry and any generation it ever had.
- Relay.Measure: times are real numbers, where the source has floating point.
- StreamPath.Relayed: the code of the error is an input, and so is what becomes of each send, which is
  `Exchanges.Serve`'s.
- EngineEvents.ReadPieces: a connection that fails is a body that ends.
- Consumer.ReadStream: the reading of a refusal's body, whose JSON, if it is any, is an input.
- PictureJob.Picture.Run: the contents of the events, the samples of the card's memory and the stamps; a timer that is
  due is a condition of a round.
- PictureOrder.FinishedPasses: the fields that the client asks of each event are one condition, `formed`, which the
  gateway's events are taken to meet; its bounds of bytes and lines are not part of it.
- PictureStops.StopJob: the half second between two polls.
- PrefixCaches.PrefixCache.Call: the delays it tells the stand-in engine, and the schemas it has seen.
- PromptSize.FindSize: the prompt that is built for a number of units, whose count is a function of the number.
- The launcher, the command line, preflight, the card's report but for its scan, and the smoke's other probes.
