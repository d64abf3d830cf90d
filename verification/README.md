# gohtmxelm: verified models

gohtmxelm keeps several kinds of user interface (HTMX tables, Datastar panels,
Elm islands) in agreement with one server. This project models the parts of it
that make that agreement happen and proves what they promise.

- **The convergence kernel** (`Sim*.dfy`, `Invariants.dfy`). One authoritative
  writer fans events out to surfaces over a network that drops, delays,
  duplicates and partitions; surfaces recover by reconnecting and hydrating.
  `SimModel` gives the kernel as functions on a state, `SimKernel` as the object
  of the source, whose methods are proved to do what the functions say. All
  invariants are kept by each step (`SimSafety`, `SimRecovery`, `SimBooks`,
  `SimStream`, `SimTrace`, `SimActions`), are lifted to whole runs in
  `SimRun`, and give the theorems of `SimTheorems`; `SimUnaided` and
  `SimDivergence` settle which configurations need no resync, and `SimDraws`
  which draws cause which faults. Every random draw is read from a tape of
  which nothing is assumed, so the theorems hold for every seed. `Simviz` is
  the player that records runs and keeps a ledger of them.
- **The real fan-out path**. `Broadcaster` and `BroadcasterServe` (the hub and
  `Serve`, over all interleavings), `Store` and `StoreClient` (the versioned store and the
  browser's cache of it), `Text`, `EventStream`, `Sse` and `Stream` (the
  event-stream writers against a parser written from the standard), `Broker`,
  `BrokerMessages` and `BrokerObject` (the page broker that replays events to
  late islands).
- **Self-contained pieces**. `Calendar` (the range picker's date arithmetic),
  `Lattice` and `LatticeOrder` (the diagrams whose `valid` mark is a theorem),
  `Stopwatch` (the clock, and the protocol that parks and wakes its loop).

Objects that the source updates in place are classes. A class is proved against
a function of what it was asked to do so far (its history, its log, the state it
started from), and the theorems are about that function.

Where the code and what is said about it differ, the model follows the code:

- `broadcaster.go:39` calls Unsubscribe safe once per channel; by its check it is
  safe any number of times, and the model lets anyone call it at any time.
- `datastar.go:16-18` allows empty elements; a patch with neither elements, mode
  nor selector has no data line, so the standard makes browsers ignore it.
- Elements with a carriage return cannot be carried: the standard ends a line
  there. `Sse.PatchRoundTrip` states this as an equivalence.
- A month shift from a negative total truncates toward zero and is off by a
  year; `Calendar.ShiftsCompose` says exactly when shifts compose.
- A page that reconnects, unlike a fresh one, may keep keys that were deleted
  while it was away, and after a restart of the store may ignore new changes;
  `StoreClient.AgreesUnlessMissed` says exactly when.
- `docs/13-contracts.md:41` calls SSE_EVENT a message from the broker to islands,
  but the broker passes on one that an island sends, and `elm/BrokerPort.elm:95-102`
  reads it by its kind alone; `Brokers.AlwaysKnowIffHarmless` says exactly when
  islands stay right, and `Brokers.HonestIsHarmless` gives the simple guard.
- `internal/simnet/sim.go:72-75` says that without resync a run exposes the
  divergence of a lossy stream; `SimDivergence.ReportsNothingIffRobust` says for
  which configurations it can.

## Model

| member | source | states |
|---|---|---|
| SimTheorems.ConvergesUnderResync | internal/simnet/sim.go:195-232 | With resync, for every configuration and every sequence of draws: whenever the queue is empty between writes, and at the end, every surface is connected, ungapped and equal to the authority in data and version; the quiesce loop changes nothing. |
| SimTheorems.ResyncReportsNothing | internal/simnet/sim.go:421-441 | With resync no run reports a violation. |
| SimTheorems.OnlyDivergenceIsReported | internal/simnet/sim.go:421-441 | In every run, with or without resync, the report is empty if all views equal the authority and is one convergence violation otherwise; an ordering violation is never reported. |
| SimTheorems.ResultTells | internal/simnet/sim.go:421-441 | The result of a run has the final clock, the number of writes and their replay, and one view per surface, which shows the replay of the writes up to its version. |
| SimTheorems.ShowsAPrefix | internal/simnet/sim.go:342-394 | At every instant of every run a surface shows exactly the authoritative map as it stood at the surface's version, which is at most the server's. |
| SimTheorems.NeverGoesBack | internal/simnet/sim.go:342-394 | From any instant to any later one, and to the end, a surface's version does not decrease, nor does its recorded history. |
| SimTheorems.AuthorityIsReplay | internal/simnet/sim.go:235-254 | The server ends at the configured number of writes (0 for a negative one) with the map that those writes, replayed in order, give. |
| SimTheorems.GapIsForever | internal/simnet/sim.go:365-383 | Deltas without resync: from the instant a surface shows a gap, its data and version are the same at every later instant and at the end. |
| SimTheorems.DeltaMatchesIffNoGap | internal/simnet/sim.go:365-383 | Deltas: at the end a surface presents the authoritative state if and only if its gap flag is down. |
| SimTheorems.SnapshotsJoin | internal/simnet/sim.go:351-363 | Snapshots without resync or partitions: a surface ends at the largest version ever scheduled for it (0 if none) with the map of that version, whatever the delays, drops and duplicates. |
| SimTheorems.LossFreeIsExact | internal/simnet/sim.go:257-304 | With no drops, delays or partitions, any duplicate rate, buffer and semantics: after each write the clock, the server version and every surface agree, nothing is queued, and each surface applied exactly 0, 1, ..., n. |
| SimTheorems.ReconnectsAnswerFaults | internal/simnet/sim.go:308-313 | Over a whole run the reconnects equal drops plus partitions plus gaps under resync, and are none without it. |
| SimTheorems.ActionsTell | internal/simnet/trace.go:13-31 | At every instant of every run the action names a write's version, or a surface and a version at which that surface stands as the action says: just come to it, dark, gapped and behind it, or offered it. |
| SimTheorems.ActionsAreComplete | internal/simnet/sim.go:235-383 | Each write, each version a surface came to and each second copy of an event has its own instant: the duplicates recorded are the events scheduled less the distinct ones. |
| SimTheorems.ProcessedOnce | internal/simnet/sim.go:317-338 | As multisets, what was scheduled is what was processed; and it is at most four deliveries per write and surface. |
| SimTheorems.StepsBounded | internal/simnet/sim.go:205-218 | The final clock lies between the writes and the writes plus the largest delay plus one recovery delay. |
| SimTheorems.ProcessedOnTime | internal/simnet/sim.go:317-338 | Each delivery is processed at the step it is due; the one exception is a reconnect that the configuration set in the past, which is never early. |
| SimTheorems.BuffersBounded | internal/simnet/sim.go:285-303 | A surface's buffer count never exceeds the buffer, nor the number of events in flight for that surface. |
| SimTheorems.LiveVerdictIsExact | internal/simnet/trace.go:78-131 | In every frame of every recorded run the live verdict is the strict convergence check of that instant; frames are numbered from 1 and exactly the last is final. |
| SimTheorems.TerminalVerdictIsExact | internal/simnet/trace.go:84-94 | There is a last frame, and it says violated if and only if it does not say converged, which is when the run is reported. |
| SimDivergence.ReportsNothingIffRobust | internal/simnet/sim.go:257-313 | Without resync, every sequence of draws leaves the run unreported if and only if the configuration is robust: no writes; or no drops and no partitions, a buffer above the smaller of the largest delay and the writes less one, and snapshots, or a single write, or delays of at most one step. The same for fractions below 1 as draws, unless the delay rate is 1 or more. |
| SimUnaided.RobustConverges | internal/simnet/sim.go:257-304 | A robust configuration has every surface caught up at the end, whatever is drawn. |
| SimDivergence.NotRobustDiverges | internal/simnet/sim.go:257-313 | For any other configuration without resync there are draws under which the run is reported, fractions below 1 unless the delay rate is 1 or more. |
| SimUnaided.RobustSends | internal/simnet/sim.go:277-292 | Under a robust configuration no event is ever lost, so no buffer is ever found full. |
| SimUnaided.FirstDueIsNext | internal/simnet/sim.go:365-383 | With deltas, the first due event is never ahead of the next version its surface needs. |
| SimDivergence.FullDiverges | internal/simnet/sim.go:285-292 | Stalled writes that fill the buffers just before the last write keep it from everybody. |
| SimDivergence.ReorderDiverges | internal/simnet/sim.go:294-303 | A delta that arrives before the one it follows leaves its surface behind for good. |
| SimRun.AfterWritesInv | internal/simnet/sim.go:205-209 | Every invariant of the kernel (safety, recovery owed, fault balance, conservation, timing, work budget, buffers) holds after any number of writes, with the clock and the server version both at that number. |
| SimRun.DrainInv | internal/simnet/sim.go:317-338 | A drain keeps every invariant and moves neither the clock nor the server. |
| SimRun.SettledInv | internal/simnet/sim.go:211-218 | The closing loop keeps every invariant and loses no write. |
| SimRecovery.FateRecoverable | internal/simnet/sim.go:257-304 | Whatever happens to one event, what the surface now lacks is on its way: a reconnect for a gap under resync, every missing delta, or the latest snapshot. |
| SimRecovery.ProcessRecoverable | internal/simnet/sim.go:342-400 | Processing any due item keeps that debt covered for every surface. |
| SimRecovery.EmptyQueueConverged | internal/simnet/sim.go:215-218 | Hence, with nothing in flight, every surface has converged under resync, and under deltas a surface is current if and only if it has no gap. |
| SimSafety.FateSafe | internal/simnet/sim.go:257-304 | Fan-out keeps the state safe: surfaces show prefixes, dark surfaces are gapped, gapped surfaces are behind, the queue carries what the server wrote in scheduling order. |
| SimSafety.ProcessSafe | internal/simnet/sim.go:342-400 | Delivery and reconnect keep the state safe. |
| SimBooks.ProcessBalanced | internal/simnet/sim.go:376-400 | Processing an item keeps reconnects done plus reconnects queued equal to the faults so far. |
| SimDrain.DrainHandlesDue | internal/simnet/sim.go:317-338 | With reconnects not set in the past, a drain is: take out exactly the items due at its start, keep the rest in order, and handle the former in queue order. |
| SimDrain.FirstDueIsEarliest | internal/simnet/sim.go:318-326 | On the queue, which is sorted, the scan for the smallest sequence number picks exactly the first due item. |
| SimModel.AdvanceProgress | internal/simnet/sim.go:211-218 | Each turn of the closing loop uses up work (two per event, one per reconnect), or leaves the queue alone and brings the clock nearer the last due time; so it ends. |
| SimModel.ProcessShrinks | internal/simnet/sim.go:327-336 | Processing an item strictly lowers the work left, whatever it schedules. |
| SimModel.DrainLeavesNothingDue | internal/simnet/sim.go:317-338 | After a drain nothing is due. |
| SimModel.DefaultsNormalise | internal/simnet/sim.go:79-96 | Defaults always give a usable configuration, leave a usable one alone, and raise to one just the counts below one, and a delay bound or reconnect time below one where its rate is positive. |
| SimModel.DrawFate | internal/simnet/sim.go:262-303 | The fate drawn for an event is one the configuration allows: no drop at rate 0, no delay beyond the largest, no duplicate at rate 0, none sent into a full buffer. |
| SimDraws.EachFaultHasItsCoin | internal/simnet/sim.go:262-303 | For every surface that is connected: partitioned if and only if its own coin is below the partition rate; else dropped if and only if the next is below the drop rate; else lost if and only if the buffer is full; else late, by one more than the number drawn modulo the bound, and doubled, if and only if their coins are below their rates. |
| SimDraws.NoFaultWithoutAHit | internal/simnet/sim.go:262-303 | A fate other than dark, full buffer or sent at once needs a coin below the rate of that very fault, among those taken for the event. |
| SimDraws.PossibleIffDrawn | internal/simnet/sim.go:262-303 | With every rate below 1, the fates that fractions below 1 can draw are exactly the possible ones. |
| SimDraws.RecoveryIsDue | internal/simnet/sim.go:265-313 | What each fate queues, and for when: a copy or two after the delay; under resync a reconnect after the configured steps for a partition, one step later for a lost event; nothing otherwise. |
| SimDraws.GapRecoveryIsDue | internal/simnet/sim.go:374-383 | A delta out of turn leaves a gap and, under resync, a reconnect one step after the configured ones. |
| SimDraws.FateOnSurface | internal/simnet/sim.go:262-303 | An event on its way takes one buffer place whatever its copies; a partition frees all; a lost event leaves a gap; nothing shows before it arrives. |
| SimDraws.ArrivalOnSurface | internal/simnet/sim.go:342-383 | An arrival frees one place and shows exactly if the surface is connected, the event newer and a delta in its turn; only a delta out of turn opens a gap, and only a newer snapshot closes one. |
| SimDraws.WritesAreNumbered | internal/simnet/sim.go:235-243 | After any number of writes, write n carries value n under a key below the keyspace. |
| SimDraws.EachKeyIsDrawn | internal/simnet/sim.go:236-239 | For each key of the keyspace there are draws that write it every time. |
| SimDraws.LogIsNumbered | internal/simnet/sim.go:235-243 | The same of the log of a whole run. |
| SimTrace.VerdictExact | internal/simnet/trace.go:99-144 | On a sound instant, all statuses read synced if and only if the strict check passes. |
| SimTrace.SyncedIsConverged | internal/simnet/trace.go:133-144 | A sound surface reads synced if and only if it presents the authoritative data and version. |
| SimTrace.StatusTells | internal/simnet/trace.go:133-144 | A surface reads disconnected if and only if it is dark, gapped if and only if it is connected with a gap, behind if and only if neither and its version is below the server's. |
| SimTrace.FrameShows | internal/simnet/trace.go:99-131 | Every frame of a recording shows of each surface the version, buffer use and status it had at that instant, with the server's version and number of keys then. |
| SimKernel.Kernel.constructor | internal/simnet/sim.go:173-189 | A new kernel has normalised its configuration and holds connected, empty surfaces. |
| SimKernel.Kernel.FanOut | internal/simnet/sim.go:257-304 | Draws and state change of one event for one surface, in the order the source draws them. |
| SimKernel.Kernel.ApplyWrite | internal/simnet/sim.go:235-254 | One write and its fan-out to every surface in turn. |
| SimKernel.Kernel.Deliver | internal/simnet/sim.go:342-383 | Snapshots are last-write-wins; deltas apply in order or open a gap; stale events do nothing. |
| SimKernel.Kernel.NextDue | internal/simnet/sim.go:319-329 | The scan returns the first due position, or -1 when none is due. |
| SimKernel.Kernel.DrainDue | internal/simnet/sim.go:317-338 | The loop computes the drain, and the simple specification of it when reconnects are not set in the past. |
| SimKernel.Kernel.FrameNow | internal/simnet/trace.go:99-131 | The frame built by the loop is the frame of the present instant. |
| SimKernel.Kernel.Finish | internal/simnet/sim.go:421-441 | The report the loops assemble is the one the theorems speak of. |
| SimKernel.Kernel.SettleAll | internal/simnet/sim.go:211-218 | The closing loop ends, and ends in the settled state. |
| SimKernel.Kernel.QuiesceAll | internal/simnet/sim.go:220-229 | The quiesce loop, surface by surface. |
| SimKernel.Kernel.Run | internal/simnet/sim.go:195-232 | A fresh kernel runs to the final state of its configuration and random source, and returns its report. |
| SimKernel.Record | internal/simnet/trace.go:78-96 | The frames returned are those of the final state's trace, each with the total, the last with the terminal verdict. |
| Invariants.CheckConvergence | internal/simnet/invariants.go:40-62 | No error if and only if every view equals the authority in version and data; otherwise the first view that does not, with the reason that holds of it. |
| Invariants.CheckMonotonic | internal/simnet/invariants.go:69-77 | No error if and only if the history never decreases; otherwise the first index at which it does. |
| Invariants.CheckView | internal/simnet/invariants.go:42-59 | One view passes if and only if it presents the authority; a failure names a reason that holds, for a key the smallest on which they differ. |
| Invariants.SortedKeys | internal/simnet/invariants.go:88-95 | The keys of a map, each once, in ascending order. |
| Simviz.TallyFrames | demo/internal/simviz/simviz.go:193-215 | The five counts are the numbers of frames of each kind, and the lag is the largest by which any surface trails in any frame, 0 if none does. |
| Simviz.LowestVersion | demo/internal/simviz/simviz.go:206-211 | The least of the authoritative version and the surfaces' versions. |
| Simviz.LagIsTrue | demo/internal/simviz/simviz.go:206-215 | The lag tallied from a recorded run is the largest by which a surface trailed the server at any instant of the run itself, 0 if none did. |
| Simviz.EntriesHonest | demo/internal/simviz/simviz.go:169-229 | Every ledger entry is honest: converged if and only if not violated; under resync converged, with reconnects equal to drops plus partitions plus gaps; without resync no reconnects; the lag at most the writes. |
| Simviz.CountsBalance | demo/internal/simviz/simviz.go:193-205 | The counts taken from frames alone balance as the faults of the run do. |
| Simviz.EntryIsReproducible | demo/internal/simviz/simviz.go:169-192 | The entry made from a recording can be made again from the seed and the scenario it names. |
| Simviz.ReplayGivesSameEntry | demo/internal/simviz/simviz.go:334-343 | Replaying an entry, the scenario it names on the seed it names, and tallying it gives the same entry. |
| Simviz.WhenScenariosAreReported | demo/internal/simviz/simviz.go:68-85 | Without resync every scenario of the player has draws, fractions below 1, that end in a violation; with resync none has. |
| Simviz.Sim.RecordCompletion | demo/internal/simviz/simviz.go:169-229 | The ledger gains the entry of the run once, newest first, capped at 40; playback pauses on a violation when so set. |
| Simviz.Sim.Tick | demo/internal/simviz/simviz.go:141-165 | One beat: one frame on; at the end the run is recorded, dwelt on three beats, and the next seed is recorded from its first frame; each beat publishes the frame it leads to, once. |
| Simviz.Sim.DwellThenReseed | demo/internal/simviz/simviz.go:152-165 | Three beats at the end of a run that keeps playing lead to the first frame of the run of the next seed. |
| Simviz.Sim.Step | demo/internal/simviz/simviz.go:299-312 | A step does nothing while playing, and otherwise advances one frame, completes the run at the last, and publishes the frame. |
| Simviz.Sim.Replay | demo/internal/simviz/simviz.go:334-343 | The given run is loaded, paused at its first frame, which is published; the ledger is kept. |
| Simviz.Sim.Rebuild | demo/internal/simviz/simviz.go:369-387 | Playback holds the recording of the current scenario at frame 0. |
| Store.Store.SetIf | demo/internal/store/store.go:118-132 | Succeeds if and only if no version is wanted or the key's current one is; then the log gains one write whose number is the new version, and what is published restates the key as the store now has it; otherwise nothing changes and the current version (0 if none) is returned. |
| Store.Store.Delete | demo/internal/store/store.go:136-149 | Succeeds if and only if the key is there, and then removes it, takes one number and publishes the removal with its source. |
| Store.Store.AllStates | demo/internal/store/store.go:100-108 | One event per live key, in any order, each restating the key's entry. |
| Store.StateByLastTouch | demo/internal/store/store.go:118-149 | After any operations a key is live if and only if the last one on it was a write, and then holds that write, whose number is its version. |
| Store.VersionPinsKey | demo/internal/store/store.go:115-127 | A key has the same version at two moments if and only if nothing touched it in between, which is what a conditional write relies on. |
| Store.EventsTell | demo/internal/store/store.go:118-149 | The n-th event has number and version n and the source of the n-th operation; a write's restates its key exactly as the store has it after n operations, as a snapshot would; a delete's names a key that is no longer live. |
| StoreClient.Client.ApplyStore | demo/static/demo-ui.js:102-108 | The cache skips a delta it has seen, and otherwise records the version or the removal and raises its mark. |
| StoreClient.FreshPageAgrees | demo/main.go:530-548 | A fresh page that subscribed, hydrated in any order, then followed every change up to n has exactly the store's versions at n, deletes included, whatever was written in between. |
| StoreClient.AgreesUnlessMissed | demo/static/demo-ui.js:102-108 | A page with any old cache, of this store or of one that has started over since, agrees with the store if and only if it missed no key: the last operation on a missed key is one the page takes no notice of, and neither the snapshot nor the old cache makes up for it. |
| StoreClient.SameStoreMissesRemovals | demo/static/demo-ui.js:102-108 | When the page's mark is one the store has reached, the missed keys are the cached ones whose removal came before the subscription or at or below the mark. |
| StoreClient.PageOutlivesItsStore | demo/static/demo-ui.js:105-106 | A page whose mark is from before the store started over drops a new change as stale: a concrete run. |
| StoreClient.FreshPageToleratesReordering | demo/internal/store/store.go:125-131 | With changes arriving in any order a fresh page still agrees, so long as the last change of each key is not overtaken by a later one of any key. |
| StoreClient.WrittenKeyArrivesIffFirst | demo/static/demo-ui.js:105-108 | For a key written since the snapshot this is exact: the page has its version if and only if that was not overtaken. |
| StoreClient.AgreesOnKey | demo/static/demo-ui.js:102-108 | The same key by key: page and store differ on a key if and only if it is a missed one, with no condition on the page's mark. |
| StoreClient.ReconnectingPageMayKeepDeleted | demo/static/demo-ui.js:102-108 | A page that was away while a key was deleted keeps it: a concrete run. |
| Sse.RoundTrip | datastar.go:19-49 | Any sequence of events, element patches, signal patches and pings, parsed by the event stream rules of the WHATWG HTML Living Standard, sections 9.2.5 and 9.2.6, gives exactly their messages in order, pings vanishing. |
| Sse.PatchRoundTrip | datastar.go:19-43 | A patch arrives as one message from which its mode, selector and many-line elements are read back exactly if and only if mode and selector hold no line break, the elements no carriage return, and not all three are empty. |
| Sse.SendParses | sse.go:18-25 | One write leaves the parser idle and dispatches its one message, or none for a ping or a patch without arguments. |
| Sse.ArgsReadBack | datastar.go:23-41 | The argument lines determine mode, selector and the list of element lines. |
| Sse.WireText | sse.go:18-25 | The text of a named event, of signals and of a ping, to the letter. |
| Sse.PatchWireText | datastar.go:19-43 | The text of an element patch: its event line, a line for the selector and the mode if given, one for each line of the elements, an empty line. |
| Sse.Writer.WriteSSE | sse.go:18-25 | The text of the event, whole if the write succeeds, a beginning of it if not; nothing when the data cannot be encoded. |
| Sse.Writer.WriteDatastarPatchElementsMode | datastar.go:19-43 | The same for a patch, written line by line with an early return at the first failure. |
| Sse.Writer.WriteDatastarPatchSignals | datastar.go:46-49 | The same for a signal patch. |
| Streams.FlushedReadsBack | stream.go:54-109 | What a handler sent, in any order, is what the browser reads back from what was flushed, also when the last write failed part way. |
| Streams.Stream.Send | stream.go:54-60 | On any stream, also after a failed write: on success the text of the event follows what was there, all of it flushed; on failure nothing more is flushed; nothing is written when the data cannot be encoded. |
| Streams.Stream.PatchElementsMode | stream.go:73-79 | The same for a patch with mode and selector. |
| Streams.Stream.PatchElements | stream.go:63-69 | A patch with neither mode nor selector. |
| Streams.Stream.RemoveElements | stream.go:82-84 | A patch of mode remove without elements. |
| Streams.Stream.PatchSignals | stream.go:89-99 | The same for signals; nothing is written when they cannot be encoded. |
| Streams.Stream.Ping | stream.go:103-109 | A comment, written and flushed. |
| Calendar.WeekdayIsDayCount | demo/elm/RangePicker.elm:450-469 | The weekday formula is the number of days since 0001-01-01, counted by year and month lengths, modulo 7, for every year from 1 and every month. |
| Calendar.WeekdaysAdvance | demo/elm/RangePicker.elm:319-325 | The next calendar day has the next weekday, and every day of a month falls in the grid column of its weekday. |
| Calendar.DayNumberCounts | demo/elm/RangePicker.elm:417-445 | The day count really counts: 0001-01-01 is 0 and each next valid date is one more. |
| Calendar.KeyOrdersDates | demo/elm/RangePicker.elm:393-395 | The integer key orders valid dates exactly as the day count does, and is injective on them. |
| Calendar.RangeIsInterval | demo/elm/RangePicker.elm:403-414 | A committed range is ordered whichever end was picked first, and highlights exactly the days between its ends, both included. |
| Calendar.ShiftIsMonthsAway | demo/elm/RangePicker.elm:472-478 | A shift gives the first of a month, the right number of months away exactly when the total is non-negative or a whole number of years. |
| Calendar.ShiftsCompose | demo/elm/RangePicker.elm:472-478 | Two shifts are one shift of the sum if and only if the first lands on a non-negative total, on a whole negative year, or the sum lands in the year around zero. |
| Calendar.ShiftFailsBelowZero | demo/elm/RangePicker.elm:472-478 | A concrete date where two shifts do not compose. |
| Calendar.ShiftBack | demo/elm/RangePicker.elm:472-478 | Navigating away and back gives the first of the month. |
| LatticeOrder.AlwaysALattice | demo/internal/lattice/lattice.go:73-180 | After any commands the published diagram is a bounded lattice under the closure of its edges: unique names, a partial order with unique joins and meets, edges exactly the cover pairs, 2(n - 2) of them; one node is selected, higher elements are drawn higher, middle nodes strictly from left to right inside (0, 1), and the sequence number is one more than the commands. |
| LatticeOrder.LeqIsBelow | demo/internal/lattice/lattice.go:114-139 | Along the edges one node reaches another if and only if they are equal, or the first is the bottom, or the second the top. |
| LatticeOrder.StarIsHasse | demo/internal/lattice/lattice.go:114-139 | Each pair of nodes is joined by an edge if and only if the second covers the first, once. |
| LatticeOrder.OrderedHasJoins | demo/internal/lattice/lattice.go:114-139 | In such an order every two nodes have exactly one least upper bound. |
| LatticeOrder.OrderedHasMeets | demo/internal/lattice/lattice.go:114-139 | And exactly one greatest lower bound. |
| LatticeOrder.SelectsOne | demo/internal/lattice/lattice.go:166-170 | Exactly one node is flagged, the one the diagram names. |
| LatticeOrder.DrawsUpwards | demo/internal/lattice/lattice.go:88-97 | A node above another in the order is drawn above it, promotions included. |
| LatticeOrder.SpreadsOut | demo/internal/lattice/lattice.go:141-155 | Middle nodes stand strictly inside the canvas, strictly from left to right in the order they were added. |
| LatticeOrder.CommandsAreAttributed | demo/internal/lattice/lattice.go:182-189 | The diagram names the source of the last command if it is one of the five known and unknown otherwise, and has the next number. |
| LatticeOrder.AddingShowsANewNode | demo/internal/lattice/lattice.go:114-119 | Adding keeps every node and shows one more under a name that was not there, selected. |
| LatticeOrder.SelectingSelects | demo/internal/lattice/lattice.go:80-84 | Selecting moves the selection to a node that is there, and otherwise nowhere; nodes and edges stay. |
| LatticeOrder.PromotingRaises | demo/internal/lattice/lattice.go:88-97 | Promoting takes the selected middle node to the top row and changes no other node, no edge and not the selection. |
| LatticeOrder.ResettingStartsOver | demo/internal/lattice/lattice.go:98-139 | Resetting shows what a new lattice shows; an unknown command leaves nodes, edges and selection alone. |
| Lattices.Model.constructor | demo/internal/lattice/lattice.go:59-63 | A new model shows the diagram of the empty history. |
| Lattices.Model.Apply | demo/internal/lattice/lattice.go:73-112 | The diagram returned and published is the one the whole history of commands determines. |
| Lattices.Model.LayoutMiddle | demo/internal/lattice/lattice.go:141-155 | Each middle node moves to its rank over the number of middle nodes plus one, and to the middle row unless promoted; the others stay. |
| Lattices.Model.AddNode | demo/internal/lattice/lattice.go:114-119 | One new node under a new number, with an edge from the bottom and one to the top, selected. |
| Lattices.Model.Promote | demo/internal/lattice/lattice.go:88-97 | The selected node rises one level unless at the top already, and no other changes. |
| Lattices.Model.HasNode | demo/internal/lattice/lattice.go:157-164 | Whether some node has the id. |
| Lattices.Model.Reset | demo/internal/lattice/lattice.go:121-139 | The first four nodes and edges again, laid out, with h selected. |
| Lattices.Model.Snapshot | demo/internal/lattice/lattice.go:166-180 | The fields, with exactly the nodes of the selected id flagged. |
| Lattices.LaidIsDrawn | demo/internal/lattice/lattice.go:141-155 | Laying out nodes of the right names and levels gives the diagram of the history. |
| Lattices.PromotingIsShaped | demo/internal/lattice/lattice.go:88-97 | A node is promoted once at most, to the height of level 2. |
| Broadcasting.Broadcaster.Publish | broadcaster.go:51-60 | Every subscriber's channel gains the value at its end, unless full; none closes and none is added or lost. |
| Broadcasting.Broadcaster.Subscribe | broadcaster.go:31-37 | A fresh, empty, open channel joins the subscribers. |
| Broadcasting.Broadcaster.Unsubscribe | broadcaster.go:40-47 | The channel leaves the subscribers and is closed if it was one; otherwise nothing happens. |
| Broadcasting.Broadcaster.constructor | broadcaster.go:22-27 | No subscribers, and a buffer of at least one. |
| Broadcasting.NeverPanics | broadcaster.go:31-60 | In every interleaving of subscribers, publishers and Serve calls there is no send on a closed channel and no double close, the subscribers are exactly the open channels, and no channel exceeds its buffer. |
| Broadcasting.PutEachOnce | broadcaster.go:49-60 | However many publish at a time, each channel was put every value published since it subscribed and until it closed exactly once, but for calls still on their way, and received plus buffered are those that did not find it full, in order. |
| Broadcasting.NothingLostUnlessFull | broadcaster.go:49-60 | With one publisher at a time values are put in publication order, and received plus buffered are all that was published in the channel's time if and only if none found it full. |
| Broadcasting.PublishNeverBlocks | broadcaster.go:49-60 | A publisher that holds the read lock can always visit one more channel, or return. |
| Broadcasting.ServeHydratesThenForwards | stream.go:119-143 | A Serve call hydrates once, first, then passes on exactly what its channel gave it, in order; once it has returned its channel is no subscriber. |
| Serving.ServeEndsIff | stream.go:119-143 | In every interleaving a Serve call is on its way out, or has returned, if and only if hydrate or each failed, it saw its channel closed, or its client went away; it is hydrating until it has hydrated, and done once it has unsubscribed. |
| Serving.EndedIsOver | stream.go:119-143 | From the step that ended it on, a Serve call calls neither hydrate nor each again. |
| Serving.LeavingCanLeave | stream.go:120-121 | A Serve call on its way out waits for nothing but Publish calls under way; once gone, its channel is closed and no subscriber, and every other subscriber stays. |
| Serving.ChannelSteps | broadcaster.go:31-47 | A subscriber starts with an empty channel of its own; one that unsubscribes is closed with what it still holds; a value received is the first that was waiting; no other channel changes. |
| Broadcasting.LeavingUndoesEntering | stream.go:120-121 | Leaving removes from the subscribers just what entering added. |
| Brokers.LateIslandsCatchUp | runtime/gohtmxelm-broker.js:128-135 | In every interleaving of mounts, unmounts, island messages, server events and microtasks in which no island's message misinforms one: once no microtask is queued, every mounted island whose handshake was answered makes out, last of each event, the last value the server sent. |
| Brokers.StepKeepsKnowing | runtime/gohtmxelm-broker.js:85-172 | From a state in which all islands are right about all events, a step keeps them so if and only if it is not an island's message that the broker passes on as an event and that tells some island it reaches something other than the last the server sent. |
| Brokers.AlwaysKnowIffHarmless | runtime/gohtmxelm-broker.js:85-172 | Over whole runs: all islands are right in every state if and only if no step misinforms one. |
| Brokers.HonestIsHarmless | runtime/gohtmxelm-broker.js:85-126 | It is enough that no island sends a message of the kind meant for the broker alone, SSE_EVENT. |
| Brokers.IslandsAgree | runtime/gohtmxelm-broker.js:128-172 | So in such runs all such islands agree, whenever they were mounted. |
| Brokers.KeepsLastArrival | runtime/gohtmxelm-broker.js:223-233 | The replay table holds the last value that arrived of each event. |
| Brokers.KnowsAfterHandshake | runtime/gohtmxelm-broker.js:128-135 | Answering a handshake brings the island up to date on every event at once. |
| Brokers.KnowsAfterArrival | runtime/gohtmxelm-broker.js:223-233 | Forwarding an event keeps every ready island up to date. |
| Brokers.KnowsAfterRoute | runtime/gohtmxelm-broker.js:153-164 | Routing an island's message leaves an island right about every event if and only if the message does not reach it as an event with another value than the last. |
| Brokers.RouteLog | runtime/gohtmxelm-broker.js:153-172 | Which islands a message is queued for, by its target. |
| Brokers.BroadcastLog | runtime/gohtmxelm-broker.js:160-172 | A broadcast reaches each registered island with a port exactly once, but for the excepted one. |
| Brokers.IslandsCanMislead | runtime/gohtmxelm-broker.js:85-126 | The condition is needed: with two ordinary islands there is a run in which one ends with a value the server never sent, because the other sent it as an event. |
| BrokerMessages.NothingLostNorRepeated | runtime/gohtmxelm-broker.js:85-172 | In every interleaving: once no microtask is queued, each island has received exactly what the steps of the run said to it, in order. |
| BrokerMessages.HeardInOrder | runtime/gohtmxelm-broker.js:85-172 | At every moment what an island received, followed by what is queued for it, is that. |
| BrokerMessages.MessagesArePassedOn | runtime/gohtmxelm-broker.js:85-126 | A well-formed message of an island, of whatever kind but READY and HTMX_SWAP, is queued once, under the island's own id, for each island it is routed to and no other. |
| BrokerMessages.OthersAreNotPassedOn | runtime/gohtmxelm-broker.js:106-126 | A message of another version, without kind or target, or for the page itself changes nothing. |
| BrokerMessages.ReadyIsAnswered | runtime/gohtmxelm-broker.js:128-135 | An island that says it is ready, and no other, is sent the greeting and the last value of each event, and becomes ready. |
| BrokerMessages.AnswersSpelt | runtime/gohtmxelm-broker.js:128-135 | The greeting carries the island's id, and each replay its event and value, from the broker to that island. |
| BrokerMessages.ArrivalsAreForwarded | runtime/gohtmxelm-broker.js:223-233 | A server event becomes the last of its name and is queued once for each mounted island with a port. |
| BrokerMessages.SwapsAreAnnounced | runtime/gohtmxelm-broker.js:326-333 | A change of the page is announced once to each mounted island with a port. |
| BrokerMessages.MountingRegisters | runtime/gohtmxelm-broker.js:39-66 | A new node with a name becomes the island of that name, told nothing yet; only an island that had the name loses it. |
| BrokerMessages.UnmountingForgets | runtime/gohtmxelm-broker.js:76-81 | Nobody has the name of a node that is gone; every other island keeps its own. |
| BrokerMessages.RunningDelivers | runtime/gohtmxelm-broker.js:166-172 | The first queued message, and only it, reaches the island it was queued for. |
| BrokerObjects.Broker.CompleteHandshake | runtime/gohtmxelm-broker.js:128-135 | The greeting, then one message per table entry in table order. |
| BrokerObjects.Broker.Broadcast | runtime/gohtmxelm-broker.js:160-164 | One send per registered id in order, but for the excepted one. |
| BrokerObjects.Broker.Send | runtime/gohtmxelm-broker.js:166-172 | A message queued for the island registered now, if it has the port. |
| BrokerObjects.Broker.Route | runtime/gohtmxelm-broker.js:153-158 | Where a message goes by its target. |
| BrokerObjects.Broker.HandleEvent | runtime/gohtmxelm-broker.js:85-126 | An island's message is one step of the protocol the theorems range over. |
| BrokerObjects.Broker.ForwardSSE | runtime/gohtmxelm-broker.js:223-233 | So is a server event. |
| BrokerObjects.Broker.Mount | runtime/gohtmxelm-broker.js:39-66 | So is a mount. |
| BrokerObjects.Broker.Unmount | runtime/gohtmxelm-broker.js:76-81 | So is an unmount. |
| BrokerObjects.Broker.RunMicrotask | runtime/gohtmxelm-broker.js:166-172 | So is the running of the first microtask. |
| Stopwatch.NoLostWakeup | demo/internal/stopwatch/stopwatch.go:70-128 | In every interleaving of Start, Stop and Reset calls with the tick loop, a stopwatch that runs while the loop is parked or about to park has a poke buffered or a Start on its way to leave one. |
| Stopwatch.RunningGetsTicking | demo/internal/stopwatch/stopwatch.go:70-116 | A running stopwatch that does not tick always has an internal step to take, and each brings ticking nearer. |
| Stopwatch.StoppedGetsIdle | demo/internal/stopwatch/stopwatch.go:70-128 | A stopped stopwatch reaches, by any internal steps, the state in which the loop is parked and does no work. |
| Stopwatch.ControlIsCounted | demo/internal/stopwatch/stopwatch.go:70-128 | In every interleaving the stopwatch runs if and only if it was last started; each Start pokes once; no more pokes are received than sent; the loop wakes as often as it parks, or once more. |
| Stopwatch.Clock.Start | demo/internal/stopwatch/stopwatch.go:101-107 | A start while running changes nothing but the history. |
| Stopwatch.Clock.Stop | demo/internal/stopwatch/stopwatch.go:118-124 | Time stops accruing and what has accrued is kept. |
| Stopwatch.Clock.Reset | demo/internal/stopwatch/stopwatch.go:130-136 | Time and laps start over, stopped. |
| Stopwatch.Clock.Lap | demo/internal/stopwatch/stopwatch.go:142-148 | The running time is put first among the laps, unless it is zero or less. |
| Stopwatch.Clock.Snap | demo/internal/stopwatch/stopwatch.go:174-182 | The snapshot shows the running time in whole milliseconds, whether it runs, and the laps numbered down to 1. |
| Stopwatch.TimeAccrues | demo/internal/stopwatch/stopwatch.go:184-190 | On a clock that does not go back, the running time does not either. |
| Stopwatch.TimeIsExact | demo/internal/stopwatch/stopwatch.go:184-190 | Between two readings with no action in between the time moves by exactly their distance while running, and not at all while stopped. |
| Stopwatch.ActionsAreExact | demo/internal/stopwatch/stopwatch.go:101-148 | Start, Stop and Lap do not move the time at the moment they are taken and Reset makes it zero; which of them leave it running, and what each does to the laps. |
| Stopwatch.SplitsDescend | demo/internal/stopwatch/stopwatch.go:142-148 | Laps are listed from the largest to the smallest, all positive, none above the time shown. |

## Left out

- SimKernel.Kernel: surfaces are values in a sequence that is updated, where the source updates objects it refers to; no two of its surfaces are ever the same object.
- SimKernel.Kernel.Run: its four loops are methods of their own here.
- SimModel.DrawFate: rates and draws are real numbers, not floating-point ones; the seeded generator is the tape.
- SimDivergence.ReportsNothingIffRobust: it ranges over all draws; which runs stay possible when the delay rate is 1 or more, and draws are below 1 and so always delay, is not settled.
- SimKernel.Kernel.FrameNow: the seed, labels and surface kinds of a frame are left out.
- SimKernel.Kernel.Finish: the log and the wording of violations are left out.
- SimKernel.Record: seed, labels, surface kinds and the wording of the last frame's violation are left out.
- Invariants.SortedKeys: keys are the numerals in the source's labels and are ordered as numbers, not as strings.
- Invariants.CheckView: so the key that a failure names is the smallest as a number, not as a string.
- Simviz.Sim.RecordCompletion: the time of day, the named invariant with its detail and the durable sink are not part of an entry.
- Simviz.Sim: loading a saved history and the remaining one-field controls.
- Store.Store.SetIf: publishing is part of the operation, where the source publishes after it unlocks; the order in which changes then reach a page is the subject of `StoreClient.FreshPageToleratesReordering`.
- Store.Store.Delete: the same.
- StoreClient.Client.ApplyStore: every event carries a sequence number and a version, as the store's events do; the source also tolerates their absence.
- Sse.Writer.WriteSSE: encoding a value is a parameter that yields a text or nothing; response headers are not modelled.
- Sse.RoundTrip: one line of data, as the encoder writes it; characters rather than UTF-8 bytes; the id and retry fields are read as the standard says but never written.
- Broadcasting.ServeHydratesThenForwards: Serve is a state machine over its steps rather than a method, since other goroutines act between them; missing hydrate and each functions count as ones that do nothing.
- Broadcasting.NothingLostUnlessFull: with several publishers at a time the order of values is not the order of publication, and no such claim is made.
- Brokers.LateIslandsCatchUp: page events and the opening of event sources are not modelled.
- BrokerObjects.Broker.Send: the copy of the shared state in each message is left out.
- BrokerObjects.Broker.HandleEvent: changes of the shared state, and the swaps that islands ask for, are left out; the messages that ask for them are routed as in the source.
- BrokerObjects.Broker.Mount: mounts that fail, for want of a module or by an error, are left out; they change nothing here.
- Calendar.WeekdayIsDayCount: integers are unbounded, where the picker's language divides in 32 bits.
- Lattices.Model.Apply: coordinates are real numbers; the word of a command is one of the four known ones or unknown; locking is left out, each command being one step.
- Stopwatch.Clock.Snap: the events that are published are left out.
- Stopwatch.NoLostWakeup: shutting the loop down is left out.
- Sequence numbers, versions and steps are unbounded; the source's are 64-bit.
- HTTP handlers, cookies, rendering, page scripts beyond the cache and the broker, deployment and the command line are out of scope.
- Single sign-on, presence, localized properties and script tags are out of scope.
