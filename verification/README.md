# Clausters: models and proofs

Dafny models of the parts of the repository with the most state and the most
branching, and proofs about them. `dafny verify dfyconfig.toml` checks all of
it.

**The plugin voice and event machine** (`src/plugin.rs`) is the main part. One
instance owns a table of 256 held notes, 64 sustain pedals, a ring of 64 cut
notes whose note-off is still to come, three bounded event lists (the open
job's, `pending`, `deferred`), the spans and staged input of a block, and the
parameter values. `PluginModel` says what each entry point does to such a state,
as functions on values; `PluginSynth.Instance` does the same in place, on arrays
and fields, in the shape of the Rust methods, and every method is proved to have
the effect of its function. A `Step` is one call of the engine, a `Run` is any
sequence of them from a new instance, `Reachable` is what a run can reach, and
`PluginSynth.Instance.Play` proves that calling the methods is such a run. A
history (what was accepted, what was handed over, which notes were cut) rides
along for the statements; no entry point reads it.

**Smaller parts**: the two-thread handshake that quiets an instance
(`Quiescence`), the JavaScript scanner and the call-stream inliner of
`scripts/audit-example-pairs.py` (`JsScanner`, `JsGrammar`, `JsStrip`,
`Splice`), the OSC printer and parser of `examples/json_client.py` (`Osc`),
staged buffer loading in `src/embed.rs` (`StagedLoad` on values, `StagedHost`
on buffer objects), the line fit of `examples/clock_recorder.py`
(`LeastSquares`) and the def generator of `examples/stress.rs` (`StressGraph`).

## What the code does not do

Where the code and what is said about it part, the models follow the code, and
the exact condition is proved:

- *A release is never lost and goes out first in the next job*
  (`src/plugin.rs:501-504`): a release deferred because `pending` is full while
  no job is open overtakes the note-ons still pending, so a plugin can get a
  note-off before its note-on, with no failure. On runs stamped as the engine
  stamps them this is the only way: an event spills if and only if one is
  deferred with no job open and `pending` full (`PluginCursor.SpillsExactly`),
  and runs without that deliver in order (`PluginCursor.FifoDelivery`).
  `PluginOverflow.UnspilledExactly` gives the condition for one event,
  `PluginCursor.OverflowOvertakes` a run that breaks it.
- *The oldest matching attack is released* (`src/plugin.rs:624`): slots are
  reused, so it is the one in the lowest slot. `PluginNotes.EndsOldestExactly`
  gives the condition, `PluginFailures.YoungerEnds` a run where it fails.
- *A collision on a bus is never a fault* (`src/plugin.rs:990-994`): true of a
  note-on that joins nothing (`PluginBus.SharedNoteOn`); a joining one on
  another key faults exactly when it collides (`PluginBus.JoinFaultsExactly`),
  even with the note it joins (`PluginBus.JoinsItself`), as a reachable instance
  does (`PluginFailures.JoiningItselfFails`).
- *A cut note's late note-off ends nothing new* (`src/plugin.rs:579-580`): the
  ring forgets by position. What it waits for on every key is what was cut there
  less the offs taken, throughout a run, if and only if each stop of the run
  finds free slots ahead for what it cuts (`PluginDebts.BalanceExactly`); 64
  later cuts forget an off still to come, whether or not their own came
  (`PluginOrphans.ForgetsTheOldest`), and it ends a new note
  (`PluginFailures.ForgottenOff`). The ring also remembers notes whose note-off
  had come and only a pedal kept, so a later note on that key loses its own off
  exactly when such a note was cut there (`PluginDebts.OwnOffExactly`,
  `PluginFailures.PedalledCutTakesAnOff`).
- A pedal lifted on every channel (channel -1) of a port that takes only MIDI
  takes notes out of the table whose release cannot be spelled
  (`PluginFailures.LiftLosesARelease`). What every message and every bus event
  loses is exact (`PluginLosses.MidiEventLoses`, `PluginLosses.ReadBusLoses`): the
  released notes under that pedal, and nothing else ever.
- A value the plugin reports for a parameter under a bus map is not what `sent`
  then holds: it holds no number (`PluginParameters.SentMirrorsPlugin`).
- A velocity below 1/254 becomes a note-off on a port that takes only MIDI
  (`PluginSpelling.NoteOnReadsBack`).
- Pan is spelled from [0, 1] and read over [-1, 1], so a port that takes only
  MIDI does not pan as a native one does (`PluginSpelling.PanReadsBack`).
- An abort between `finish_block`'s test for a reservation and its store is
  overwritten and lost (`Quiescence.AbortHoldsExactly`, `Quiescence.LostAbort`).
- *A function nobody refers to is emitted at its definition*
  (`scripts/audit-example-pairs.py:404-405`): functions that only refer to one
  another are lost with all their calls (`Splice.IslandsAreLost`), so one that
  calls only itself is (`Splice.SelfCallIsLost`).
- A string or address with a zero byte does not survive the OSC round trip
  (`Osc.RoundTrip`).
- A staged load says all its frames were written where a whole load says none,
  and an install that finds the command queue full has already changed the pool
  (`StagedLoad.StagedRefinesWhole`, `StagedHost.Host.Install`).

## Model

| member | source | states |
|---|---|---|
| PluginRuns.VoiceLedger | src/plugin.rs:542-629 | in every reachable state that has not failed, the identities held are exactly those started and neither released nor ended by the plugin, but for the lost ones, each once; identities are 1..next_note, each started once and stopped at most once |
| PluginLosses.FullLedger | src/plugin.rs:542-629 | after any run without a pedal lifted on every channel of a MIDI-only port none is lost: the identities held are those started and never stopped |
| PluginLosses.MidiEventLoses | src/plugin.rs:661-708 | a raw MIDI message loses exactly the released notes under the pedal if it is such a lift, and nothing otherwise |
| PluginLosses.ReadBusLoses | src/plugin.rs:825-936 | so does any event read from a bus |
| PluginRuns.OneNotePerKey | src/plugin.rs:543-555 | in every reachable state two held notes share a port, channel and key only on a native port |
| PluginCursor.SpillsExactly | src/plugin.rs:494-516 | on every run whose events, stops and slices are at the block's frame, an event is deferred past a list that still has room, or past `pending`, if and only if a call made with no job open defers one while `pending` is full |
| PluginCursor.FifoDelivery | src/plugin.rs:494-516 | in every such run of a new instance that has not failed and never deferred with no job open, delivered + open job + deferred + pending is everything accepted, in order |
| PluginCursor.NoReleaseFirst | src/plugin.rs:1034-1048 | so every release delivered in such a run, and in any quiet tail after it, comes after the delivery of its note-on |
| PluginCursor.DoCursor | src/plugin.rs:1031-1147 | one call at the block's frame leaves the lists there, a job open if and only if the block has a slice, and spills nothing else |
| PluginCursor.OverflowOvertakes | src/plugin.rs:1037-1048 | a run that follows the cursor and does not fail overflows, and delivers a note-off before its note-on |
| PluginRuns.DoGood | src/plugin.rs:1031-1147 | every call of the engine keeps the ledger, the lists, the key table and the ring of cut notes consistent |
| PluginInvariants.CutInv | src/plugin.rs:615-621 | a held note that leaves the table with its release in its port's dialect keeps all invariants |
| PluginInvariants.AttackInv | src/plugin.rs:543-577 | starting a note, or refusing to, keeps all invariants |
| PluginInvariants.EmitWire | src/plugin.rs:494-516 | emitting keeps the lists valid and, unless it spills or fails, in order, and deferred events wait only behind a full job |
| PluginSteps.NoteLoopInv | src/plugin.rs:592-628 | a note-off, choke or expression keeps all invariants and touches neither job bookkeeping nor controls |
| PluginSteps.MidiEventInv | src/plugin.rs:630-754 | so does any raw MIDI message |
| PluginSteps.ReleaseInv | src/plugin.rs:756-780 | so does a release by lane, by transport or of everything, and every held note is on a port the plugin has |
| PluginSteps.ReadBusInv | src/plugin.rs:825-936 | so does any event read from a bus, joins and retriggers included |
| PluginSteps.PrepareInv | src/plugin.rs:1031-1147 | so does a slice: drain, refill, the plugin's reports, spans and bus events |
| PluginSteps.FinishInv | src/plugin.rs:1148-1165 | so does closing a block |
| PluginSteps.TranslateValid | src/plugin.rs:850-934 | whatever a bus event is spelled as has data bytes in range and is no note message |
| PluginNotes.NoteOffExactly | src/plugin.rs:535-629 | a note-off acts on the lowest slot whose note has its source and port, and its channel, key and identity where it names one, and still sounds, and on no other: marked under a pedal of its source, port and channel, else out of the table with its release |
| PluginNotes.StrayOff | src/plugin.rs:592-600 | a note-off that nothing answers changes nothing |
| PluginNotes.EachExactly | src/plugin.rs:592-623 | a choke ends every note of its source it addresses and no other, an expression none; each sends one event per note addressed, in slot order, under the note's own identity, channel and key |
| PluginNotes.OthersUntouched | src/plugin.rs:535-541 | whatever note event comes for one source, a note of another stays as it is and nothing is sent under its identity |
| PluginNotes.EndExactly | src/plugin.rs:1089-1110 | a note-end of the plugin removes exactly the notes of its identity, or without one those of the port, channel and key it names, sends nothing, reports their tokens in order, and fails exactly when the reports do not fit |
| PluginNotes.EndsOldestExactly | src/plugin.rs:624-627 | a note-off takes the oldest note it addresses if and only if no younger one is in a lower slot |
| PluginFailures.YoungerEnds | src/plugin.rs:624-627 | some reachable state where a client's bus note-off takes the younger |
| PluginOverflow.EmitExactly | src/plugin.rs:494-516 | an event accepted while all was in order leaves it in order if and only if everything it is put ahead of is the same event |
| PluginOverflow.UnspilledExactly | src/plugin.rs:494-516 | where nothing spilled, the start or release of a note keeps delivery in order if and only if a job is open or `pending` takes it |
| PluginOverflow.SpilledExactly | src/plugin.rs:494-516 | a start or release the open job takes keeps delivery in order if and only if nothing is deferred |
| PluginOverflow.OvertakenRelease | src/plugin.rs:1037-1048 | a run without failure that delivers a note-off before its note-on |
| PluginPedals.SustainedNotesAreCovered | src/plugin.rs:601-612 | in every reachable state each released note still held is covered by a stored pedal; stored pedals are down and unique for source, port and channel |
| PluginPedals.PedalEventExactly | src/plugin.rs:661-708 | a pedal message stores or drops exactly its own pedal, and lifting ends exactly the released notes it covers |
| PluginPedals.FullPedals | src/plugin.rs:662-674 | a pedal message with no slot free and none its own fails the instance for capacity and does nothing else |
| PluginPedals.ReleasePedals | src/plugin.rs:1269-1292 | releases by lane or transport keep that coverage |
| PluginDrain.StopDrains | src/plugin.rs:1269-1281 | a run of a stop in an open job, of any held notes on any ports, then the rest of its block and `n` silent blocks: the table is empty and nothing fails, each block hands over one list's worth of the releases in slot order after what the job held, and all have left if and only if `n` is at least ceil(waiting / EVENTS) |
| PluginStop.StopLoop | src/plugin.rs:756-780 | the current job takes the releases it has room for and the rest wait in order |
| PluginStop.DrainTakes | src/plugin.rs:1037-1044 | a new job takes as many deferred events as it holds, in order, and no more |
| PluginBus.SharedNoteOn | src/plugin.rs:859-875 | a bus note-on that joins nothing ends exactly what it collides with, then plays under the next identity or is dropped when the table is full; it never raises a protocol failure, and a capacity one only with `deferred` full or identities used up |
| PluginBus.AttackExactly | src/plugin.rs:543-577 | a note-on is a fault if a note of its source and port has its identity or, on a MIDI-only port, any has its channel and key; else it is in the first free slot under the next identity and sent under it |
| PluginBus.JoinsExactly | src/plugin.rs:943-987 | a joining note-on on the joined note's key renames it and sends nothing; on another key the new note starts and only then the old one ends |
| PluginBus.StandingFits | src/plugin.rs:990-1016 | what is ended first is the least that leaves nothing a note-on would be refused for |
| PluginBus.JoinFaultsExactly | src/plugin.rs:943-987 | a joining note-on faults if and only if its key differs and it collides with a held note |
| PluginBus.JoinsItself | src/plugin.rs:943-987 | a note that joins itself on another key always faults |
| PluginFailures.JoiningItselfFails | src/plugin.rs:943-987 | a reachable state where it does |
| PluginOrphans.SwallowsExactly | src/plugin.rs:579-591 | a key-named note-off is swallowed if and only if one of the last 64 cuts was on its key and had no off taken for it yet, even one that came before the cut; then the ring waits for one less there and nothing else changes |
| PluginOrphans.LateOffs | src/plugin.rs:579-591 | as many offs as the ring waits for on a key are swallowed, change no note and no list, and the next is applied |
| PluginOrphans.ReleaseRemembers | src/plugin.rs:764-768 | a release makes the ring wait on each key for one off for each key-named note it cuts there, while the ring has free slots ahead |
| PluginOrphans.ReleaseRecords | src/plugin.rs:764-768 | it cuts exactly the key-named notes of its scope, in slot order, whether their off had come or not |
| PluginDebts.DoPaid | src/plugin.rs:579-591 | every call but a stop takes from the ring, on every key, exactly the key-named offs it carries there as far as the ring waits for them, and adds nothing |
| PluginDebts.BalanceExactly | src/plugin.rs:756-780 | throughout a run, what the ring waits for on every key is what it waited for, plus the cuts there, less the offs taken, if and only if each stop finds free slots ahead for what it cuts |
| PluginDebts.LateOffsOverRuns | src/plugin.rs:579-591 | in any such run from a reachable state, with any number of stops, an off is swallowed if that balance is above 0 there, changing no note and no list, and the first after that is applied |
| PluginDebts.OwnOffExactly | src/plugin.rs:756-780 | once the late offs of a stop's cuts on a key have come, whatever else ran, a note held there is ended by its own off if and only if no note cut there had had its off |
| PluginFailures.ForgottenOff | src/plugin.rs:764-768 | a reachable state in which the only off still to come of 65 cut notes ends the note started on its key since |
| PluginFailures.PedalledCutTakesAnOff | src/plugin.rs:764-768 | a reachable state with a note held that no pedal sustains, whose own off leaves it held |
| PluginBlock.BlockTiles | src/plugin.rs:1111-1134 | for any division of a block into consecutive slices, starting anywhere, the spans tile it from frame 0 to the last slice's end |
| PluginBlock.WholeBlockIsValid | src/plugin.rs:1148-1156 | a block whose slices reach its end is handed over if and only if a slot is free |
| PluginOpening.OpensWith | src/plugin.rs:1034-1048 | a new job holds what was deferred and then what was pending, in order, up to 64 events |
| PluginOpening.HearsInOrder | src/plugin.rs:1135-1146 | a slice reads its buses once its span is there, input by input, each input's events in order |
| PluginOpening.QuietDoesNothing | src/plugin.rs:1030-1033 | a phase at or past 2 leaves the instance alone |
| PluginBlock.PreparedBlock | src/plugin.rs:1111-1134 | a slice adds its own span after what was there -- after one frozen span for the frames before it when it opens the job late -- with its frames, flags, clipped position and the tempo, unless it fails |
| PluginBlock.BlockInput | src/plugin.rs:1183-1202 | for every port, channel and frame, the staged input is the sample of bus `v + channel` for the port's control `v` on processed slices, silence where `v` is negative or there is no such bus, and zero on frozen frames and before the node was introduced |
| PluginLists.EmitGoes | src/plugin.rs:494-515 | an event goes to the open job, else to `pending`, if that holds at most 63 events, none later; else, if it ends a note or comes from a bus, behind at most 255 deferred ones at frame 0; else it fails the instance |
| PluginLists.DialectExactly | src/plugin.rs:516-534 | a note goes to a native port as it is, and to a MIDI one as status and channel, key, and velocity within 1/254 |
| PluginLists.NoDialect | src/plugin.rs:526-533 | a note of every channel comes out on a MIDI-only port as three bytes of 255, which is no note message |
| PluginLists.TilesExactly | crates/clausters-core/src/plugin_shm.rs:253-270 | the check of the spans passes exactly when each starts where the one before ended, from the first frame to the last, none empty |
| PluginLists.CloseExactly | src/plugin.rs:1148-1164 | closing hands the job over exactly when it is open, whole and a slot is free on a healthy instance; it fails otherwise, or when aborted, and changes nothing else |
| PluginParameters.SentMirrorsPlugin | src/plugin.rs:781-814 | in every run that has not failed, `sent` is for each parameter the last value sent to or reported by the plugin if and only if that was not a report under a bus map; after such a report it is no number, and the parameter is sent again |
| PluginParameters.LeavesRoom | src/plugin.rs:344-345 | parameters never take a list past three quarters of it |
| PluginControls.StartsExactly | src/plugin.rs:442-478 | a new instance holds, sends and has failed at nothing, plays at 120 and has its defaults, none on a bus |
| PluginControls.EditsExactly | src/plugin.rs:1223-1256 | setting a control gives it its value and takes it off its bus, mapping keeps its value, a parameter the plugin alone writes refuses both, and nothing else changes |
| PluginControls.ReportExactly | src/plugin.rs:1053-1088 | a report is a fault if no parameter has its number or its value is out of range; else it sets value and sent on no bus, makes sent no number on one, and goes on to the client |
| PluginControls.ReportsInOrder | src/plugin.rs:1050-1110 | reports are read in order up to the first that fails, and what is no control's report does nothing unless it ends notes |
| PluginControls.ProcessFollows | src/plugin.rs:1165-1182 | a processed slice gives mapped controls their readings and keeps the others |
| PluginControls.SendExactly | src/plugin.rs:781-814 | which parameters are sent, refused, deferred or a fault, and every field of what is sent |
| PluginDelivery.ParameterBlocksSend | src/plugin.rs:800-814 | a run of blocks without edits or other traffic, in any slices, processed or frozen, delivers the first `n` quotas of the stale parameters, in order, with their latest values, and nothing else, where `n` blocks have a processed slice |
| PluginDelivery.StaleDelivered | src/plugin.rs:1176-1178 | after such a run the plugin has every value that may be sent if and only if at least ceil(N / (EVENTS * 3/4)) blocks had a processed slice, for N stale parameters |
| PluginSpelling.BendAgrees | src/plugin.rs:889-892 | an in-range bend or tuning has two data bytes and reads back on a native port within 3/8192 |
| PluginSpelling.ContinuousAgrees | src/plugin.rs:881-925 | pressure, volume, brightness and expression read back as the same expression of the same key within 1/254 |
| PluginSpelling.PanReadsBack | src/plugin.rs:903-905 | a pan of v in [0, 1] reads back near 2v - 1, so it agrees with the native value as the others do only within 3/254 of 1 |
| PluginSpelling.NoteOnReadsBack | src/plugin.rs:517-534 | a note-on spelled as MIDI keeps channel, key and velocity within 1/254, and stays a note-on if and only if its velocity is at least 1/254 |
| PluginSpelling.ReadBackExactly | src/plugin.rs:717-740 | exactly the two pressures, the bend and controllers 7, 10, 11 and 74 are expressions on a native port, each with its number, key and value |
| PluginMessages.MessagesCarry | src/plugin.rs:851-934 | every message a bus event becomes has its channel in the low four status bits, its number in the first data byte and its value within 1/254 in the second; a bend is 14 bits within half a step |
| PluginMessages.TranslateExactly | src/plugin.rs:876-934 | which bus events have a spelling on which ports, and every field of those that are no message |
| PluginLists.BytesExactly | src/plugin.rs:631-635 | the bytes of a message are the three low ones of its number, lowest first |
| PluginMessages.RawNote | src/plugin.rs:630-660 | a raw note message is the note event of its channel, key and velocity, an off at velocity 0 |
| PluginMessages.SpelledNoteReads | src/plugin.rs:516-534 | a note-on spelled for a MIDI port and read as a raw message starts the same note with its velocity within 1/254, or is an off below 1/254 |
| PluginMessages.SilencesExactly | src/plugin.rs:709-715 | controllers 120 and 123 end every note of their source, port and channel, whatever its key, identity or pedal, and no other |
| PluginMessages.OthersPass | src/plugin.rs:716-752 | any other message goes on as it is where the port takes MIDI; else it is an expression of the notes it addresses, or a fault |
| PluginMessages.SustainExactly | src/plugin.rs:661-708 | a sustain message at 64 and over stores its channel's pedal, and below drops it and ends exactly the released notes under it |
| PluginMessages.SustainSends | src/plugin.rs:686-707 | it sends itself where the port takes MIDI, then the offs of what it ends, in slot order |
| PluginMessages.BusSustain | src/plugin.rs:908-923 | a bus's sustain is down from one half on, on its own channel, whatever the port's dialect |
| PluginMessages.BusSilence | src/plugin.rs:908-923 | a bus's silences end every note of their source on their port and channel |
| PluginMessages.PortsApart | src/plugin.rs:1257-1268 | an event for a note input touches and starts only notes on the plugin's port behind it; for an input the def does not have it is a fault |
| PluginScopes.GovernsExactly | crates/clausters-core/src/event_bus.rs:165-191 | for every 32-bit field, a stop of a lane is for the sources built with that lane, one of a transport for those built with that transport; a client or a MIDI input is in neither |
| PluginScopes.StopExactly | src/plugin.rs:1269-1292 | so a stop takes out exactly the notes and pedals of those writers |
| PluginScopes.StopSends | src/plugin.rs:754-780 | and sends one choke for each such note, in slot order, under its identity, port, channel and key |
| PluginLosses.MidiEventExactly | src/plugin.rs:687-706 | while nothing fails, a message makes the table miss more of what is alive if and only if it lifts a pedal of every channel on a MIDI-only port from some released note |
| PluginFailures.LiftLosesARelease | src/plugin.rs:687-706 | a reachable state where the lift drops a note, fails nothing and sends no release |
| PluginWire.SpellsPlainly | src/plugin.rs:526-533 | on a real channel and key the packed bytes are status and channel, key, and rounded velocity |
| PluginSynth.Instance.constructor | src/plugin.rs:442-478 | a new instance is the empty state on its defaults |
| PluginSynth.Instance.Place | src/plugin.rs:494-516 | the in-place lists and counters change as `Place` says |
| PluginSynth.Instance.NativeNote | src/plugin.rs:517-534 | refines `NativeNote` |
| PluginSynth.Instance.Attack | src/plugin.rs:543-577 | refines `Attack` |
| PluginSynth.Instance.NoteEvent | src/plugin.rs:542-591 | refines `NoteEvent`, orphan scan included |
| PluginSynth.Instance.ApplyToOwned | src/plugin.rs:592-629 | the scan over the note table refines `NoteLoop` |
| PluginSynth.Instance.PedalEvent | src/plugin.rs:661-708 | refines `PedalEvent` |
| PluginSynth.Instance.MidiEvent | src/plugin.rs:630-754 | refines `MidiEvent` |
| PluginSynth.Instance.ReleaseWhere | src/plugin.rs:756-780 | refines `ReleaseLoop` |
| PluginSynth.Instance.Join | src/plugin.rs:943-987 | refines `Join`, and says false when nothing is joined |
| PluginSynth.Instance.EndClashing | src/plugin.rs:990-1016 | refines `ClashLoop` |
| PluginSynth.Instance.ReadBusEvent | src/plugin.rs:831-936 | refines `ReadBusEvent` |
| PluginSynth.Instance.PluginEvent | src/plugin.rs:1257-1268 | refines `PluginEvent` |
| PluginSynth.Instance.Drain | src/plugin.rs:1037-1044 | pushing in place and then moving the rest to the front refines `Drain` |
| PluginSynth.Instance.Refill | src/plugin.rs:1045-1048 | emptying `pending` first and then emitting each event refines `Refill` |
| PluginSynth.Instance.Receive | src/plugin.rs:1050-1110 | refines `Receive` |
| PluginSynth.Instance.Prepare | src/plugin.rs:1031-1147 | refines `Prepare` |
| PluginSynth.Instance.SendParameter | src/plugin.rs:781-814 | refines `SendParameter` |
| PluginSynth.Instance.StageInput | src/plugin.rs:1180-1202 | the nested port and channel loops stage exactly `Stage` |
| PluginSynth.Instance.Process | src/plugin.rs:1166-1202 | refines `Process` |
| PluginSynth.Instance.Finish | src/plugin.rs:1148-1165 | refines `Finish` |
| PluginSynth.Instance.ReleaseNotes | src/plugin.rs:1269-1281 | a stop of a lane or of everything is that step of a run and keeps every invariant |
| PluginSynth.Instance.ReleaseTransportNotes | src/plugin.rs:1282-1292 | a stop of a transport is that step of a run and keeps every invariant |
| PluginSynth.Instance.Perform | src/plugin.rs:1018-1268 | every call of the engine does what its step does and keeps every invariant |
| PluginSynth.Instance.Play | src/plugin.rs:1018-1268 | a sequence of calls is a run |
| Quiescence.QuiescenceHolds | src/plugin.rs:259-283 | in every interleaving at most one reserve succeeds, a phase of 2 or more never drops below 2, and once 2 was observed no job is handed over |
| Quiescence.AtMostOneMore | src/plugin.rs:1031-1033 | after any store at or past 2 at most the job then open is still handed over |
| Quiescence.FailureIsFinal | crates/clausters-core/src/plugin_shm.rs:596-604 | a failed instance hands nothing over any more, whatever either thread does; until then a block closed with a job open hands over that one |
| Quiescence.AbortFails | src/plugin.rs:1160-1162 | an abort in force when a block closes fails the instance there |
| Quiescence.BoundaryReached | src/plugin.rs:1157-1159 | closing a block under a reservation makes the phase 2 |
| Quiescence.AbortHoldsExactly | src/plugin.rs:1157-1163 | an abort stays in force in every continuation if and only if it does not fall between the test and the store |
| Quiescence.LostAbort | src/plugin.rs:1157-1163 | an interleaving in which an abort is lost and the instance never fails |
| JsGrammar.StripAgrees | scripts/audit-example-pairs.py:464-578 | for every tree of code, braces, strings, comments, regular expressions with classes, divisions and template literals with holes nested to any depth, a slash being what the last code character makes it, stripping its printed text gives its mask |
| JsGrammar.StripAgreesToTheEnd | scripts/audit-example-pairs.py:464-548 | the same with a last line comment that no newline ends |
| JsGrammar.LoneSlash | scripts/audit-example-pairs.py:522-547 | a slash no other follows on its line is kept, wherever it stands |
| JsScanner.OffsetsKept | scripts/audit-example-pairs.py:464-548 | for every text the length and every newline stay and nothing is written but the fill |
| JsStrip.Run | scripts/audit-example-pairs.py:464-548 | the pass over a copy of the text, with its template stack, computes that mask |
| JsStrip.TemplateBody | scripts/audit-example-pairs.py:560-578 | from inside a template it writes the mask up to where the scan of literal text stops -- after the closing backtick, or at a hole, whose depth it pushes on the stack -- and touches nothing else |
| Splice.FlattenExactly | scripts/audit-example-pairs.py:435-447 | flattening ends and emits each call of the top level and of every function reached by references exactly once, no other call, and one body's calls in order |
| Splice.CallsComeOut | scripts/audit-example-pairs.py:395-447 | for every name, the calls that come out are as many as the input's calls of that name at the top level or in a function reached from it, and one body's stay in order |
| Splice.IslandsAreLost | scripts/audit-example-pairs.py:410-413 | functions only referred to from among themselves lose all their calls |
| Splice.SelfCallIsLost | scripts/audit-example-pairs.py:410-413 | events and one function that refers to itself whose call is given once and does not come out |
| Splice.UnreferencedIsSpliced | scripts/audit-example-pairs.py:407-413 | a function nobody refers to is reached whenever the body around its definition is |
| Splice.OwnerIsInnermost | scripts/audit-example-pairs.py:418-433 | by line and column, an event is at the top level if and only if it is in no function -- past its start and not past its end -- and else belongs to one around it that starts last |
| Splice.OwnerExactly | scripts/audit-example-pairs.py:422-429 | with distinct names and starts it belongs to a function if and only if that one is around it and none around it starts later |
| Splice.ReturnIsInside | scripts/audit-example-pairs.py:425-428 | a reference that ends where its function ends is inside it: for `return inner` the calls come out as h, use, g |
| Splice.CallsInPlace | scripts/audit-example-pairs.py:437-445 | the calls of every function that comes out do so at the first reference some body has to it: after that body's calls before it and before its calls after it |
| Splice.CallPlaced | scripts/audit-example-pairs.py:416-433 | each call stands in its owner's body as often as it was given, and in no other |
| Splice.MarkedExactly | scripts/audit-example-pairs.py:410-413 | besides the events there is a definition, at its start, for each function no reference names and for no other |
| Splice.SortedIs | scripts/audit-example-pairs.py:414 | the sort orders by position and kind and is a permutation |
| Splice.SortedOrders | scripts/audit-example-pairs.py:414 | by line, column and then definition, reference, call |
| Splice.SortedStable | scripts/audit-example-pairs.py:414 | events of one position and kind keep their order |
| Splice.Flatten | scripts/audit-example-pairs.py:437-447 | the recursive traversal with its growing set computes that flattening |
| Splice.Run | scripts/audit-example-pairs.py:395-447 | the whole inliner, sorting, placing and flattening: the names in body order, each as often as `CallsComeOut` says |
| Osc.RoundTrip | examples/json_client.py:76-142 | a message prints if and only if every argument is supported and fits, is then a whole number of words, and reads back unchanged if and only if no address or string holds a zero byte |
| Osc.ParsedNoZero | examples/json_client.py:107-142 | nothing read from any packet has a zero byte in an address or string |
| Osc.Print | examples/json_client.py:76-96 | the loop over tags and data prints that message, or the first argument's error |
| Osc.Decode | examples/json_client.py:112-142 | the loop over tags reads what `Parsed` says, errors included |
| Osc.MessageBytes | examples/json_client.py:76-93 | a message that prints is the address, the tags in order behind a comma and the data in order, each padded with zeros to whole words |
| Osc.ArgumentBytes | examples/json_client.py:78-92 | each argument's tag and bytes, most significant first |
| Osc.FirstError | examples/json_client.py:78-92 | the error is the first refused argument's: a type error for a boolean or another object, a range error else |
| Osc.LettersRead | examples/json_client.py:116-132 | what the letters i, h, f, d and t read, how far, and that too few bytes are an error |
| Osc.TextRead | examples/json_client.py:107-109 | a string ends at its first zero byte and what follows starts at the next word |
| Osc.BlobRead | examples/json_client.py:136-139 | a blob is as many bytes as its size says, or as are left, and what follows starts at the next word |
| Osc.BlobReadBack | examples/json_client.py:136-139 | a negative size counts from the end, as Python's bounds do, and can read the same bytes again |
| Osc.CommasStripped | examples/json_client.py:116 | every leading comma of the tags is dropped and nothing else |
| LeastSquares.FitIsBest | examples/clock_recorder.py:330-337 | no line has a smaller sum of squared residuals; with more than one x every other line has a larger one; with a single x the fit is the mean |
| LeastSquares.ResidualsApart | examples/clock_recorder.py:330-337 | any line's residual sum is the fit's plus how far apart the two lines are |
| StagedLoad.StagedRefinesWhole | src/embed.rs:495-546 | a staged load whose right chunks come in any order, interleaved with anything that does not end it, installs what a whole load does if and only if they cover every sample that is not zero |
| StagedLoad.DoKeeps | src/embed.rs:455-553 | every call keeps tickets distinct and new, leaves other loads alone, and changes the pool only at a whole load or an end |
| StagedLoad.TicketsNeverReused | src/embed.rs:506-508 | a ticket that has left flight never names anything again |
| StagedLoad.PoolChangesAtEnds | src/embed.rs:489-493 | begins, chunks and cancels never change the installed pool |
| StagedLoad.LoadExactly | src/embed.rs:455-476 | when a whole load is refused and what it installs, a full command queue being an error all the same |
| StagedLoad.BeginExactly | src/embed.rs:495-510 | a staged load needs a channel and is a new ticket for silence of its shape |
| StagedLoad.ChunkExactly | src/embed.rs:517-537 | a chunk for no load or past its end changes nothing; else exactly the samples it covers are its own |
| StagedLoad.EndExactly | src/embed.rs:541-548 | an end takes its load out of flight whatever comes of it, and installs it with all its frames written or loses it where the pool has no such place |
| StagedHost.Host.BufferLoad | src/embed.rs:455-476 | refines `LoadWhole` with a new buffer object |
| StagedHost.Host.BufferLoadBegin | src/embed.rs:495-510 | refines `Begin`; no two staged loads nor the pool share cells |
| StagedHost.Host.BufferLoadChunk | src/embed.rs:517-537 | writing cells in place refines `Chunk`: no other load and no installed buffer changes |
| StagedHost.Host.BufferLoadEnd | src/embed.rs:541-548 | handing the object to the pool refines `End` |
| StagedHost.Host.BufferLoadCancel | src/embed.rs:551-553 | refines `Cancel` |
| StagedHost.Host.Install | src/osc/server/async_pipes.rs:420-439 | installs in range, and says so when the command queue was full |
| StressGraph.StressDef | examples/stress.rs:106-136 | for every n >= 1 the list has 3n records, each input names an earlier one, only the last writes a bus, and what it is fed is amp times the sum over k < n of sine(freq * (1 + 0.03k)) |

## What the runs assume

- Client events are of the kinds and ranges `src/osc/translate/plugin.rs:89-196`
  sends: note, choke, expression and MIDI kinds, channel -1..15 and key -1..127
  (0.. for a note-on), MIDI data bytes up to 127, a raw MIDI note-on with a
  channel. The translator also turns raw MIDI notes into note events and gives a
  note without an identity a token below -1; the runs allow any identity, so the
  statements cover more, and the runs in `PluginFailures` use only bus events as a
  client writes them, under its source
  (`crates/clausters-core/src/event_bus.rs:165-185`).
- Bus events have a channel -1..15 and a key -1..127 (0.. for a note-on) and an
  id of at least -1; controllers and programs up to 127.
- A processed slice lies inside its block.
- The runs of `PluginCursor` also keep the engine's clock: events and stops
  carry the frame the block has reached (`src/server/engine.rs:1246-1258`,
  `2086`, `2110`, `2361`, `2489`, `2501`), a slice starts there and hears what
  was written at its first frame (`src/dsp/events.rs:73-90`), and every block
  has a slice before it is closed (`src/server/engine.rs:1413-1431`). A block
  quiet from its start begins a tail with no further job, because a phase of 2
  or more never drops (`Quiescence.QuiescenceHolds`); offsets may then go back
  from one block to the next while `pending` fills, and nothing of it is
  delivered. Every other statement allows any offsets.
- What the plugin reports, what a bus holds for a slice, whether a job slot is
  free, the administrative phase, bus samples and control readings are
  parameters of the steps, so every statement is for any of them.

## Left out

- Mixing the plugin's output onto the audio buses, silencing it on failure, and the contents of replies: they read the state and change none of it.
- Rounding of 32- and 64-bit floats: values are reals, and a parameter value may also be infinite or not a number; events that carry a value that is not finite are not modelled (they are refused before the queue, and `EventList::push` refuses them).
- Clause order of `Job::valid` beyond spans (sequence numbers, reserved words): a job of this model has none; tempo is taken to be finite.
- The fourth byte of a MIDI event's 32-bit id: nothing reads it.
- PluginParameters.SentMirrorsPlugin: asks that parameter ids be distinct, because reports name parameters by id and the code takes the first match.
- The bounded drain and the bounded delivery of parameters count blocks with no other traffic: new events of a bus or a client may fill jobs ahead of what waits.
- `PluginDef` probing, `live_depth`, `usage`, `restore_controls_from`, `editor`, `save`, `value_text`, the helper process and its shared memory: foreign code, I/O or plain copies; handing over a job is one step.
- The worker's 50-microsecond polling and its timeout in `wait_boundary`: observing phase 2 is one step that may come at any time.
- `Quiescence` keeps of the callback only what touches the phase and the job; the rest of the callback is in the runs, with the phase as a parameter.
- Whether `/` starts a regular expression is the scanner's guess from the last code character, so the grammar lets a regular expression follow exactly what the scanner takes one after, and a division anything else; regular expressions that span lines are not in it.
- The AST walkers, container heuristics and tables of the audit script; events and function extents are `Splice`'s input.
- `bundle` and the socket client of `examples/json_client.py`; text is bytes, so UTF-8 encoding and its errors are not modelled.
- `find_onsets` and the rest of the clock recorder: a threshold loop with no law of its own.
- The def's name, controls and JSON text in `examples/stress.rs`: records instead of text; zero sinusoids, which its command line refuses, are outside the contract.
- StagedHost.Host.Install: does not model `share_buffer`, the pool's second copy behind the engine's command queue, nor fed or shared storage, because another thread owns them; a buffer owns its cells.
- Ticket numbers do not wrap (64 bits), nor does `at + data.len()`.
