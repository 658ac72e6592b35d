/** Runs in which what is said of an instance does not come true, each from a new
    instance by blocks, stops and the notes and pedals a client writes for its
    first port. */
module PluginFailures {
  import opened Wrappers
  import opened PluginWire
  import opened PluginModel
  import opened PluginInvariants
  import opened PluginSteps
  import opened PluginRuns
  import opened PluginOverflow
  import opened PluginOrphans
  import opened PluginPedals
  import opened PluginNotes
  import opened PluginBus
  import opened PluginLosses

  // ---- runs one step at a time ----

  lemma ReachedMore(cfg: Config, s: Synth, step: Step)
    requires Reachable(cfg, s) && Good(cfg, s) && StepValid(cfg, step)
    ensures Good(cfg, Do(cfg, s, step)) && Reachable(cfg, Do(cfg, s, step))
  {
    hide Good, StepValid, Do, Run;
    var defaults, steps :| ReachedBy(cfg, s, defaults, steps);
    FreshGood(cfg, defaults);
    DoGood(cfg, s, step);
    RunOne(cfg, s, step);
    RunAppend(cfg, Fresh(cfg, defaults), steps, [step]);
    ReachedIs(cfg, Do(cfg, s, step), defaults, steps + [step]);
  }

  lemma RunOne(cfg: Config, s: Synth, step: Step)
    requires Good(cfg, s) && StepValid(cfg, step)
    ensures forall i :: 0 <= i < 1 ==> StepValid(cfg, [step][i])
    ensures Run(cfg, s, [step]) == Do(cfg, s, step)
  {
    hide Good, StepValid, Do;
    DoGood(cfg, s, step);
    assert [step][1..] == [];
  }

  lemma FreshReached(cfg: Config, defaults: seq<Float>)
    requires cfg.Valid() && |defaults| == cfg.Controls()
    ensures Reachable(cfg, Fresh(cfg, defaults)) && Good(cfg, Fresh(cfg, defaults))
  {
    hide Good, StepValid, Do;
    FreshGood(cfg, defaults);
    ReachedIs(cfg, Fresh(cfg, defaults), defaults, []);
  }

  // ---- what a client writes ----

  /** The source of a client's bus events: bit 97 and its number, here 0. */
  const WRITER: nat := 0x2_0000_0000_0000_0000_0000_0000

  /** A key pressed on the first channel, under an identity or, with -1, under none. */
  function Press(id: int, key: int): BusEvent { BusEvent(WRITER, 0, BusNoteOn, 0, key, id, -1, 0, 0.5) }

  function Let(id: int, key: int): BusEvent { BusEvent(WRITER, 0, BusNoteOff, 0, key, id, -1, 0, 0.0) }

  /** The sustain pedal of a channel, or with -1 of every channel. */
  function Sustain(channel: int, value: real): BusEvent {
    BusEvent(WRITER, 0, BusController, channel, -1, -1, -1, 64, value)
  }

  function OffEvent(id: int, key: int): Event { NoteOffOf(id).(channel := 0, key := key) }

  function PedalDown(channel: int): Event { Event(0, Midi, Message(0xb0, 64, 127), -1, 0, channel, -1, 0.0) }

  function PedalUp(channel: int): Event { PedalDown(channel).(id := Message(0xb0, 64, 0)) }

  /** What they become for the instance, with the releases they cause spread out. */
  function Spread(cfg: Config, s: Synth, e: Event): Synth
    requires cfg.Valid()
  {
    PluginEvent(cfg, s.(spreading := true), WRITER, e).(spreading := false)
  }

  /** The first port plays notes, as they are or spelled as MIDI. */
  ghost predicate FirstPortPlays(cfg: Config) {
    cfg.Valid() && |cfg.notePorts| > 0 && cfg.dialects[cfg.notePorts[0]].midi
  }

  lemma {:induction false} NothingRetriggers(cfg: Config, s: Synth, port: nat, e: BusEvent, i: nat)
    requires cfg.HasPort(port)
    requires forall k :: i <= k < HELD_NOTES && s.notes[k].Some? ==> !Retriggers(cfg, s.notes[k].value, port, e)
    ensures ClashLoop(cfg, s, port, e, i) == s
    decreases HELD_NOTES - i
  {
    if i < HELD_NOTES { NothingRetriggers(cfg, s, port, e, i + 1); }
  }

  /** A key pressed with a slot free, nothing in its way. */
  lemma Pressed(cfg: Config, s: Synth, id: int, key: int)
    requires FirstPortPlays(cfg) && FirstFree(s.notes, 0) < HELD_NOTES
    requires forall k :: 0 <= k < HELD_NOTES && s.notes[k].Some? ==>
               !Retriggers(cfg, s.notes[k].value, cfg.notePorts[0], Press(id, key))
    ensures ReadBus(cfg, s, 0, Press(id, key)) == Spread(cfg, s, NoteOnOf(id, key))
  {
    hide PluginEvent, FirstFree, Retriggers;
    NothingRetriggers(cfg, s.(spreading := true), cfg.notePorts[0], Press(id, key), 0);
  }

  lemma Released(cfg: Config, s: Synth, id: int, key: int)
    requires FirstPortPlays(cfg)
    ensures ReadBus(cfg, s, 0, Let(id, key)) == Spread(cfg, s, OffEvent(id, key))
  {
    hide PluginEvent;
  }

  lemma Pedalled(cfg: Config, s: Synth, channel: int)
    requires FirstPortPlays(cfg) && -1 <= channel <= 0
    ensures ReadBus(cfg, s, 0, Sustain(channel, 1.0)) == Spread(cfg, s, PedalDown(channel))
    ensures ReadBus(cfg, s, 0, Sustain(channel, 0.0)) == Spread(cfg, s, PedalUp(channel))
  {
    hide PluginEvent;
    assert Data7(1.0) == 127 && Data7(0.0) == 0;
  }

  lemma Writes(cfg: Config, id: int, key: int)
    requires cfg.Valid() && -1 <= id && 0 <= key <= 127
    ensures StepValid(cfg, Addressed(Press(id, key))) && StepValid(cfg, Addressed(Let(id, key)))
    ensures StepValid(cfg, Addressed(Sustain(0, 1.0))) && StepValid(cfg, Addressed(Sustain(-1, 1.0)))
    ensures StepValid(cfg, Stop(Everything, 0)) && StepValid(cfg, RunSlice(WHOLE_BLOCK, false, None))
    ensures StepValid(cfg, Close(true, false))
  {
    assert Data7(1.0) == 127;
  }

  /** A key pressed on a closed instance with nothing in its way starts a note in
      the first free slot. */
  lemma StartsIn(cfg: Config, s: Synth, id: int, key: int, slot: nat)
    requires FirstPortTakesBoth(cfg) && !s.open && !s.spreading && |s.pending| < EVENTS && -1 <= id && 0 <= key <= 127
    requires forall i :: 0 <= i < |s.pending| ==> s.pending[i].offset == 0
    requires forall i :: 0 <= i < HELD_NOTES && s.notes[i].Some? ==> id == -1 || s.notes[i].value.id != id
    requires slot < HELD_NOTES && s.notes[slot].None? && forall i :: 0 <= i < slot ==> s.notes[i].Some?
    requires 0 <= s.nextNote < 1000
    ensures var np, next := cfg.notePorts[0], s.nextNote + 1;
            ReadBus(cfg, s, 0, Press(id, key)) ==
            Push(s.(notes := s.notes[slot := Some(HeldNote(WRITER, id, next, np, 0, key, false))], nextNote := next),
                 NoteOnOf(id, key).(port := np, noteId := next))
  {
    hide ReadBus;
    assert FirstFree(s.notes, 0) == slot;
    Pressed(cfg, s, id, key);
  }

  /** An off of a closed instance with no pedal and nothing waited for ends the note
      in the first slot it addresses. */
  lemma EndsIn(cfg: Config, s: Synth, id: int, key: int, slot: nat)
    requires FirstPortTakesBoth(cfg) && !s.open && !s.spreading && |s.pending| < EVENTS
    requires forall i :: 0 <= i < |s.pending| ==> s.pending[i].offset == 0
    requires (forall j :: 0 <= j < ORPHANS ==> s.orphans[j].None?) && s.pedals == seq(PEDALS, _ => None)
    requires var off := OffEvent(id, key).(port := cfg.notePorts[0]);
             && slot < HELD_NOTES && Takes(s.notes[slot], WRITER, off)
             && (forall j :: 0 <= j < slot ==> !Takes(s.notes[j], WRITER, off))
             && Valid(ToOwned(off, s.notes[slot].value))
    ensures var own := ToOwned(OffEvent(id, key).(port := cfg.notePorts[0]), s.notes[slot].value);
            ReadBus(cfg, s, 0, Let(id, key)) == Push(s.(notes := s.notes[slot := None]), own)
  {
    hide Takes, Valid, NoteLoop, ReadBus;
    Released(cfg, s, id, key);
    OffLoop(cfg, s.(spreading := true), WRITER, OffEvent(id, key).(port := cfg.notePorts[0]), 0, slot);
  }

  // ---- a note-off that ends the younger note ----

  lemma TwoStart(cfg: Config, defaults: seq<Float>) returns (s: Synth)
    requires FirstPortTakesBoth(cfg) && |defaults| == cfg.Controls()
    ensures Reachable(cfg, s) && Good(cfg, s) && Healthy(s) && !s.open && !s.spreading
    ensures |s.pending| == 2 && s.pending[0].offset == s.pending[1].offset == 0 && s.nextNote == 2
    ensures s.notes == seq(HELD_NOTES, _ => None)[0 := Some(HeldNote(WRITER, 1, 1, cfg.notePorts[0], 0, 60, false))]
                                                 [1 := Some(HeldNote(WRITER, -1, 2, cfg.notePorts[0], 0, 61, false))]
    ensures (forall j :: 0 <= j < ORPHANS ==> s.orphans[j].None?) && s.pedals == seq(PEDALS, _ => None)
  {
    hide Good, StepValid, Reachable, ReadBus, Run;
    var s0 := Fresh(cfg, defaults);
    FreshReached(cfg, defaults);
    Writes(cfg, 1, 60);
    Writes(cfg, -1, 61);
    StartsIn(cfg, s0, 1, 60, 0);
    ReachedMore(cfg, s0, Addressed(Press(1, 60)));
    var s1 := Do(cfg, s0, Addressed(Press(1, 60)));
    StartsIn(cfg, s1, -1, 61, 1);
    ReachedMore(cfg, s1, Addressed(Press(-1, 61)));
    s := Do(cfg, s1, Addressed(Press(-1, 61)));
  }

  /** The first ends, and another starts on the second's key: it takes the lower slot. */
  lemma Reused(cfg: Config, defaults: seq<Float>) returns (s: Synth)
    requires FirstPortTakesBoth(cfg) && |defaults| == cfg.Controls()
    ensures Reachable(cfg, s) && Good(cfg, s) && Healthy(s) && !s.open && !s.spreading
    ensures |s.pending| == 4 && forall i :: 0 <= i < 4 ==> s.pending[i].offset == 0
    ensures (forall j :: 0 <= j < ORPHANS ==> s.orphans[j].None?) && s.pedals == seq(PEDALS, _ => None)
    ensures s.notes == seq(HELD_NOTES, _ => None)[0 := Some(HeldNote(WRITER, -1, 3, cfg.notePorts[0], 0, 61, false))]
                                                 [1 := Some(HeldNote(WRITER, -1, 2, cfg.notePorts[0], 0, 61, false))]
  {
    hide Good, StepValid, Reachable, ReadBus, Run;
    var s0 := TwoStart(cfg, defaults);
    Writes(cfg, 1, 60);
    Writes(cfg, -1, 61);
    EndsIn(cfg, s0, 1, 60, 0);
    ReachedMore(cfg, s0, Addressed(Let(1, 60)));
    var s1 := Do(cfg, s0, Addressed(Let(1, 60)));
    StartsIn(cfg, s1, -1, 61, 0);
    ReachedMore(cfg, s1, Addressed(Press(-1, 61)));
    s := Do(cfg, s1, Addressed(Press(-1, 61)));
  }

  /** The held notes an off without identity addresses that still sound. */
  predicate Hears(cfg: Config, note: Option<HeldNote>, key: int)
    requires |cfg.notePorts| > 0
  {
    Takes(note, WRITER, OffEvent(-1, key).(port := cfg.notePorts[0]))
  }

  /** Slots are reused, so a note-off does not always end the oldest note it
      addresses: some run holds two notes on one key, and that key's note-off ends
      the younger. */
  lemma YoungerEnds(cfg: Config, defaults: seq<Float>) returns (s: Synth)
    requires FirstPortTakesBoth(cfg) && |defaults| == cfg.Controls()
    ensures Reachable(cfg, s) && Good(cfg, s) && Healthy(s) && StepValid(cfg, Addressed(Let(-1, 61)))
    ensures Hears(cfg, s.notes[0], 61) && Hears(cfg, s.notes[1], 61)
    ensures s.notes[1].value.native < s.notes[0].value.native
    ensures Do(cfg, s, Addressed(Let(-1, 61))).notes == s.notes[0 := None]
  {
    hide Good, Reachable, Run, ReadBus;
    s := Reused(cfg, defaults);
    Writes(cfg, -1, 61);
    EndsIn(cfg, s, -1, 61, 0);
  }

  // ---- a note that joins itself ----

  /** A held note told to continue itself on another key. */
  function JoinItself(key: int): BusEvent { Press(1, key).(joins := 1) }

  /** It fails the instance. */
  lemma JoiningItselfFails(cfg: Config, defaults: seq<Float>) returns (s: Synth)
    requires FirstPortTakesBoth(cfg) && |defaults| == cfg.Controls()
    ensures Reachable(cfg, s) && Good(cfg, s) && Healthy(s) && StepValid(cfg, Addressed(JoinItself(61)))
    ensures Do(cfg, s, Addressed(JoinItself(61))).failure == Protocol
  {
    hide Good, Reachable, Run, ReadBus;
    var s0 := Fresh(cfg, defaults);
    FreshReached(cfg, defaults);
    Writes(cfg, 1, 60);
    StartsIn(cfg, s0, 1, 60, 0);
    ReachedMore(cfg, s0, Addressed(Press(1, 60)));
    s := Do(cfg, s0, Addressed(Press(1, 60)));
    JoinsHere(cfg, s);
  }

  lemma JoinsHere(cfg: Config, s: Synth)
    requires FirstPortTakesBoth(cfg) && Good(cfg, s) && Healthy(s)
    requires s.notes[0] == Some(HeldNote(WRITER, 1, 1, cfg.notePorts[0], 0, 60, false))
    ensures ReadBus(cfg, s, 0, JoinItself(61)).failure == Protocol
  {
    hide Inv, ReadBus;
    JoinsItself(cfg, s, 0, JoinItself(61));
  }

  // ---- a note a pedal kept, cut by a stop ----

  /** A closed instance with nothing in its tables but one note. */
  ghost predicate HoldsOne(cfg: Config, s: Synth, note: HeldNote) {
    && !s.open && !s.spreading && Healthy(s) && |s.pending| < 10
    && (forall i :: 0 <= i < |s.pending| ==> s.pending[i].offset == 0)
    && s.notes == seq(HELD_NOTES, _ => None)[0 := Some(note)]
    && 0 <= s.nextNote < 10
  }

  /** A sustain pedal pressed on a channel, or on every channel. */
  lemma Presses(cfg: Config, s: Synth, channel: int)
    requires FirstPortPlays(cfg) && -1 <= channel <= 0 && !s.spreading
    requires !s.open && |s.pending| < EVENTS && forall i :: 0 <= i < |s.pending| ==> s.pending[i].offset == 0
    requires s.pedals == seq(PEDALS, _ => None)
    ensures var np := cfg.notePorts[0];
            ReadBus(cfg, s, 0, Sustain(channel, 1.0)) ==
            Push(s.(pedals := s.pedals[0 := Some(Pedal(WRITER, np, channel, true))]), PedalDown(channel).(port := np))
  {
    hide ReadBus, NoteEvent, LiftLoop, IsRelease, PedalSlot, AsExpression;
    Pedalled(cfg, s, channel);
    NoPedalYet(s.pedals, cfg.notePorts[0], channel, 0);
  }

  lemma {:induction false} NoPedalYet(pedals: PedalTable, port: nat, channel: int, i: nat)
    requires pedals == seq(PEDALS, _ => None) && i <= PEDALS
    ensures PedalSlot(pedals, WRITER, port, channel, i) == 0
    decreases PEDALS - i
  {
    if i < PEDALS { NoPedalYet(pedals, port, channel, i + 1); }
  }

  lemma HeldByFirst(pedals: PedalTable, note: HeldNote, channel: int)
    requires pedals[0] == Some(Pedal(note.source, note.port, channel, true)) && (channel == -1 || channel == note.channel)
    ensures HeldDown(pedals, note)
  {
    assert pedals[0].Some?;
  }

  /** Its note-off finds the note under the pedal: it is only marked. */
  lemma Withheld(cfg: Config, s: Synth, note: HeldNote, pedal: Pedal)
    requires FirstPortPlays(cfg) && HoldsOne(cfg, s, note) && s.orphans == seq(ORPHANS, _ => None)
    requires Hears(cfg, Some(note), 60) && s.pedals[0] == Some(pedal)
    requires pedal == Pedal(note.source, note.port, pedal.channel, true) && -1 <= pedal.channel <= 0 == note.channel
    ensures ReadBus(cfg, s, 0, Let(-1, 60)) == s.(notes := s.notes[0 := Some(note.(released := true))])
  {
    hide Takes, NoteLoop, HeldDown, ReadBus;
    Released(cfg, s, -1, 60);
    OffLoop(cfg, s.(spreading := true), WRITER, OffEvent(-1, 60).(port := cfg.notePorts[0]), 0, 0);
    HeldByFirst(s.pedals, note, pedal.channel);
  }

  lemma {:induction false} NothingToRelease(cfg: Config, s: Synth, scope: Scope, offset: nat, i: nat)
    requires PortsKnown(cfg, s.notes) && s.nextOrphan < ORPHANS && forall k :: i <= k < HELD_NOTES ==> s.notes[k].None?
    ensures ReleaseLoop(cfg, s, scope, offset, i) == s
    decreases HELD_NOTES - i
  {
    if i < HELD_NOTES { NothingToRelease(cfg, s, scope, offset, i + 1); }
  }

  /** A stop cuts the one note, and remembers its key. */
  lemma CutsOne(cfg: Config, s: Synth, note: HeldNote)
    requires HoldsOne(cfg, s, note) && cfg.HasPort(note.port) && cfg.Native(note.port) && note.id == -1
    requires -1 <= note.channel <= 15 && -1 <= note.key <= 127 && note.native >= 0 && s.nextOrphan < ORPHANS
    ensures PortsKnown(cfg, s.notes)
    ensures var s1 := RecordCut(s, AddressOf(note), note.released);
            Release(cfg, s, Everything, 0) ==
            Push(s1.(notes := s1.notes[0 := None], pedals := DropPedals(s.pedals, Everything)), ChokeOf(note, 0))
  {
    hide IsRelease, InDialect;
    Spoken(cfg, ChokeOf(note, 0));
    assert PortsKnown(cfg, s.notes);
    var s1 := ChokeSlot(cfg, s, 0, 0);
    NothingToRelease(cfg, s1, Everything, 0, 1);
  }

  lemma Spoken(cfg: Config, e: Event)
    requires cfg.HasPort(e.port) && cfg.Native(e.port)
    ensures InDialect(cfg, e) == e
  {
  }

  lemma NoPedalsLeft(pedals: PedalTable)
    ensures DropPedals(pedals, Everything) == seq(PEDALS, _ => None)
  {
  }

  function NoteOf(cfg: Config, key: int, native: int): HeldNote
    requires |cfg.notePorts| > 0
  {
    HeldNote(WRITER, -1, native, cfg.notePorts[0], 0, key, false)
  }

  /** The address the ring keeps for a note on a key. */
  function KeyOf(cfg: Config, key: int): Orphan
    requires |cfg.notePorts| > 0
  {
    Orphan(WRITER, cfg.notePorts[0], 0, key)
  }

  /** A note goes down, the pedal, the note's off, a stop, and a new note on the
      same key. */
  lemma PedalledThenStopped(cfg: Config, defaults: seq<Float>) returns (s: Synth)
    requires FirstPortTakesBoth(cfg) && |defaults| == cfg.Controls()
    ensures Reachable(cfg, s) && Good(cfg, s) && Healthy(s)
    ensures s.notes == seq(HELD_NOTES, _ => None)[0 := Some(NoteOf(cfg, 60, 2))]
    ensures s.pedals == seq(PEDALS, _ => None)
    ensures s.orphans == seq(ORPHANS, _ => None)[0 := Some(KeyOf(cfg, 60))]
    ensures s.history.cuts == [Owed(KeyOf(cfg, 60), true, true)]
  {
    hide Good, StepValid, ReadBus, Reachable, Run, Release, Takes, NoteLoop;
    var np, note := cfg.notePorts[0], NoteOf(cfg, 60, 1);
    Writes(cfg, -1, 60);
    var on, down, off, stop := Addressed(Press(-1, 60)), Addressed(Sustain(0, 1.0)), Addressed(Let(-1, 60)), Stop(Everything, 0);
    var s0 := Fresh(cfg, defaults);
    FreshReached(cfg, defaults);
    StartsIn(cfg, s0, -1, 60, 0);
    ReachedMore(cfg, s0, on);
    var s1 := Do(cfg, s0, on);
    Presses(cfg, s1, 0);
    ReachedMore(cfg, s1, down);
    var s2 := Do(cfg, s1, down);
    HearsIts(cfg, 1);
    Withheld(cfg, s2, note, Pedal(WRITER, np, 0, true));
    ReachedMore(cfg, s2, off);
    var s3 := Do(cfg, s2, off);
    CutsOne(cfg, s3, note.(released := true));
    NoPedalsLeft(s3.pedals);
    ReachedMore(cfg, s3, stop);
    var s4 := Do(cfg, s3, stop);
    StartsIn(cfg, s4, -1, 60, 0);
    ReachedMore(cfg, s4, on);
    s := Do(cfg, s4, on);
  }

  lemma HearsIts(cfg: Config, native: int)
    requires cfg.Valid() && |cfg.notePorts| > 0
    ensures Hears(cfg, Some(NoteOf(cfg, 60, native)), 60)
  {
  }

  /** A stop remembers a note whose off had come and only a pedal kept: the next
      note on its key is held, and does not hear its own off. */
  lemma PedalledCutTakesAnOff(cfg: Config, defaults: seq<Float>) returns (s: Synth)
    requires FirstPortTakesBoth(cfg) && |defaults| == cfg.Controls()
    ensures Reachable(cfg, s) && Good(cfg, s) && Healthy(s) && StepValid(cfg, Addressed(Let(-1, 60)))
    ensures Hears(cfg, s.notes[0], 60) && !HeldDown(s.pedals, s.notes[0].value)
    ensures Do(cfg, s, Addressed(Let(-1, 60))).notes == s.notes
  {
    hide Good, Reachable, Run, NoteLoop, ReadBus;
    s := PedalledThenStopped(cfg, defaults);
    Writes(cfg, -1, 60);
    Released(cfg, s, -1, 60);
    assert OwesOff(s.orphans[0], WRITER, OffEvent(-1, 60).(port := cfg.notePorts[0]));
  }

  // ---- a pedal of every channel on a MIDI port ----

  ghost predicate FirstPortTakesMidi(cfg: Config) {
    cfg.Valid() && |cfg.notePorts| > 0 && cfg.dialects[cfg.notePorts[0]] == Dialect(false, true)
  }

  /** A note-on of a closed instance that holds nothing, spelled as MIDI. */
  lemma StartsSpelled(cfg: Config, s: Synth)
    requires FirstPortTakesMidi(cfg) && !s.open && !s.spreading && s.pending == [] && s.nextNote == 0
    requires s.notes == seq(HELD_NOTES, _ => None)
    ensures ReadBus(cfg, s, 0, Press(-1, 60)) ==
            Push(s.(notes := s.notes[0 := Some(NoteOf(cfg, 60, 1))], nextNote := 1),
                 InDialect(cfg, NoteOnOf(-1, 60).(port := cfg.notePorts[0], noteId := 1)))
  {
    hide Spell, ReadBus;
    assert FirstFree(s.notes, 0) == 0;
    Pressed(cfg, s, -1, 60);
  }

  /** A note event of a closed instance with room waits, in its port's dialect. */
  lemma KeptWaiting(cfg: Config, s: Synth, e: Event)
    requires cfg.HasPort(e.port) && !s.open && |s.pending| < 20 && Valid(e) && e.offset == 0
    requires forall i :: 0 <= i < |s.pending| ==> s.pending[i].offset == 0
    ensures NativeNote(cfg, s, e) == Push(s, InDialect(cfg, e))
  {
    hide Spell, IsRelease;
  }

  /** Lifting it takes the one released note out of the table with an event no
      reader takes for its release. */
  lemma LiftsOne(cfg: Config, s: Synth, note: HeldNote)
    requires FirstPortTakesMidi(cfg) && !s.open && Healthy(s) && |s.pending| < 10
    requires forall i :: 0 <= i < |s.pending| ==> s.pending[i].offset == 0
    requires s.notes == seq(HELD_NOTES, _ => None)[0 := Some(note)]
    requires note.source == WRITER && note.port == cfg.notePorts[0] && note.released && note.native >= 0 && -1 <= note.key <= 127
    requires s.pedals == seq(PEDALS, _ => None)[0 := Some(Pedal(WRITER, cfg.notePorts[0], -1, true))]
    ensures var up := PedalUp(-1).(port := cfg.notePorts[0]);
            PedalRoom(s.pedals, WRITER, up.port, -1) && Healthy(MidiEvent(cfg, s, WRITER, up))
  {
    hide InDialect, NativeNote, IsRelease, NoteEvent, AsExpression;
    var up := PedalUp(-1).(port := cfg.notePorts[0]);
    assert SamePedal(s.pedals[0], WRITER, up.port, -1);
    assert s.pedals[0].Some?;
    var s1 := Push(s.(pedals := s.pedals[0 := None]), up);
    var off := MidiAddress(up).(kind := NoteOff, noteId := note.native, key := note.key, value := 0.0);
    var s2 := NativeNote(cfg, LiftOut(cfg, s1, MidiAddress(up), 0), off);
    KeptWaiting(cfg, LiftOut(cfg, s1, MidiAddress(up), 0), off);
    NothingToLift(cfg, s2, WRITER, MidiAddress(up), 1);
  }

  lemma {:induction false} NothingToLift(cfg: Config, s: Synth, source: nat, address: Event, i: nat)
    requires cfg.HasPort(address.port) && forall k :: i <= k < HELD_NOTES ==> s.notes[k].None?
    ensures LiftLoop(cfg, s, source, address, i) == s
    decreases HELD_NOTES - i
  {
    if i < HELD_NOTES { NothingToLift(cfg, s, source, address, i + 1); }
  }

  /** A note, a pedal on every channel, the note's off, and the pedal up: the note
      leaves the table, nothing fails, and no release of it was sent. */
  lemma LiftLosesARelease(cfg: Config, defaults: seq<Float>) returns (s: Synth)
    requires FirstPortTakesMidi(cfg) && |defaults| == cfg.Controls()
    ensures Reachable(cfg, s) && Healthy(s) && BusValid(Sustain(-1, 0.0))
    ensures var s' := ReadBus(cfg, s, 0, Sustain(-1, 0.0));
            Healthy(s') && Natives(s'.notes) != Alive(s'.history.trace)
  {
    hide Good, StepValid, ReadBus, Reachable, Run, Takes, NoteLoop, InDialect;
    var np, note := cfg.notePorts[0], NoteOf(cfg, 60, 1);
    Writes(cfg, -1, 60);
    var on, down, off := Addressed(Press(-1, 60)), Addressed(Sustain(-1, 1.0)), Addressed(Let(-1, 60));
    var s0 := Fresh(cfg, defaults);
    FreshReached(cfg, defaults);
    StartsSpelled(cfg, s0);
    ReachedMore(cfg, s0, on);
    var s1 := Do(cfg, s0, on);
    SpelledFrame(cfg, NoteOnOf(-1, 60).(port := np, noteId := 1));
    Presses(cfg, s1, -1);
    ReachedMore(cfg, s1, down);
    var s2 := Do(cfg, s1, down);
    HearsIts(cfg, 1);
    Withheld(cfg, s2, note, Pedal(WRITER, np, -1, true));
    ReachedMore(cfg, s2, off);
    s := Do(cfg, s2, off);
    LostHere(cfg, s, note.(released := true));
  }

  lemma LostAlive(s: Synth, n: int)
    requires Ledger(s.history.trace, s.nextNote, s.notes, s.history.lost) && n in s.history.lost
    ensures Natives(s.notes) != Alive(s.history.trace)
  {
  }

  lemma LostHere(cfg: Config, s: Synth, note: HeldNote)
    requires FirstPortTakesMidi(cfg) && Good(cfg, s) && HoldsOne(cfg, s, note)
    requires note == NoteOf(cfg, 60, 1).(released := true)
    requires s.pedals == seq(PEDALS, _ => None)[0 := Some(Pedal(WRITER, cfg.notePorts[0], -1, true))]
    ensures var s' := ReadBus(cfg, s, 0, Sustain(-1, 0.0));
            Healthy(s') && Natives(s'.notes) != Alive(s'.history.trace)
  {
    hide MidiEvent, Wire, Table, Ledger, Ring, ReadBus;
    Pedalled(cfg, s, -1);
    var s1 := s.(spreading := true);
    WireSame(s, s1);
    var up := PedalUp(-1).(port := cfg.notePorts[0]);
    LiftsOne(cfg, s1, note);
    MidiEventLoses(cfg, s1, WRITER, up);
    MidiEventInv(cfg, s1, WRITER, up);
    assert note.native in Under(s1.notes, WRITER, up.port, -1, 0) by {
      assert UnderPedal(s1.notes[0].value, WRITER, up.port, -1);
    }
    LostAlive(MidiEvent(cfg, s1, WRITER, up), note.native);
  }

  // ---- an off the ring forgets ----

  /** Between blocks, with nothing held, pressed or waiting to be sent. */
  ghost predicate Between(s: Synth) {
    && !s.open && !s.spreading && Healthy(s) && s.pending == [] && s.deferred == [] && s.tempo == 120.0
    && s.notes == seq(HELD_NOTES, _ => None) && s.pedals == seq(PEDALS, _ => None)
    && s.nextNote == |s.history.cuts|
  }

  /** An event the open job takes. */
  function Send(s: Synth, e: Event): Synth {
    s.(job := s.job + [e], history := s.history.(trace := Then(s.history.trace, Sent(e))))
  }

  function Opened(s: Synth): Synth {
    s.(open := true, job := [], spans := [SpanOf(s, WHOLE_BLOCK)], input := Zeros(|s.input|))
  }

  lemma Opens(cfg: Config, s: Synth)
    requires cfg.Valid() && Shaped(cfg, s) && Between(s)
    ensures Prepare(cfg, s, WHOLE_BLOCK, false) == Opened(s)
  {
    var s0 := s.(open := true, job := [], spans := []);
    assert Drain(s0) == s0 && Refill(s0) == s0;
    assert Receive(cfg, s0.(input := Zeros(|s.input|)), []) == s0.(input := Zeros(|s.input|));
  }

  lemma StartsOpen(cfg: Config, s: Synth, key: int)
    requires FirstPortTakesBoth(cfg) && s.open && !s.spreading && s.job == [] && 0 <= key <= 127
    requires s.notes == seq(HELD_NOTES, _ => None) && 0 <= s.nextNote < 1000
    ensures var next := s.nextNote + 1;
            ReadBus(cfg, s, 0, Press(-1, key)) ==
            Send(s.(notes := s.notes[0 := Some(NoteOf(cfg, key, next))], nextNote := next),
                 NoteOnOf(-1, key).(port := cfg.notePorts[0], noteId := next))
  {
    hide ReadBus;
    assert FirstFree(s.notes, 0) == 0;
    Pressed(cfg, s, -1, key);
  }

  lemma CutsOpen(cfg: Config, s: Synth, note: HeldNote)
    requires s.open && |s.job| == 1 && s.job[0].offset == 0 && cfg.HasPort(note.port) && cfg.Native(note.port) && note.id == -1
    requires -1 <= note.channel <= 15 && -1 <= note.key <= 127 && note.native >= 0 && s.nextOrphan < ORPHANS
    requires s.notes == seq(HELD_NOTES, _ => None)[0 := Some(note)]
    ensures PortsKnown(cfg, s.notes)
    ensures var s1 := RecordCut(s, AddressOf(note), note.released);
            Release(cfg, s, Everything, 0) ==
            Send(s1.(notes := s1.notes[0 := None], pedals := DropPedals(s.pedals, Everything)), ChokeOf(note, 0))
  {
    hide IsRelease, InDialect;
    Spoken(cfg, ChokeOf(note, 0));
    assert PortsKnown(cfg, s.notes);
    var s1 := ChokeSlot(cfg, s, 0, 0);
    NothingToRelease(cfg, s1, Everything, 0, 1);
  }

  lemma Closes(s: Synth)
    requires s.open && Healthy(s) && s.spans == [Span(0, FRAMES, true, true, 0, 120.0)]
    ensures var s' := Finish(s, true, false);
            s' == s.(open := false, history := s'.history) && s'.history.cuts == s.history.cuts
  {
    assert s.spans[1..] == [];
    assert Tiles(s.spans, 0, FRAMES);
  }

  /** Of the cuts so far none but the last waits for an off of the key. */
  ghost predicate LastAlone(cuts: seq<Owed>, a: Orphan) {
    && cuts != [] && Waits(cuts[|cuts| - 1], a)
    && forall c :: 0 <= c < |cuts| - 1 ==> !Waits(cuts[c], a)
  }

  /** The off of the last cut is taken for it. */
  lemma TakesLast(cfg: Config, s: Synth, key: int)
    requires FirstPortTakesBoth(cfg) && Inv(cfg, s) && !s.spreading && LastAlone(s.history.cuts, KeyOf(cfg, key))
    ensures var s', n := ReadBus(cfg, s, 0, Let(-1, key)), |s.history.cuts| - 1;
            && s' == s.(orphans := s'.orphans, history := s.history.(cuts := s'.history.cuts))
            && s'.history.cuts == s.history.cuts[n := s.history.cuts[n].(open := false)]
  {
    hide NoteLoop, Wire, Table, Ledger, ReadBus;
    Released(cfg, s, -1, key);
    var off := OffEvent(-1, key).(port := cfg.notePorts[0]);
    var n := |s.history.cuts| - 1;
    OwedIsRemembered(s, n);
    var j := FirstOwing(s.orphans, WRITER, off, 0);
    assert OwesOff(s.orphans[n % ORPHANS], WRITER, off);
    assert j < ORPHANS;
    CutOfPlace(|s.history.cuts|, j);
    assert Waits(s.history.cuts[CutOf(|s.history.cuts|, j)], KeyOf(cfg, key));
  }

  /** A note starts and is stopped. */
  lemma CutInBlock(cfg: Config, s: Synth, key: int) returns (s': Synth)
    requires FirstPortTakesBoth(cfg) && Reachable(cfg, s) && Good(cfg, s) && Between(s) && |s.history.cuts| < 100
    requires 0 <= key <= 127
    ensures Reachable(cfg, s') && Good(cfg, s')
    ensures s'.open && s'.spans == [Span(0, FRAMES, true, true, 0, 120.0)]
    ensures Between(s'.(open := false))
    ensures s'.history.cuts == s.history.cuts + [Owed(KeyOf(cfg, key), true, false)]
  {
    hide Inv, StepValid, ReadBus, Reachable, Release, Prepare;
    Writes(cfg, -1, key);
    var note := NoteOf(cfg, key, s.nextNote + 1);
    Opens(cfg, s);
    ReachedMore(cfg, s, RunSlice(WHOLE_BLOCK, false, None));
    var s1 := Do(cfg, s, RunSlice(WHOLE_BLOCK, false, None));
    StartsOpen(cfg, s1, key);
    ReachedMore(cfg, s1, Addressed(Press(-1, key)));
    var s2 := Do(cfg, s1, Addressed(Press(-1, key)));
    RingNext(cfg, s2);
    CutsOpen(cfg, s2, note);
    NoPedalsLeft(s2.pedals);
    ReachedMore(cfg, s2, Stop(Everything, 0));
    s' := Do(cfg, s2, Stop(Everything, 0));
    assert s'.notes == seq(HELD_NOTES, _ => None);
  }

  lemma RingNext(cfg: Config, s: Synth)
    requires Inv(cfg, s)
    ensures s.nextOrphan < ORPHANS
  {
  }

  /** A block in which a note is cut, its late off coming at once or not at all. */
  lemma CutBlock(cfg: Config, s: Synth, key: int, late: bool) returns (s': Synth)
    requires FirstPortTakesBoth(cfg) && Reachable(cfg, s) && Good(cfg, s) && Between(s) && |s.history.cuts| < 100
    requires 0 <= key <= 127
    requires forall c :: 0 <= c < |s.history.cuts| ==> !Waits(s.history.cuts[c], KeyOf(cfg, key))
    ensures Reachable(cfg, s') && Good(cfg, s') && Between(s')
    ensures s'.history.cuts == s.history.cuts + [Owed(KeyOf(cfg, key), !late, false)]
  {
    hide Inv, StepValid, ReadBus, Reachable, Finish, Shaped;
    Writes(cfg, -1, key);
    var s1 := CutInBlock(cfg, s, key);
    if late {
      TakesLast(cfg, s1, key);
      ReachedMore(cfg, s1, Addressed(Let(-1, key)));
      s1 := Do(cfg, s1, Addressed(Let(-1, key)));
    }
    Closes(s1);
    ReachedMore(cfg, s1, Close(true, false));
    s' := Do(cfg, s1, Close(true, false));
  }

  /** Of the cuts so far the first waits for its off, and `n` later ones had theirs. */
  ghost predicate FirstWaits(cfg: Config, cuts: seq<Owed>, n: nat)
    requires |cfg.notePorts| > 0
  {
    && |cuts| == n + 1 && cuts[0] == Owed(KeyOf(cfg, 60), true, false)
    && forall c :: 0 < c <= n ==> cuts[c] == Owed(KeyOf(cfg, 61), false, false)
  }

  lemma {:induction false} CutsOnAndOn(cfg: Config, defaults: seq<Float>, n: nat) returns (s: Synth)
    requires FirstPortTakesBoth(cfg) && |defaults| == cfg.Controls() && n < 99
    ensures Reachable(cfg, s) && Good(cfg, s) && Between(s) && FirstWaits(cfg, s.history.cuts, n)
    decreases n
  {
    hide Good, Reachable;
    if n == 0 {
      FreshReached(cfg, defaults);
      s := CutBlock(cfg, Fresh(cfg, defaults), 60, false);
    } else {
      var s0 := CutsOnAndOn(cfg, defaults, n - 1);
      s := CutBlock(cfg, s0, 61, true);
    }
  }

  lemma NoneWaits(cfg: Config, s: Synth)
    requires Inv(cfg, s) && |cfg.notePorts| > 0 && FirstWaits(cfg, s.history.cuts, ORPHANS)
    ensures forall j :: 0 <= j < ORPHANS ==> s.orphans[j].None?
  {
    forall j | 0 <= j < ORPHANS ensures s.orphans[j].None? {
      CutOfPlace(|s.history.cuts|, j);
    }
  }

  /** A run in which one note is cut and its off is late, while 64 others are cut
      and had theirs: the ring waits for no off any more. The late off is the only
      one still to come of all the notes cut, and it ends the note that started on
      its key since. */
  lemma ForgottenOff(cfg: Config, defaults: seq<Float>) returns (s: Synth)
    requires FirstPortTakesBoth(cfg) && |defaults| == cfg.Controls()
    ensures Reachable(cfg, s) && Good(cfg, s) && Healthy(s) && StepValid(cfg, Addressed(Let(-1, 60)))
    ensures FirstWaits(cfg, s.history.cuts, ORPHANS) && s.notes == seq(HELD_NOTES, _ => None)[0 := s.notes[0]]
    ensures Hears(cfg, s.notes[0], 60)
    ensures Do(cfg, s, Addressed(Let(-1, 60))).notes == seq(HELD_NOTES, _ => None)
  {
    hide Good, Reachable, Run, ReadBus;
    var s0 := CutsOnAndOn(cfg, defaults, ORPHANS);
    assert Inv(cfg, s0) by { GoodInv(cfg, s0); }
    NoneWaits(cfg, s0);
    Writes(cfg, -1, 60);
    StartsIn(cfg, s0, -1, 60, 0);
    ReachedMore(cfg, s0, Addressed(Press(-1, 60)));
    s := Do(cfg, s0, Addressed(Press(-1, 60)));
    EndsIn(cfg, s, -1, 60, 0);
    assert s.notes[0 := None] == seq(HELD_NOTES, _ => None);
  }

  lemma GoodInv(cfg: Config, s: Synth)
    requires Good(cfg, s)
    ensures Inv(cfg, s)
  {
  }
}
