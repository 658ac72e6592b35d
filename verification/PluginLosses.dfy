/** The notes the instance loses: exactly those a lifted pedal of every channel
    takes out of the table of a port that takes only MIDI. */
module PluginLosses {
  import opened Wrappers
  import opened PluginWire
  import opened PluginModel
  import opened PluginInvariants
  import opened PluginSteps
  import opened PluginRuns
  import opened PluginOverflow
  import opened PluginBlock
  import opened PluginPedals
  import opened PluginDebts
  import opened PluginSpelling

  /** A pedal lifted on every channel: on a port that takes only MIDI, the one
      message whose note-offs cannot be spelled. */
  predicate LiftsEveryChannel(e: Event) {
    IsMidi(e, 0xb0) && Data1(e.id) == 64 && Data2(e.id) < 64 && e.channel == -1
  }

  /** The notes a lift ends, from slot `i` on. */
  function Under(notes: NoteTable, source: nat, port: int, channel: int, i: nat): set<int> {
    set k | i <= k < HELD_NOTES && notes[k].Some? && UnderPedal(notes[k].value, source, port, channel) :: notes[k].value.native
  }

  /** What a message loses: nothing, unless it lifts a pedal of every channel of a
      port that takes only MIDI; then the released notes under it. */
  function LostBy(cfg: Config, s: Synth, source: nat, e: Event): set<int>
    requires cfg.HasPort(e.port)
  {
    if cfg.Native(e.port) || !LiftsEveryChannel(e) || !PedalRoom(s.pedals, source, e.port, -1) then {}
    else Under(s.notes, source, e.port, -1, 0)
  }

  ghost predicate Loses(s: Synth, s': Synth, lost: set<int>) {
    s'.history.lost == s.history.lost + lost
  }

  lemma UnderStep(notes: NoteTable, notes': NoteTable, source: nat, port: int, channel: int, i: nat)
    requires i < HELD_NOTES && forall k :: i < k < HELD_NOTES ==> notes'[k] == notes[k]
    ensures Under(notes, source, port, channel, i) ==
            Under(notes', source, port, channel, i + 1) +
            if notes[i].Some? && UnderPedal(notes[i].value, source, port, channel) then {notes[i].value.native} else {}
  {
    hide Lifts;
  }

  lemma {:induction false} LiftLoopLoses(cfg: Config, s: Synth, source: nat, address: Event, i: nat)
    requires cfg.HasPort(address.port)
    ensures Loses(s, LiftLoop(cfg, s, source, address, i),
                  if Spellable(cfg, address) then {} else Under(s.notes, source, address.port, address.channel, i))
    decreases HELD_NOTES - i
  {
    hide Emit, InDialect, Under;
    if i >= HELD_NOTES {
      NoneUnder(s.notes, source, address.port, address.channel, i);
    } else if s.notes[i].Some? && Lifts(s.notes[i].value, source, address.port, address.channel) {
      var note := s.notes[i].value;
      var off := address.(kind := NoteOff, noteId := note.native, key := note.key, value := 0.0);
      var s1 := LiftOut(cfg, s, address, i);
      EmitEffect(s1, InDialect(cfg, off));
      var s2 := NativeNote(cfg, s1, off);
      LiftLoopLoses(cfg, s2, source, address, i + 1);
      UnderStep(s.notes, s2.notes, source, address.port, address.channel, i);
    } else {
      LiftLoopLoses(cfg, s, source, address, i + 1);
      UnderStep(s.notes, s.notes, source, address.port, address.channel, i);
    }
  }

  lemma NoneUnder(notes: NoteTable, source: nat, port: int, channel: int, i: nat)
    requires i >= HELD_NOTES
    ensures Under(notes, source, port, channel, i) == {}
  {
  }

  lemma PedalEventLoses(cfg: Config, s: Synth, source: nat, e: Event)
    requires cfg.HasPort(e.port) && IsMidi(e, 0xb0) && Data1(e.id) == 64 && e.channel >= -1
    ensures Loses(s, PedalEvent(cfg, s, source, e), LostBy(cfg, s, source, e))
  {
    hide Emit, LiftLoop, PedalSlot, PedalRoom, Under, HighNibble;
    var address := MidiAddress(e);
    RoomIs(s.pedals, source, e.port, address.channel);
    var index := PedalSlot(s.pedals, source, e.port, address.channel, 0);
    if index < PEDALS {
      var entry := if Data2(e.id) >= 64 then Some(Pedal(source, e.port, address.channel, true)) else None;
      var s1 := s.(pedals := s.pedals[index := entry]);
      EmitEffect(s1, e);
      LiftLoopLoses(cfg, if cfg.dialects[e.port].midi then Emit(s1, e) else s1, source, address, 0);
    }
  }

  lemma NoteEventLoses(cfg: Config, s: Synth, source: nat, e: Event)
    requires cfg.HasPort(e.port)
    ensures Loses(s, NoteEvent(cfg, s, source, e), {})
  {
    hide Attack, NoteLoop;
    AttackKept(cfg, s, source, e);
    NoteLoopKept(cfg, s, source, e, 0);
  }

  /** Every raw MIDI message loses exactly that, and no other event any. */
  lemma MidiEventLoses(cfg: Config, s: Synth, source: nat, e: Event)
    requires cfg.HasPort(e.port) && e.kind.Midi? && e.channel >= -1
    ensures Loses(s, MidiEvent(cfg, s, source, e), LostBy(cfg, s, source, e))
  {
    hide NoteEvent, PedalEvent, Emit, Under, PedalRoom, HighNibble;
    var status := HighNibble(Status(e.id));
    var data1, data2 := Data1(e.id), Data2(e.id);
    var address := MidiAddress(e);
    if status == 0x80 || status == 0x90 {
      NoteEventLoses(cfg, s, source,
                     address.(kind := if status == 0x90 && data2 != 0 then NoteOn else NoteOff,
                              key := data1,
                              value := data2 as real / 127.0));
    } else if status == 0xb0 && data1 == 64 {
      PedalEventLoses(cfg, s, source, e);
    } else if status == 0xb0 && (data1 == 120 || data1 == 123) {
      NoteEventLoses(cfg, s, source, address.(kind := NoteChoke));
    } else if cfg.dialects[e.port].midi {
      EmitEffect(s, e);
    } else {
      match AsExpression(status, data1, data2)
      case None =>
      case Some((id, key, value)) =>
        NoteEventLoses(cfg, s, source, address.(kind := Expression, id := Number(id), key := key, value := value));
    }
  }

  /** While nothing failed, the ledger stays as full as it was -- nothing more is
      missing from the table -- if and only if the message is no such lift or no
      released note is under the pedal. */
  lemma MidiEventExactly(cfg: Config, s: Synth, source: nat, e: Event)
    requires Inv(cfg, s) && cfg.HasPort(e.port) && MidiValid(e)
    ensures var s' := MidiEvent(cfg, s, source, e);
            && Inv(cfg, s')
            && (Healthy(s') ==>
                  (s'.history.lost == s.history.lost <==>
                   cfg.Native(e.port) || !LiftsEveryChannel(e) || Under(s.notes, source, e.port, -1, 0) == {}))
  {
    hide MidiEvent, Wire, Table, Ring, PedalRoom, Under;
    MidiEventInv(cfg, s, source, e);
    MidiEventLoses(cfg, s, source, e);
    var s' := MidiEvent(cfg, s, source, e);
    if Healthy(s') && !cfg.Native(e.port) && LiftsEveryChannel(e) {
      LiftFits(cfg, s, source, e);
      UnderHeld(s.notes, source, e.port, -1, 0);
    }
  }

  lemma LiftFits(cfg: Config, s: Synth, source: nat, e: Event)
    requires cfg.HasPort(e.port) && LiftsEveryChannel(e) && Healthy(MidiEvent(cfg, s, source, e))
    ensures PedalRoom(s.pedals, source, e.port, -1)
  {
    hide Emit, LiftLoop, PedalSlot, PedalRoom;
    RoomIs(s.pedals, source, e.port, -1);
  }

  lemma UnderHeld(notes: NoteTable, source: nat, port: int, channel: int, i: nat)
    ensures Under(notes, source, port, channel, i) <= Natives(notes)
  {
    hide Lifts;
  }

  // ---- events of a client and of a bus ----

  lemma PluginEventLoses(cfg: Config, s: Synth, source: nat, e: Event)
    requires cfg.Valid() && ClientEvent(e)
    ensures Loses(s, PluginEvent(cfg, s, source, e),
                  if e.kind.Midi? && 0 <= e.port < |cfg.notePorts|
                  then LostBy(cfg, s, source, e.(port := cfg.notePorts[e.port])) else {})
  {
    hide NoteEvent, MidiEvent, LostBy;
    if 0 <= e.port < |cfg.notePorts| {
      var e' := e.(port := cfg.notePorts[e.port]);
      if e.kind.Midi? { MidiEventLoses(cfg, s, source, e'); } else { NoteEventLoses(cfg, s, source, e'); }
    }
  }

  /** A bus's spelling of that lift. */
  predicate BusLifts(cfg: Config, port: nat, e: BusEvent)
    requires cfg.Valid()
  {
    && port < |cfg.notePorts| && !cfg.Native(cfg.notePorts[port])
    && e.kind.BusController? && e.index == 64 && e.channel == -1 && e.value < 0.5
  }

  function BusLost(cfg: Config, s: Synth, port: nat, e: BusEvent): set<int>
    requires cfg.Valid()
  {
    if !BusLifts(cfg, port, e) || !PedalRoom(s.pedals, e.source, cfg.notePorts[port], -1) then {}
    else Under(s.notes, e.source, cfg.notePorts[port], -1, 0)
  }

  lemma ReadNoteOnLoses(cfg: Config, s: Synth, port: nat, e: BusEvent)
    requires cfg.Valid() && port < |cfg.notePorts| && BusValid(e) && e.kind.BusNoteOn?
    ensures Loses(s, ReadNoteOn(cfg, s, port, e), {})
  {
    hide Join, ClashLoop, PluginEvent;
    var native := cfg.notePorts[port];
    var i := if e.joins >= 0 then FirstJoined(s.notes, native, e, 0) else HELD_NOTES;
    if i < HELD_NOTES {
      JoinKept(cfg, s, native, e, i);
    } else {
      ClashLoopKept(cfg, s, native, e, 0);
      PluginEventLoses(cfg, ClashLoop(cfg, s, native, e, 0), e.source, BusBase(port, e).(value := e.value));
    }
  }

  /** Of what a bus event is spelled as, only that lift is one. */
  lemma TranslatedLift(cfg: Config, s: Synth, port: nat, e: BusEvent)
    requires cfg.Valid() && port < |cfg.notePorts| && BusValid(e) && !e.kind.BusNoteOn?
    ensures var np := cfg.notePorts[port];
            match Translate(cfg.dialects[np], port, e)
            case None => BusLost(cfg, s, port, e) == {}
            case Some(event) =>
              && event.port == port
              && BusLost(cfg, s, port, e) == (if event.kind.Midi? then LostBy(cfg, s, e.source, event.(port := np)) else {})
  {
    hide Data7, Bend14, StatusByte, HighNibble, Under, PedalRoom;
    HalfDown(e.value);
    StatusNibbles(e);
    Data7Range(e.value);
  }

  /** Every event read from a bus loses exactly the released notes under its pedal
      if it is such a lift, and nothing else. */
  lemma ReadBusLoses(cfg: Config, s: Synth, port: nat, e: BusEvent)
    requires cfg.Valid() && BusValid(e)
    ensures Loses(s, ReadBus(cfg, s, port, e), BusLost(cfg, s, port, e))
  {
    hide ReadNoteOn, PluginEvent, Translate, Under, PedalRoom, LostBy;
    var s1 := s.(spreading := true);
    if port < |cfg.notePorts| {
      if e.kind.BusNoteOn? {
        ReadNoteOnLoses(cfg, s1, port, e);
      } else {
        TranslatedLift(cfg, s1, port, e);
        TranslateValid(cfg.dialects[cfg.notePorts[port]], port, e);
        match Translate(cfg.dialects[cfg.notePorts[port]], port, e)
        case None =>
        case Some(event) => PluginEventLoses(cfg, s1, e.source, event);
      }
    }
  }

  // ---- over a run ----

  /** A call that carries no such lift. */
  ghost predicate LiftsNothing(cfg: Config, step: Step)
    requires cfg.Valid()
  {
    match step
    case Client(_, e) =>
      e.kind.Midi? && 0 <= e.port < |cfg.notePorts| ==> cfg.Native(cfg.notePorts[e.port]) || !LiftsEveryChannel(e)
    case Addressed(e) => !BusLifts(cfg, 0, e)
    case RunSlice(slice, _, _) => forall p :: 0 <= p < |slice.heard| ==> NoneLifts(cfg, p, slice.heard[p])
    case _ => true
  }

  ghost predicate NoneLifts(cfg: Config, port: nat, events: seq<BusEvent>)
    requires cfg.Valid()
  {
    forall i :: 0 <= i < |events| ==> !BusLifts(cfg, port, events[i])
  }

  lemma {:induction false} ReadAllLoses(cfg: Config, s: Synth, port: nat, events: seq<BusEvent>)
    requires cfg.Valid() && HeardValid(events) && NoneLifts(cfg, port, events)
    ensures Loses(s, ReadAll(cfg, s, port, events), {})
    decreases |events|
  {
    hide ReadBus, BusValid, BusLifts;
    if events != [] {
      ReadBusLoses(cfg, s, port, events[0]);
      ReadAllLoses(cfg, ReadBus(cfg, s, port, events[0]), port, events[1..]);
    }
  }

  lemma {:induction false} ReadPortsLoses(cfg: Config, s: Synth, heard: seq<seq<BusEvent>>, port: nat)
    requires cfg.Valid() && forall p :: 0 <= p < |heard| ==> HeardValid(heard[p]) && NoneLifts(cfg, p, heard[p])
    ensures Loses(s, ReadPorts(cfg, s, heard, port), {})
    decreases |heard| - port
  {
    hide ReadAll, HeardValid, NoneLifts;
    if port < |heard| {
      ReadAllLoses(cfg, s, port, heard[port]);
      ReadPortsLoses(cfg, ReadAll(cfg, s, port, heard[port]), heard, port + 1);
    }
  }

  lemma PrepareLoses(cfg: Config, s: Synth, slice: Slice, quiet: bool)
    requires Good(cfg, s) && SliceValid(slice)
    requires forall p :: 0 <= p < |slice.heard| ==> NoneLifts(cfg, p, slice.heard[p])
    ensures Loses(s, Prepare(cfg, s, slice, quiet), {})
  {
    hide OpenJob, ReadPorts, Inv, HeardValid, NoneLifts;
    if !quiet {
      if !s.open { OpenJobKept(cfg, s, slice); }
      var s1 := if s.open then s else OpenJob(cfg, s, slice);
      if |s1.spans| != SPANS {
        ReadPortsLoses(cfg, s1.(spans := s1.spans + [SpanOf(s1, slice)]), slice.heard, 0);
      }
    }
  }

  lemma {:induction false} ReleaseLoopLoses(cfg: Config, s: Synth, scope: Scope, offset: nat, i: nat)
    requires PortsKnown(cfg, s.notes) && s.nextOrphan < ORPHANS
    ensures Loses(s, ReleaseLoop(cfg, s, scope, offset, i), {})
    decreases HELD_NOTES - i
  {
    hide Emit, InDialect, Governs;
    if i < HELD_NOTES {
      if s.notes[i].Some? && Governs(scope, s.notes[i].value.source) {
        var note := s.notes[i].value;
        var s1 := if note.id == -1 then RecordCut(s, Orphan(note.source, note.port, note.channel, note.key), note.released) else s;
        EmitEffect(s1.(notes := s1.notes[i := None]), InDialect(cfg, ChokeOf(note, offset)));
        ReleaseLoopLoses(cfg, ChokeSlot(cfg, s, offset, i), scope, offset, i + 1);
      } else {
        ReleaseLoopLoses(cfg, s, scope, offset, i + 1);
      }
    }
  }

  lemma DoLoses(cfg: Config, s: Synth, step: Step)
    requires Good(cfg, s) && StepValid(cfg, step) && LiftsNothing(cfg, step)
    ensures Loses(s, Do(cfg, s, step), {})
  {
    hide PluginEvent, ReadBus, ReleaseLoop, Prepare, Process, Inv, Shaped, SpansValid, NoneLifts;
    match step
    case Client(source, e) => PluginEventLoses(cfg, s, source, e);
    case Addressed(e) => if cfg.notePorts != [] { ReadBusLoses(cfg, s, 0, e); }
    case Stop(scope, offset) =>
      ReleaseInv(cfg, s, scope, offset);
      ReleaseLoopLoses(cfg, s, scope, offset, 0);
    case RunSlice(slice, quiet, sounding) =>
      PrepareLoses(cfg, s, slice, quiet);
      PrepareInv(cfg, s, slice, quiet);
      if sounding.Some? {
        ShapeOf(cfg, Prepare(cfg, s, slice, quiet));
        ProcessKept(cfg, Prepare(cfg, s, slice, quiet), slice.offset, slice.frames, sounding.value);
      }
    case _ =>
  }

  lemma ShapeOf(cfg: Config, s: Synth)
    requires Shaped(cfg, s)
    ensures |s.values| == cfg.Controls()
  {
  }

  /** A run that carries no such lift loses nothing. */
  lemma {:induction false} RunLoses(cfg: Config, s: Synth, steps: seq<Step>)
    requires Good(cfg, s) && forall i :: 0 <= i < |steps| ==> StepValid(cfg, steps[i]) && LiftsNothing(cfg, steps[i])
    ensures Run(cfg, s, steps).history.lost == s.history.lost
    decreases |steps|
  {
    hide Do, StepValid, LiftsNothing, Inv, Shaped;
    if steps != [] {
      DoGood(cfg, s, steps[0]);
      DoLoses(cfg, s, steps[0]);
      RunLoses(cfg, Do(cfg, s, steps[0]), steps[1..]);
    }
  }

  /** So after such a run of a new instance that has not failed, the identities held
      are exactly those started and never stopped. */
  lemma FullLedger(cfg: Config, s: Synth, defaults: seq<Float>, steps: seq<Step>)
    requires ReachedBy(cfg, s, defaults, steps) && Healthy(s)
    requires forall i :: 0 <= i < |steps| ==> LiftsNothing(cfg, steps[i])
    ensures Natives(s.notes) == set n | 1 <= n <= s.nextNote && Stops(s.history.trace, n) == 0
  {
    hide StepValid, LiftsNothing, Inv, Shaped, Reachable;
    FreshGood(cfg, defaults);
    RunLoses(cfg, Fresh(cfg, defaults), steps);
    ReachedIs(cfg, s, defaults, steps);
    VoiceLedger(cfg, s);
  }
}
