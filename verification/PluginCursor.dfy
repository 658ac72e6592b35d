/** Runs as the engine makes them: every event and every stop carries the frame
    the block has reached, and a slice starts there. On such runs an event is
    refused by an open job only for want of room, and delivery is in order unless
    the pending list is full while no job is open. */
module PluginCursor {
  import opened Wrappers
  import opened PluginWire
  import opened PluginModel
  import opened PluginInvariants
  import opened PluginSteps
  import opened PluginRuns
  import opened PluginOverflow

  // ---- emitting at the cursor ----

  /** A list that holds nothing past frame `c`. */
  predicate Behind(list: seq<Event>, c: nat) {
    list != [] ==> list[|list| - 1].offset <= c
  }

  /** The list an event goes to holds nothing past frame `c`. */
  predicate AtCursor(s: Synth, c: nat) { Behind(if s.open then s.job else s.pending, c) }

  ghost predicate AllValid(events: seq<Event>) {
    forall i :: 0 <= i < |events| ==> Valid(events[i])
  }

  /** From `s` to `s'` events of frame `c` were emitted and none taken back. None
      spilled from an open job; with no job open, one spilled if and only if one
      was deferred, and then the pending list is full. */
  ghost predicate Onward(s: Synth, s': Synth, c: nat) {
    && s'.open == s.open
    && (if s.open then s'.pending == s.pending else s'.job == s.job)
    && s.deferred <= s'.deferred
    && |s.pending| <= |s'.pending|
    && (AtCursor(s, c) ==> AtCursor(s', c))
    && (AtCursor(s, c) && AllValid(s'.deferred) ==>
          if s.open then s'.history.spilled == s.history.spilled
          else
            && (s'.history.spilled <==> s.history.spilled || |s.deferred| < |s'.deferred|)
            && (|s.deferred| < |s'.deferred| ==> |s'.pending| >= EVENTS))
  }

  /** The lists and what spilled are as they were. */
  ghost predicate Still(s: Synth, s': Synth) {
    && s'.open == s.open
    && s'.job == s.job
    && s'.pending == s.pending
    && s'.deferred == s.deferred
    && s'.history.spilled == s.history.spilled
  }

  lemma StillOnward(s: Synth, s': Synth, c: nat)
    requires Still(s, s')
    ensures Onward(s, s', c)
  {
  }

  lemma OnwardTrans(s: Synth, s1: Synth, s2: Synth, c: nat)
    requires Onward(s, s1, c) && Onward(s1, s2, c)
    ensures Onward(s, s2, c)
  {
    hide AtCursor, Valid;
    assert forall i :: 0 <= i < |s1.deferred| ==> s1.deferred[i] == s2.deferred[i];
    assert forall i :: 0 <= i < |s.deferred| ==> s.deferred[i] == s1.deferred[i];
  }

  lemma StillThenOnward(s: Synth, s1: Synth, s2: Synth, c: nat)
    requires Still(s, s1) && Onward(s1, s2, c)
    ensures Onward(s, s2, c)
  {
    hide Behind, AllValid;
  }

  lemma OnwardThenStill(s: Synth, s1: Synth, s2: Synth, c: nat)
    requires Onward(s, s1, c) && Still(s1, s2)
    ensures Onward(s, s2, c)
  {
    hide Behind, AllValid;
  }

  lemma EmitOnward(s: Synth, e: Event)
    requires e.offset < FRAMES
    ensures Onward(s, Emit(s, e), e.offset)
  {
    hide IsRelease, Valid;
    var s' := Emit(s, e);
    assert Valid(AtZero(e)) ==> Valid(e) by { ZeroValid(e); }
    if |s'.deferred| > |s.deferred| { assert s'.deferred[|s.deferred|] == AtZero(e); }
  }

  lemma ZeroValid(e: Event)
    requires e.offset < FRAMES
    ensures Valid(AtZero(e)) <==> Valid(e)
  {
  }

  // ---- notes ----

  lemma NativeNoteOnward(cfg: Config, s: Synth, e: Event)
    requires cfg.HasPort(e.port) && e.offset < FRAMES
    ensures Onward(s, NativeNote(cfg, s, e), e.offset)
  {
    hide Emit, Onward;
    EmitOnward(s, InDialect(cfg, e));
  }

  lemma AttackOnward(cfg: Config, s: Synth, source: nat, e: Event)
    requires cfg.HasPort(e.port) && e.offset < FRAMES
    ensures Onward(s, Attack(cfg, s, source, e), e.offset)
  {
    hide NativeNote, Clashes, Onward;
    var s' := Attack(cfg, s, source, e);
    var slot := FirstFree(s.notes, 0);
    if Clashes(cfg, s.notes, source, e) || slot == HELD_NOTES || s.nextNote >= MAX_NOTE {
      StillOnward(s, s', e.offset);
    } else {
      var next := s.nextNote + 1;
      var note := HeldNote(source, e.noteId, next, e.port, e.channel, e.key, false);
      var s1 := s.(nextNote := next, notes := s.notes[slot := Some(note)]);
      NativeNoteOnward(cfg, s1, e.(noteId := next));
      StillThenOnward(s, s1, s', e.offset);
    }
  }

  /** A held note leaves the table with an event of the cursor's frame. */
  lemma CutOnward(cfg: Config, s: Synth, i: nat, e: Event)
    requires cfg.HasPort(e.port) && e.offset < FRAMES && i < HELD_NOTES
    ensures Onward(s, NativeNote(cfg, s.(notes := s.notes[i := None]), e), e.offset)
  {
    hide NativeNote, Onward;
    var s1 := s.(notes := s.notes[i := None]);
    NativeNoteOnward(cfg, s1, e);
    StillThenOnward(s, s1, NativeNote(cfg, s1, e), e.offset);
  }

  lemma {:induction false} NoteLoopOnward(cfg: Config, s: Synth, source: nat, e: Event, i: nat)
    requires cfg.HasPort(e.port) && e.offset < FRAMES
    ensures Onward(s, NoteLoop(cfg, s, source, e, i), e.offset)
    decreases HELD_NOTES - i
  {
    hide Emit, NativeNote, Sustained, Owned, Onward;
    var s' := NoteLoop(cfg, s, source, e, i);
    if i >= HELD_NOTES {
      StillOnward(s, s', e.offset);
    } else if s.notes[i].None? {
      NoteLoopOnward(cfg, s, source, e, i + 1);
    } else {
      var note := s.notes[i].value;
      var own := ToOwned(e, note);
      if !Owned(note, source, e) || (e.kind.NoteOff? && note.released) {
        NoteLoopOnward(cfg, s, source, e, i + 1);
      } else if e.kind.NoteOff? && Sustained(s.pedals, note) {
        StillOnward(s, s', e.offset);
      } else if e.kind.Expression? {
        EmitOnward(s, own);
        NoteLoopOnward(cfg, Emit(s, own), source, e, i + 1);
        OnwardTrans(s, Emit(s, own), s', e.offset);
      } else {
        CutOnward(cfg, s, i, own);
        if !e.kind.NoteOff? {
          var s1 := NativeNote(cfg, s.(notes := s.notes[i := None]), own);
          NoteLoopOnward(cfg, s1, source, e, i + 1);
          OnwardTrans(s, s1, s', e.offset);
        }
      }
    }
  }

  lemma NoteEventOnward(cfg: Config, s: Synth, source: nat, e: Event)
    requires cfg.HasPort(e.port) && e.offset < FRAMES
    ensures Onward(s, NoteEvent(cfg, s, source, e), e.offset)
  {
    hide Attack, NoteLoop, Onward;
    AttackOnward(cfg, s, source, e);
    NoteLoopOnward(cfg, s, source, e, 0);
    if e.kind.NoteOff? && e.noteId == -1 && FirstOwing(s.orphans, source, e, 0) < ORPHANS {
      StillOnward(s, NoteEvent(cfg, s, source, e), e.offset);
    }
  }

  // ---- MIDI ----

  lemma {:induction false} LiftLoopOnward(cfg: Config, s: Synth, source: nat, address: Event, i: nat)
    requires cfg.HasPort(address.port) && address.offset < FRAMES
    ensures Onward(s, LiftLoop(cfg, s, source, address, i), address.offset)
    decreases HELD_NOTES - i
  {
    hide NativeNote, Onward, Lifts;
    var s' := LiftLoop(cfg, s, source, address, i);
    if i >= HELD_NOTES {
      StillOnward(s, s', address.offset);
    } else if s.notes[i].Some? && Lifts(s.notes[i].value, source, address.port, address.channel) {
      var note := s.notes[i].value;
      var off := address.(kind := NoteOff, noteId := note.native, key := note.key, value := 0.0);
      var s0 := LiftOut(cfg, s, address, i);
      NativeNoteOnward(cfg, s0, off);
      var s1 := NativeNote(cfg, s0, off);
      StillThenOnward(s, s0, s1, address.offset);
      LiftLoopOnward(cfg, s1, source, address, i + 1);
      OnwardTrans(s, s1, s', address.offset);
    } else {
      LiftLoopOnward(cfg, s, source, address, i + 1);
    }
  }

  lemma PedalEventOnward(cfg: Config, s: Synth, source: nat, e: Event)
    requires cfg.HasPort(e.port) && e.offset < FRAMES
    ensures Onward(s, PedalEvent(cfg, s, source, e), e.offset)
  {
    hide Emit, LiftLoop, PedalSlot, Onward;
    var s' := PedalEvent(cfg, s, source, e);
    var address := MidiAddress(e);
    var index := PedalSlot(s.pedals, source, e.port, address.channel, 0);
    if index == PEDALS {
      StillOnward(s, s', e.offset);
    } else {
      var down := Data2(e.id) >= 64;
      var entry := if down then Some(Pedal(source, e.port, address.channel, true)) else None;
      var s1 := s.(pedals := s.pedals[index := entry]);
      var s2 := if cfg.dialects[e.port].midi then Emit(s1, e) else s1;
      EmitOnward(s1, e);
      StillOnward(s1, s1, e.offset);
      StillThenOnward(s, s1, s2, e.offset);
      LiftLoopOnward(cfg, s2, source, address, 0);
      if !down { OnwardTrans(s, s2, s', e.offset); }
    }
  }

  lemma MidiEventOnward(cfg: Config, s: Synth, source: nat, e: Event)
    requires cfg.HasPort(e.port) && e.offset < FRAMES
    ensures Onward(s, MidiEvent(cfg, s, source, e), e.offset)
  {
    hide NoteEvent, PedalEvent, Emit, Onward;
    var s' := MidiEvent(cfg, s, source, e);
    var status := HighNibble(Status(e.id));
    var data1, data2 := Data1(e.id), Data2(e.id);
    var address := MidiAddress(e);
    if status == 0x80 || status == 0x90 {
      NoteEventOnward(cfg, s, source,
                      address.(kind := if status == 0x90 && data2 != 0 then NoteOn else NoteOff,
                               key := data1,
                               value := data2 as real / 127.0));
    } else if status == 0xb0 && data1 == 64 {
      PedalEventOnward(cfg, s, source, e);
    } else if status == 0xb0 && (data1 == 120 || data1 == 123) {
      NoteEventOnward(cfg, s, source, address.(kind := NoteChoke));
    } else if cfg.dialects[e.port].midi {
      EmitOnward(s, e);
    } else {
      match AsExpression(status, data1, data2)
      case None => StillOnward(s, s', e.offset);
      case Some((id, key, value)) =>
        NoteEventOnward(cfg, s, source, address.(kind := Expression, id := Number(id), key := key, value := value));
    }
  }

  lemma PluginEventOnward(cfg: Config, s: Synth, source: nat, e: Event)
    requires cfg.Valid() && e.offset < FRAMES
    ensures Onward(s, PluginEvent(cfg, s, source, e), e.offset)
  {
    hide NoteEvent, MidiEvent, Onward;
    if e.port < 0 || e.port >= |cfg.notePorts| {
      StillOnward(s, PluginEvent(cfg, s, source, e), e.offset);
    } else {
      var e' := e.(port := cfg.notePorts[e.port]);
      if e.kind.Midi? { MidiEventOnward(cfg, s, source, e'); } else { NoteEventOnward(cfg, s, source, e'); }
    }
  }

  // ---- stops ----

  lemma ChokeSlotOnward(cfg: Config, s: Synth, offset: nat, i: nat)
    requires i < HELD_NOTES && s.notes[i].Some? && PortsKnown(cfg, s.notes)
    requires s.nextOrphan < ORPHANS && offset < FRAMES
    ensures var s' := ChokeSlot(cfg, s, offset, i);
            Onward(s, s', offset) && PortsKnown(cfg, s'.notes) && s'.nextOrphan < ORPHANS
  {
    hide Emit, Onward, InDialect;
    var note := s.notes[i].value;
    var s1 := if note.id == -1 then RecordCut(s, Orphan(note.source, note.port, note.channel, note.key), note.released) else s;
    CutOnward(cfg, s1, i, ChokeOf(note, offset));
    StillThenOnward(s, s1, ChokeSlot(cfg, s, offset, i), offset);
    EmitEffect(s1.(notes := s1.notes[i := None]), InDialect(cfg, ChokeOf(note, offset)));
  }

  lemma {:induction false} ReleaseLoopOnward(cfg: Config, s: Synth, scope: Scope, offset: nat, i: nat)
    requires PortsKnown(cfg, s.notes) && s.nextOrphan < ORPHANS && offset < FRAMES
    ensures Onward(s, ReleaseLoop(cfg, s, scope, offset, i), offset)
    decreases HELD_NOTES - i
  {
    hide ChokeSlot, Governs, Onward;
    var s' := ReleaseLoop(cfg, s, scope, offset, i);
    if i >= HELD_NOTES {
      StillOnward(s, s', offset);
    } else if s.notes[i].Some? && Governs(scope, s.notes[i].value.source) {
      ChokeSlotOnward(cfg, s, offset, i);
      ReleaseLoopOnward(cfg, ChokeSlot(cfg, s, offset, i), scope, offset, i + 1);
      OnwardTrans(s, ChokeSlot(cfg, s, offset, i), s', offset);
    } else {
      ReleaseLoopOnward(cfg, s, scope, offset, i + 1);
    }
  }

  lemma ReleaseOnward(cfg: Config, s: Synth, scope: Scope, offset: nat)
    requires PortsKnown(cfg, s.notes) && s.nextOrphan < ORPHANS && offset < FRAMES
    ensures Onward(s, Release(cfg, s, scope, offset), offset)
  {
    hide ReleaseLoop, Governs, Onward;
    ReleaseLoopOnward(cfg, s, scope, offset, 0);
    OnwardThenStill(s, ReleaseLoop(cfg, s, scope, offset, 0), Release(cfg, s, scope, offset), offset);
  }

  // ---- bus events ----

  lemma JoinOnward(cfg: Config, s: Synth, port: nat, e: BusEvent, i: nat)
    requires cfg.HasPort(port) && i < HELD_NOTES && s.notes[i].Some? && e.offset < FRAMES
    ensures Onward(s, Join(cfg, s, port, e, i), e.offset)
  {
    hide NativeNote, NoteEvent, Onward;
    var held := s.notes[i].value;
    var s' := Join(cfg, s, port, e, i);
    if held.key == e.key {
      StillOnward(s, s', e.offset);
    } else {
      NoteEventOnward(cfg, s, e.source, BusAttack(port, e));
      var s1 := NoteEvent(cfg, s, e.source, BusAttack(port, e));
      var j := FirstNative(s1.notes, held.native, 0);
      if j < HELD_NOTES {
        CutOnward(cfg, s1, j, OffOf(held, port, e.offset));
        OnwardTrans(s, s1, s', e.offset);
      }
    }
  }

  lemma {:induction false} ClashLoopOnward(cfg: Config, s: Synth, port: nat, e: BusEvent, i: nat)
    requires cfg.HasPort(port) && e.offset < FRAMES
    ensures Onward(s, ClashLoop(cfg, s, port, e, i), e.offset)
    decreases HELD_NOTES - i
  {
    hide NativeNote, Retriggers, Onward;
    var s' := ClashLoop(cfg, s, port, e, i);
    if i >= HELD_NOTES {
      StillOnward(s, s', e.offset);
    } else if s.notes[i].Some? && Retriggers(cfg, s.notes[i].value, port, e) {
      var off := OffOf(s.notes[i].value, port, e.offset);
      CutOnward(cfg, s, i, off);
      var s1 := NativeNote(cfg, s.(notes := s.notes[i := None]), off);
      ClashLoopOnward(cfg, s1, port, e, i + 1);
      OnwardTrans(s, s1, s', e.offset);
    } else {
      ClashLoopOnward(cfg, s, port, e, i + 1);
    }
  }

  lemma ReadNoteOnOnward(cfg: Config, s: Synth, port: nat, e: BusEvent)
    requires cfg.Valid() && port < |cfg.notePorts| && e.offset < FRAMES
    ensures Onward(s, ReadNoteOn(cfg, s, port, e), e.offset)
  {
    hide Join, ClashLoop, PluginEvent, Onward;
    var native := cfg.notePorts[port];
    var i := if e.joins >= 0 then FirstJoined(s.notes, native, e, 0) else HELD_NOTES;
    if i < HELD_NOTES {
      JoinOnward(cfg, s, native, e, i);
    } else {
      ClashLoopOnward(cfg, s, native, e, 0);
      var s1 := ClashLoop(cfg, s, native, e, 0);
      if FirstFree(s1.notes, 0) < HELD_NOTES {
        var on := BusBase(port, e).(value := e.value);
        PluginEventOnward(cfg, s1, e.source, on);
        OnwardTrans(s, s1, PluginEvent(cfg, s1, e.source, on), e.offset);
      }
    }
  }

  lemma TranslatedAt(dialect: Dialect, port: nat, e: BusEvent)
    ensures var t := Translate(dialect, port, e); t.Some? ==> t.value.offset == e.offset
  {
    hide Data7, Bend14, StatusByte;
  }

  lemma ReadBusOnward(cfg: Config, s: Synth, port: nat, e: BusEvent)
    requires cfg.Valid() && e.offset < FRAMES
    ensures Onward(s, ReadBus(cfg, s, port, e), e.offset)
  {
    hide ReadNoteOn, PluginEvent, Translate, Onward;
    var s1 := s.(spreading := true);
    var s2 := ReadBusEvent(cfg, s1, port, e);
    StillOnward(s1, s1, e.offset);
    if port < |cfg.notePorts| {
      ReadNoteOnOnward(cfg, s1, port, e);
      var dialect := cfg.dialects[cfg.notePorts[port]];
      TranslatedAt(dialect, port, e);
      var t := Translate(dialect, port, e);
      if !e.kind.BusNoteOn? && t.Some? { PluginEventOnward(cfg, s1, e.source, t.value); }
    }
    StillThenOnward(s, s1, s2, e.offset);
    OnwardThenStill(s, s2, ReadBus(cfg, s, port, e), e.offset);
  }

  ghost predicate AllAt(events: seq<BusEvent>, c: nat) {
    forall i :: 0 <= i < |events| ==> events[i].offset == c
  }

  lemma {:induction false} ReadAllOnward(cfg: Config, s: Synth, port: nat, events: seq<BusEvent>, c: nat)
    requires cfg.Valid() && c < FRAMES && AllAt(events, c)
    ensures Onward(s, ReadAll(cfg, s, port, events), c)
    decreases |events|
  {
    hide ReadBus, Onward;
    var s' := ReadAll(cfg, s, port, events);
    if events == [] {
      StillOnward(s, s', c);
    } else {
      var s1 := ReadBus(cfg, s, port, events[0]);
      ReadBusOnward(cfg, s, port, events[0]);
      ReadAllOnward(cfg, s1, port, events[1..], c);
      OnwardTrans(s, s1, s', c);
    }
  }

  lemma {:induction false} ReadPortsOnward(cfg: Config, s: Synth, heard: seq<seq<BusEvent>>, port: nat, c: nat)
    requires cfg.Valid() && c < FRAMES && forall p :: 0 <= p < |heard| ==> AllAt(heard[p], c)
    ensures Onward(s, ReadPorts(cfg, s, heard, port), c)
    decreases |heard| - port
  {
    hide ReadAll, Onward, AllAt;
    var s' := ReadPorts(cfg, s, heard, port);
    if port >= |heard| {
      StillOnward(s, s', c);
    } else {
      var s1 := ReadAll(cfg, s, port, heard[port]);
      ReadAllOnward(cfg, s, port, heard[port], c);
      ReadPortsOnward(cfg, s1, heard, port + 1, c);
      OnwardTrans(s, s1, s', c);
    }
  }

  // ---- slices ----

  lemma EndLoopStill(s: Synth, e: Event, i: nat)
    ensures Still(s, EndLoop(s, e, i))
    decreases HELD_NOTES - i
  {
    hide Ends;
  }

  lemma {:induction false} ReceiveStill(cfg: Config, s: Synth, events: seq<Event>)
    requires Shaped(cfg, s)
    ensures Still(s, Receive(cfg, s, events))
    decreases |events|
  {
    hide ReceiveControl, EndLoop;
    if events != [] {
      var e := events[0];
      ReceiveEffect(cfg, s, e);
      var (s1, more) := if IsControl(e) then ReceiveControl(cfg, s, e) else (s, true);
      if more {
        EndLoopStill(s1, e, 0);
        EndLoopShape(cfg, s1, e, 0);
        ReceiveStill(cfg, if e.kind.NoteEnd? then EndLoop(s1, e, 0) else s1, events[1..]);
      }
    }
  }

  /** What was pending fits behind what was deferred, so opening a job spills
      nothing and leaves it at the cursor. */
  lemma {:induction false} RefillCursor(s: Synth, c: nat)
    requires Refilling(s) && Behind(s.job, c) && Behind(s.pending, c)
    ensures Behind(Refill(s).job, c) && Refill(s).history.spilled == s.history.spilled
    decreases |s.pending|
  {
    if s.pending != [] {
      RefillStep(s);
      var s1 := Place(s.(pending := s.pending[1..]), s.pending[0]).0;
      assert s.pending[0].offset <= s.pending[|s.pending| - 1].offset <= c;
      assert s1.history.spilled == s.history.spilled && s1.pending == s.pending[1..];
      hide Place, Refilling, Valid, Accepts;
      RefillCursor(s1, c);
    }
  }

  lemma OpenJobCursor(cfg: Config, s: Synth, slice: Slice)
    requires Inv(cfg, s) && Shaped(cfg, s) && !s.open && AtCursor(s, slice.offset)
    ensures var s' := OpenJob(cfg, s, slice);
            s'.open && AtCursor(s', slice.offset) && s'.history.spilled == s.history.spilled
  {
    hide Receive, Drain, Refill, Inv;
    var s0 := s.(open := true, job := [], spans := []);
    DrainShape(cfg, s0);
    RefillShape(cfg, Drain(s0));
    OpenRefills(cfg, s, slice.offset);
    OpenInv(cfg, s);
    var s1 := Refill(Drain(s0));
    ReceiveStill(cfg, s1.(input := Zeros(|s1.input|)), slice.received);
  }

  lemma OpenRefills(cfg: Config, s: Synth, c: nat)
    requires Inv(cfg, s) && !s.open && Behind(s.pending, c)
    ensures var s' := Refill(Drain(s.(open := true, job := [], spans := [])));
            Behind(s'.job, c) && s'.history.spilled == s.history.spilled
  {
    hide Refill, Drain;
    var s0 := s.(open := true, job := [], spans := []);
    assert Queue(s0) == Queue(s);
    DrainWire(s0);
    RefillCursor(Drain(s0), c);
  }

  lemma {:induction false} SendParametersOnward(cfg: Config, s: Synth, offset: nat, i: nat)
    requires Shaped(cfg, s) && s.open
    ensures Onward(s, SendParameters(cfg, s, offset, i), offset)
    decreases |cfg.parameters| - i
  {
    hide Onward, SendParameter;
    if i >= |cfg.parameters| {
      StillOnward(s, s, offset);
    } else {
      var s1 := SendParameter(cfg, s, i, offset);
      SendParameterOnward(cfg, s, i, offset);
      SendParametersOnward(cfg, s1, offset, i + 1);
      OnwardTrans(s, s1, SendParameters(cfg, s, offset, i), offset);
    }
  }

  lemma SendParameterOnward(cfg: Config, s: Synth, i: nat, offset: nat)
    requires Shaped(cfg, s) && s.open && i < |cfg.parameters|
    ensures var s' := SendParameter(cfg, s, i, offset); Onward(s, s', offset) && s'.open && Shaped(cfg, s')
  {
    hide FloatEqual, OutOfRange, Valid;
  }

  // ---- steps ----

  /** A step as the engine makes it with the block at frame `c`: what it carries is
      stamped with `c`, a slice starts there, and a block is closed only after a
      slice of it. Slices go quiet only once the block has one; a block quiet from
      its start is in the tail after which no job is ever opened. */
  ghost predicate OnCursor(step: Step, c: nat, sliced: bool) {
    match step
    case Client(_, e) => e.offset == c < FRAMES
    case Addressed(e) => e.offset == c < FRAMES
    case Stop(_, offset) => offset == c < FRAMES
    case RunSlice(slice, quiet, _) =>
      && slice.offset == c
      && slice.frames > 0
      && c + slice.frames <= FRAMES
      && (forall p :: 0 <= p < |slice.heard| ==> AllAt(slice.heard[p], c))
      && (quiet ==> sliced)
    case Close(_, _) => sliced
    case _ => true
  }

  function CursorAfter(step: Step, c: nat): nat {
    match step
    case RunSlice(slice, _, _) => c + slice.frames
    case Close(_, _) => 0
    case _ => c
  }

  function SlicedAfter(step: Step, sliced: bool): bool {
    if step.RunSlice? then true else if step.Close? then false else sliced
  }

  ghost predicate Follows(steps: seq<Step>, c: nat, sliced: bool)
    decreases |steps|
  {
    steps == [] ||
    (OnCursor(steps[0], c, sliced) && Follows(steps[1..], CursorAfter(steps[0], c), SlicedAfter(steps[0], sliced)))
  }

  /** A call made with no job open deferred an event: the pending list is full. */
  ghost predicate Overflow(s: Synth, s': Synth) {
    !s.open && !s'.open && |s.deferred| < |s'.deferred| && |s'.pending| == EVENTS
  }

  /** Between `s` and `s'` nothing spilled but by overflow. */
  ghost predicate SpillsByOverflow(s: Synth, s': Synth) {
    s'.history.spilled <==> s.history.spilled || Overflow(s, s')
  }

  lemma OnwardSpills(s: Synth, s': Synth, c: nat)
    requires Onward(s, s', c) && AtCursor(s, c) && Wire(s')
    ensures SpillsByOverflow(s, s') && AtCursor(s', c) && s'.open == s.open
  {
    hide Valid, Sound, AtCursor;
  }

  lemma PrepareCursor(cfg: Config, s: Synth, slice: Slice)
    requires Good(cfg, s) && AtCursor(s, slice.offset) && slice.offset < FRAMES
    requires forall p :: 0 <= p < |slice.heard| ==> AllAt(slice.heard[p], slice.offset)
    ensures var s' := Prepare(cfg, s, slice, false);
            exists s1 :: Onward(s1, s', slice.offset) && s1.open && AtCursor(s1, slice.offset)
                         && s1.history.spilled == s.history.spilled
  {
    hide OpenJob, ReadPorts, Onward, AtCursor, Inv, AllAt;
    var c, s' := slice.offset, Prepare(cfg, s, slice, false);
    if !s.open { OpenJobCursor(cfg, s, slice); OpenJobInv(cfg, s, slice); }
    var s1 := if s.open then s else OpenJob(cfg, s, slice);
    if |s1.spans| == SPANS {
      StillOnward(s1, s', c);
    } else {
      var s2 := s1.(spans := s1.spans + [SpanOf(s1, slice)]);
      ReadPortsOnward(cfg, s2, slice.heard, 0, c);
      StillThenOnward(s1, s2, s', c);
    }
  }

  lemma SliceCursor(cfg: Config, s: Synth, slice: Slice, quiet: bool, sounding: Option<Sounding>)
    requires Good(cfg, s) && StepValid(cfg, RunSlice(slice, quiet, sounding))
    requires OnCursor(RunSlice(slice, quiet, sounding), slice.offset, s.open) && AtCursor(s, slice.offset)
    ensures var s' := Do(cfg, s, RunSlice(slice, quiet, sounding));
            s'.open && AtCursor(s', slice.offset) && s'.history.spilled == s.history.spilled
  {
    hide Prepare, Process, Onward, AtCursor, Inv, AllAt;
    var step := RunSlice(slice, quiet, sounding);
    var c, s' := slice.offset, Do(cfg, s, step);
    DoGood(cfg, s, step);
    PrepareInv(cfg, s, slice, quiet);
    var s2 := Prepare(cfg, s, slice, quiet);
    if quiet {
      QuietSlice(cfg, s, step);
    } else {
      PrepareCursor(cfg, s, slice);
      var s1 :| Onward(s1, s2, c) && s1.open && AtCursor(s1, c) && s1.history.spilled == s.history.spilled;
      if sounding.Some? {
        ProcessOnward(cfg, s2, slice, sounding.value);
        OnwardTrans(s1, s2, s', c);
      }
      WireOf(cfg, s');
      OnwardSpills(s1, s', c);
    }
  }

  lemma WireOf(cfg: Config, s: Synth)
    requires Good(cfg, s)
    ensures Wire(s)
  {
  }

  lemma QuietSlice(cfg: Config, s: Synth, step: Step)
    requires Good(cfg, s) && StepValid(cfg, step) && step.RunSlice? && step.quiet
    ensures Do(cfg, s, step) == s
  {
  }

  lemma ProcessOnward(cfg: Config, s: Synth, slice: Slice, p: Sounding)
    requires Shaped(cfg, s) && s.open && |p.readings| == |s.values|
    requires forall b :: 0 <= b < |p.audio| ==> |p.audio[b]| == FRAMES
    ensures Onward(s, Process(cfg, s, slice.offset, slice.frames, p.readings, p.audio, p.quiet), slice.offset)
  {
    hide SendParameters, Stage, Onward;
    var s' := Process(cfg, s, slice.offset, slice.frames, p.readings, p.audio, p.quiet);
    if p.quiet {
      StillOnward(s, s', slice.offset);
    } else {
      var s1 := s.(values := FollowMaps(s, p.readings));
      SendParametersOnward(cfg, s1, slice.offset, 0);
      var s2 := SendParameters(cfg, s1, slice.offset, 0);
      StillThenOnward(s, s1, s2, slice.offset);
      OnwardThenStill(s, s2, s', slice.offset);
    }
  }

  lemma CloseCursor(cfg: Config, s: Synth, slotFree: bool, aborted: bool)
    requires Good(cfg, s) && s.open
    ensures var s' := Do(cfg, s, Close(slotFree, aborted));
            !s'.open && AtCursor(s', 0) && s'.history.spilled == s.history.spilled
  {
    hide SpansValid, Ledger, Table, Ring;
  }

  /** A step on the cursor leaves the lists at the cursor, a job open if and only if
      the block has a slice, and spills only by overflow. */
  lemma DoCursor(cfg: Config, s: Synth, step: Step, c: nat)
    requires Good(cfg, s) && StepValid(cfg, step) && OnCursor(step, c, s.open) && AtCursor(s, c)
    ensures var s' := Do(cfg, s, step);
            && s'.open == SlicedAfter(step, s.open)
            && AtCursor(s', CursorAfter(step, c))
            && SpillsByOverflow(s, s')
  {
    hide PluginEvent, ReadBus, Release, Prepare, Process, Finish, SetControl, MapControl, Inv, Onward, Shaped, AllAt;
    var s' := Do(cfg, s, step);
    DoGood(cfg, s, step);
    WireOf(cfg, s');
    match step
    case Client(source, e) => PluginEventOnward(cfg, s, source, e); OnwardSpills(s, s', c);
    case Addressed(e) =>
      StillOnward(s, s, c);
      ReadBusOnward(cfg, s, 0, e);
      OnwardSpills(s, s', c);
    case Stop(scope, offset) =>
      ReleaseInv(cfg, s, scope, offset);
      ReleaseOnward(cfg, s, scope, offset);
      OnwardSpills(s, s', c);
    case RunSlice(slice, quiet, sounding) => SliceCursor(cfg, s, slice, quiet, sounding);
    case Close(slotFree, aborted) => CloseCursor(cfg, s, slotFree, aborted);
    case Set(_, _) => ControlStill(cfg, s, step);
    case Map(_, _) => ControlStill(cfg, s, step);
    case Tempo(_) => ControlStill(cfg, s, step);
    case Reply => ControlStill(cfg, s, step);
  }

  lemma ControlStill(cfg: Config, s: Synth, step: Step)
    requires Good(cfg, s) && StepValid(cfg, step) && (step.Set? || step.Map? || step.Tempo? || step.Reply?)
    ensures Still(s, Do(cfg, s, step))
  {
    hide Inv, Shaped;
  }

  // ---- runs ----

  /** Some call of the run made with no job open deferred an event. */
  ghost predicate Overflows(cfg: Config, s: Synth, steps: seq<Step>)
    requires Good(cfg, s) && forall i :: 0 <= i < |steps| ==> StepValid(cfg, steps[i])
    decreases |steps|
  {
    steps != [] &&
    (DoGood(cfg, s, steps[0]);
     Overflow(s, Do(cfg, s, steps[0])) || Overflows(cfg, Do(cfg, s, steps[0]), steps[1..]))
  }

  /** On any run that follows the cursor, an event spills if and only if one is
      deferred while no job is open and the pending list is full: an open job
      refuses nothing while it has room, and no block's opening does. */
  lemma {:induction false} SpillsExactly(cfg: Config, s: Synth, steps: seq<Step>, c: nat)
    requires Good(cfg, s) && forall i :: 0 <= i < |steps| ==> StepValid(cfg, steps[i])
    requires Follows(steps, c, s.open) && AtCursor(s, c)
    ensures Run(cfg, s, steps).history.spilled <==> s.history.spilled || Overflows(cfg, s, steps)
    decreases |steps|
  {
    hide Do, Good, StepValid, OnCursor, CursorAfter, SlicedAfter, AtCursor, Overflow;
    if steps != [] {
      DoGood(cfg, s, steps[0]);
      DoCursor(cfg, s, steps[0], c);
      SpillsExactly(cfg, Do(cfg, s, steps[0]), steps[1..], CursorAfter(steps[0], c));
    }
  }

  /** A run of a new instance, made at frame `c` of a block, that follows the
      cursor, never defers an event while no job is open, and has not failed. */
  ghost predicate InBounds(cfg: Config, defaults: seq<Float>, steps: seq<Step>, c: nat) {
    && cfg.Valid()
    && |defaults| == cfg.Controls()
    && (forall i :: 0 <= i < |steps| ==> StepValid(cfg, steps[i]))
    && (FreshGood(cfg, defaults);
        && Follows(steps, c, false)
        && !Overflows(cfg, Fresh(cfg, defaults), steps)
        && Healthy(Run(cfg, Fresh(cfg, defaults), steps)))
  }

  /** What such a run leads to. */
  ghost function Reached(cfg: Config, defaults: seq<Float>, steps: seq<Step>): Synth
    requires cfg.Valid() && |defaults| == cfg.Controls()
    requires forall i :: 0 <= i < |steps| ==> StepValid(cfg, steps[i])
  {
    FreshGood(cfg, defaults);
    Run(cfg, Fresh(cfg, defaults), steps)
  }

  lemma InBoundsUnspilled(cfg: Config, defaults: seq<Float>, steps: seq<Step>, c: nat)
    requires InBounds(cfg, defaults, steps, c)
    ensures var s := Reached(cfg, defaults, steps); Reachable(cfg, s) && Healthy(s) && !s.history.spilled
  {
    hide Good, StepValid, Reachable, Follows, Run, Overflows;
    FreshGood(cfg, defaults);
    SpillsExactly(cfg, Fresh(cfg, defaults), steps, c);
    ReachedIs(cfg, Reached(cfg, defaults, steps), defaults, steps);
  }

  /** In every such run, what was delivered, the open job, the deferred events and
      the pending ones are, in that order, everything ever accepted in the order it
      was accepted. */
  lemma FifoDelivery(cfg: Config, defaults: seq<Float>, steps: seq<Step>, c: nat)
    requires InBounds(cfg, defaults, steps, c)
    ensures var s := Reached(cfg, defaults, steps);
            Strip(s.history.delivered + (if s.open then s.job else []) + s.deferred + s.pending)
            == Strip(Log(s.history.trace))
  {
    InBoundsUnspilled(cfg, defaults, steps, c);
    hide InBounds, Reached, Strip, Log;
    UnspilledInOrder(cfg, Reached(cfg, defaults, steps));
  }

  // ---- the quiet tail ----

  /** Once a block starts quiet, every later slice is: no job is opened again. */
  ghost predicate QuietTail(steps: seq<Step>) {
    forall i :: 0 <= i < |steps| && steps[i].RunSlice? ==> steps[i].quiet
  }

  lemma QuietDo(cfg: Config, s: Synth, step: Step)
    requires Good(cfg, s) && StepValid(cfg, step) && !s.open && (step.RunSlice? ==> step.quiet)
    ensures var s' := Do(cfg, s, step); !s'.open && s'.history.delivered == s.history.delivered
  {
    hide PluginEvent, ReadBus, Release, Prepare, Process, Inv, Shaped;
    match step
    case Client(source, e) => PluginEventInv(cfg, s, source, e);
    case Addressed(e) => if cfg.notePorts != [] { ReadBusInv(cfg, s, 0, e); }
    case Stop(scope, offset) => ReleaseInv(cfg, s, scope, offset);
    case RunSlice(_, _, _) => QuietSlice(cfg, s, step);
    case _ =>
  }

  lemma {:induction false} TailDelivers(cfg: Config, s: Synth, tail: seq<Step>)
    requires Good(cfg, s) && !s.open && QuietTail(tail) && forall i :: 0 <= i < |tail| ==> StepValid(cfg, tail[i])
    ensures Run(cfg, s, tail).history.delivered == s.history.delivered
    decreases |tail|
  {
    hide Do, Good, StepValid;
    if tail != [] {
      QuietDo(cfg, s, tail[0]);
      DoGood(cfg, s, tail[0]);
      TailDelivers(cfg, Do(cfg, s, tail[0]), tail[1..]);
    }
  }

  /** So no release reaches the plugin before its note-on in such a run, nor in any
      quiet tail that follows its last closed block. */
  lemma NoReleaseFirst(cfg: Config, defaults: seq<Float>, steps: seq<Step>, c: nat, tail: seq<Step>, k: nat)
    returns (j: nat)
    requires InBounds(cfg, defaults, steps, c) && forall i :: 0 <= i < |steps| ==> StepValid(cfg, steps[i])
    requires QuietTail(tail) && forall i :: 0 <= i < |tail| ==> StepValid(cfg, tail[i])
    requires tail == [] || !Reached(cfg, defaults, steps).open
    requires var d := Run(cfg, Reached(cfg, defaults, steps), tail).history.delivered; k < |d| && IsRelease(d[k])
    ensures var d := Run(cfg, Reached(cfg, defaults, steps), tail).history.delivered;
            j < k && IsAttack(d[j]) && d[j].noteId == d[k].noteId
  {
    hide Good, StepValid, Follows, Overflows, Reachable, QuietTail;
    InBoundsUnspilled(cfg, defaults, steps, c);
    var s := Reached(cfg, defaults, steps);
    if tail != [] { TailDelivers(cfg, s, tail); }
    j := UnspilledReleases(cfg, s, k);
  }

  // ---- a run that overflows ----

  lemma {:induction false} FollowsClients(clients: seq<Step>, rest: seq<Step>, c: nat, sliced: bool)
    requires c < FRAMES && forall i :: 0 <= i < |clients| ==> clients[i].Client? && clients[i].event.offset == c
    requires Follows(rest, c, sliced)
    ensures Follows(clients + rest, c, sliced)
    decreases |clients|
  {
    if clients == [] {
      assert clients + rest == rest;
    } else {
      FollowsClients(clients[1..], rest, c, sliced);
      assert (clients + rest)[1..] == clients[1..] + rest;
    }
  }

  /** The run that hands over a note-off before its note-on follows the cursor and
      does not fail: all it does wrong is overflow. */
  lemma OverflowOvertakes(cfg: Config, defaults: seq<Float>) returns (s: Synth)
    requires FirstPortTakesBoth(cfg) && |defaults| == cfg.Controls()
    ensures ReachedBy(cfg, s, defaults, OvertakingSteps()) && Healthy(s)
    ensures Follows(OvertakingSteps(), 0, false)
    ensures (FreshGood(cfg, defaults); Overflows(cfg, Fresh(cfg, defaults), OvertakingSteps()))
    ensures |s.history.delivered| > 1
    ensures IsRelease(s.history.delivered[0]) && IsAttack(s.history.delivered[1])
    ensures s.history.delivered[0].noteId == s.history.delivered[1].noteId
  {
    hide Good, StepValid, Reachable, Overflows, Run, IsRelease, IsAttack;
    s := OvertakenRelease(cfg, defaults);
    OvertakingFollows();
    FreshGood(cfg, defaults);
    SpillsExactly(cfg, Fresh(cfg, defaults), OvertakingSteps(), 0);
  }

  lemma OvertakingFollows()
    ensures Follows(OvertakingSteps(), 0, false)
  {
    var a := [Client(0, NoteOnOf(1, 60)), Client(0, NoteOnOf(2, 61))];
    var b := seq(EVENTS - 3, _ => Client(0, ProgramChange()));
    var c := [Client(0, NoteOffOf(2)), Client(0, NoteOffOf(1))];
    var d := [RunSlice(WHOLE_BLOCK, false, None), Close(true, false)];
    assert d[1..] == [Close(true, false)] && d[1..][1..] == [];
    FollowsClients(a + b + c, d, 0, false);
    assert OvertakingSteps() == a + b + c + d;
  }
}
