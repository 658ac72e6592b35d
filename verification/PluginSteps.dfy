/** Every entry point of a plugin instance keeps its invariants. */
module PluginSteps {
  import opened Wrappers
  import opened PluginWire
  import opened PluginModel
  import opened PluginInvariants

  /** A step that touches neither the block's spans and input nor the controls,
      and mends no failure. */
  ghost predicate Beside(s: Synth, s': Synth) {
    && s'.open == s.open
    && s'.spans == s.spans
    && s'.input == s.input
    && s'.tempo == s.tempo
    && s'.values == s.values
    && s'.sent == s.sent
    && s'.maps == s.maps
    && s'.history.jobs == s.history.jobs
    && s'.history.delivered == s.history.delivered
    && (Healthy(s') ==> Healthy(s) && Told(s'.history.trace) == Told(s.history.trace))
  }

  lemma FailInv(cfg: Config, s: Synth, f: Failure)
    requires Inv(cfg, s) && !f.Running?
    ensures Inv(cfg, Fail(s, f)) && Beside(s, Fail(s, f))
  {
    FailKeeps(cfg, s, f);
    hide Inv;
  }

  lemma BesideTrans(a: Synth, b: Synth, c: Synth)
    requires Beside(a, b) && Beside(b, c)
    ensures Beside(a, c)
  {
  }

  lemma EmitBeside(s: Synth, e: Event)
    requires !e.kind.Parameter?
    ensures Beside(s, Emit(s, e))
  {
    hide IsRelease, Accepts;
  }

  lemma NotesBeside(s: Synth, s': Synth)
    requires s' == s.(notes := s'.notes, nextNote := s'.nextNote)
    ensures Beside(s, s')
  {
  }

  lemma EmitStep(cfg: Config, s: Synth, e: Event)
    requires Inv(cfg, s) && ValidAtZero(e)
    requires !IsAttack(e) && !IsRelease(e) && !e.kind.Parameter?
    ensures Inv(cfg, Emit(s, e)) && Beside(s, Emit(s, e))
  {
    hide Beside, Emit;
    EmitInv(cfg, s, e);
    EmitBeside(s, e);
  }

  /** A note-off or choke that its port can spell. */
  ghost predicate Releasable(cfg: Config, e: Event) {
    && cfg.HasPort(e.port)
    && (e.kind.NoteOff? || e.kind.NoteChoke?)
    && -1 <= e.channel <= 15
    && -1 <= e.key <= 127
    && (cfg.Native(e.port) || e.channel >= 0)
  }

  /** A held note leaves the table with a release under its identity. */
  lemma CutStep(cfg: Config, s: Synth, i: nat, e: Event)
    requires Inv(cfg, s) && i < HELD_NOTES && s.notes[i].Some?
    requires Releasable(cfg, e) && e.noteId == s.notes[i].value.native
    ensures var s' := NativeNote(cfg, s.(notes := s.notes[i := None]), e); Inv(cfg, s') && Beside(s, s')
  {
    hide InDialect, Inv;
    HeldValid(cfg, s, i);
    CutInv(cfg, s, i, e);
    SpelledKind(cfg, e);
    EmitEffect(s.(notes := s.notes[i := None]), InDialect(cfg, e));
  }

  lemma HeldValid(cfg: Config, s: Synth, i: nat)
    requires Inv(cfg, s) && i < HELD_NOTES && s.notes[i].Some?
    ensures NoteValid(cfg, s.notes[i].value)
  {
  }

  lemma BesideSelf(s: Synth)
    ensures Beside(s, s)
  {
  }

  lemma HeldPorts(cfg: Config, s: Synth)
    requires Inv(cfg, s)
    ensures PortsKnown(cfg, s.notes)
  {
  }

  // ---- note events ----

  /** A held note that keeps its identity, port and key may change otherwise. */
  lemma RewriteInv(cfg: Config, s: Synth, i: nat, note: HeldNote)
    requires Inv(cfg, s) && i < HELD_NOTES && s.notes[i].Some?
    requires note.native == s.notes[i].value.native && SameKey(note, s.notes[i].value)
    ensures var s' := s.(notes := s.notes[i := Some(note)]); Inv(cfg, s') && Beside(s, s')
  {
    var notes' := s.notes[i := Some(note)];
    assert Natives(notes') == Natives(s.notes) by {
      forall n | n in Natives(s.notes) ensures n in Natives(notes') {
        var j :| 0 <= j < |s.notes| && s.notes[j].Some? && s.notes[j].value.native == n;
        assert notes'[j].Some?;
      }
      forall n | n in Natives(notes') ensures n in Natives(s.notes) {
        var j :| 0 <= j < |notes'| && notes'[j].Some? && notes'[j].value.native == n;
        assert s.notes[j].Some?;
      }
    }
  }

  lemma CutOfPlace(n: nat, j: nat)
    requires j < ORPHANS && j < n
    ensures 0 <= CutOf(n, j) < n
    ensures n - ORPHANS <= CutOf(n, j)
    ensures CutOf(n, j) % ORPHANS == j
  {
  }

  /** The ring's slot of a cut is the only one it is in. */
  lemma CutOfAt(n: nat, c: nat)
    requires c < n && n - ORPHANS <= c
    ensures c % ORPHANS < n && CutOf(n, c % ORPHANS) == c
  {
  }

  lemma CutOfNext(n: nat, j: nat)
    requires j < ORPHANS && j < n + 1
    ensures CutOf(n + 1, j) == if j == n % ORPHANS then n else CutOf(n, j)
    ensures j != n % ORPHANS ==> j < n
  {
  }

  lemma SwallowRing(orphans: OrphanTable, nextOrphan: nat, cuts: seq<Owed>, j: nat)
    requires Ring(orphans, nextOrphan, cuts) && j < ORPHANS && j < |cuts|
    ensures 0 <= CutOf(|cuts|, j) < |cuts|
    ensures var c := CutOf(|cuts|, j);
            Ring(orphans[j := None], nextOrphan, cuts[c := cuts[c].(open := false)])
  {
    CutOfPlace(|cuts|, j);
    var c := CutOf(|cuts|, j);
    var cuts' := cuts[c := cuts[c].(open := false)];
    forall k | 0 <= k < ORPHANS ensures orphans[j := None][k] == Remembered(cuts', k) {
      if k < |cuts| { CutOfPlace(|cuts|, k); }
    }
  }

  lemma RecordRing(orphans: OrphanTable, nextOrphan: nat, cuts: seq<Owed>, o: Orphan, released: bool)
    requires Ring(orphans, nextOrphan, cuts)
    ensures Ring(orphans[nextOrphan := Some(o)], (nextOrphan + 1) % ORPHANS, cuts + [Owed(o, true, released)])
  {
    var cuts' := cuts + [Owed(o, true, released)];
    forall k | 0 <= k < ORPHANS ensures orphans[nextOrphan := Some(o)][k] == Remembered(cuts', k) {
      if k < |cuts'| {
        CutOfNext(|cuts|, k);
        if k < |cuts| { CutOfPlace(|cuts|, k); }
      }
    }
  }

  lemma {:induction false} NoteLoopInv(cfg: Config, s: Synth, source: nat, e: Event, i: nat)
    requires Inv(cfg, s) && cfg.HasPort(e.port)
    requires e.kind.NoteOff? || e.kind.NoteChoke? || e.kind.Expression?
    ensures Inv(cfg, NoteLoop(cfg, s, source, e, i))
    ensures Beside(s, NoteLoop(cfg, s, source, e, i))
    decreases HELD_NOTES - i
  {
    hide Inv, Beside, Emit, NativeNote, Sustained;
    if i >= HELD_NOTES {
      BesideSelf(s);
    } else if s.notes[i].None? {
      NoteLoopInv(cfg, s, source, e, i + 1);
    } else {
      HeldValid(cfg, s, i);
      var note := s.notes[i].value;
      var own := ToOwned(e, note);
      if !Owned(note, source, e) || (e.kind.NoteOff? && note.released) {
        NoteLoopInv(cfg, s, source, e, i + 1);
      } else if e.kind.NoteOff? && Sustained(s.pedals, note) {
        RewriteInv(cfg, s, i, note.(released := true));
      } else if e.kind.Expression? {
        EmitStep(cfg, s, own);
        NoteLoopInv(cfg, Emit(s, own), source, e, i + 1);
        BesideTrans(s, Emit(s, own), NoteLoop(cfg, s, source, e, i));
      } else {
        CutStep(cfg, s, i, own);
        if !e.kind.NoteOff? {
          var s' := NativeNote(cfg, s.(notes := s.notes[i := None]), own);
          NoteLoopInv(cfg, s', source, e, i + 1);
          BesideTrans(s, s', NoteLoop(cfg, s, source, e, i));
        }
      }
    }
  }

  /** What both callers check before a note event reaches the instance. */
  ghost predicate NoteEventValid(e: Event) {
    && (e.kind.NoteOn? || e.kind.NoteOff? || e.kind.NoteChoke? || e.kind.Expression?)
    && (e.kind.NoteOn? ==> 0 <= e.channel <= 15 && 0 <= e.key <= 127)
  }

  lemma AttackStep(cfg: Config, s: Synth, source: nat, e: Event)
    requires Inv(cfg, s) && cfg.HasPort(e.port) && e.kind.NoteOn?
    requires 0 <= e.channel <= 15 && 0 <= e.key <= 127
    ensures var s' := Attack(cfg, s, source, e); Inv(cfg, s') && Beside(s, s')
  {
    hide InDialect, Inv, Clashes, FirstFree, Emit, Beside;
    AttackInv(cfg, s, source, e);
    var next := s.nextNote + 1;
    var slot := FirstFree(s.notes, 0);
    FailInv(cfg, s, Protocol);
    FailInv(cfg, s, Capacity);
    SpelledKind(cfg, e.(noteId := next));
    if slot < HELD_NOTES {
      var note := HeldNote(source, e.noteId, next, e.port, e.channel, e.key, false);
      var s1 := s.(nextNote := next, notes := s.notes[slot := Some(note)]);
      NotesBeside(s, s1);
      EmitBeside(s1, InDialect(cfg, e.(noteId := next)));
      BesideTrans(s, s1, Emit(s1, InDialect(cfg, e.(noteId := next))));
    }
  }

  lemma SwallowStep(cfg: Config, s: Synth, j: nat)
    requires Inv(cfg, s) && j < ORPHANS && s.orphans[j].Some?
    ensures Inv(cfg, Swallow(s, j)) && Beside(s, Swallow(s, j))
  {
    SwallowRing(s.orphans, s.nextOrphan, s.history.cuts, j);
  }

  lemma NoteEventInv(cfg: Config, s: Synth, source: nat, e: Event)
    requires Inv(cfg, s) && cfg.HasPort(e.port) && NoteEventValid(e)
    ensures Inv(cfg, NoteEvent(cfg, s, source, e))
    ensures Beside(s, NoteEvent(cfg, s, source, e))
  {
    if e.kind.NoteOn? {
      AttackStep(cfg, s, source, e);
    } else {
      hide NoteLoop;
      var j := if e.kind.NoteOff? && e.noteId == -1 then FirstOwing(s.orphans, source, e, 0) else ORPHANS;
      if j < ORPHANS {
        SwallowStep(cfg, s, j);
      } else {
        NoteLoopInv(cfg, s, source, e, 0);
      }
    }
  }

  // ---- MIDI ----

  /** A released note leaves the table, with its release or as a lost one. */
  lemma LiftStep(cfg: Config, s: Synth, address: Event, i: nat, off: Event)
    requires Inv(cfg, s) && i < HELD_NOTES && s.notes[i].Some?
    requires cfg.HasPort(address.port) && -1 <= address.channel <= 15 && off.kind.NoteOff?
    requires off == address.(kind := NoteOff, noteId := s.notes[i].value.native, key := s.notes[i].value.key, value := 0.0)
    ensures var s' := NativeNote(cfg, LiftOut(cfg, s, address, i), off); Inv(cfg, s') && Beside(s, s')
  {
    hide InDialect, Inv;
    HeldValid(cfg, s, i);
    if Spellable(cfg, address) {
      assert LiftOut(cfg, s, address, i) == s.(notes := s.notes[i := None]);
      CutStep(cfg, s, i, off);
    } else {
      LostInv(cfg, s, address, i, off);
      SpelledKind(cfg, off);
      EmitEffect(LiftOut(cfg, s, address, i), InDialect(cfg, off));
    }
  }

  lemma {:induction false} LiftLoopInv(cfg: Config, s: Synth, source: nat, address: Event, i: nat)
    requires Inv(cfg, s) && cfg.HasPort(address.port) && -1 <= address.channel <= 15
    ensures Inv(cfg, LiftLoop(cfg, s, source, address, i))
    ensures Beside(s, LiftLoop(cfg, s, source, address, i))
    decreases HELD_NOTES - i
  {
    hide Inv, Beside, NativeNote;
    if i >= HELD_NOTES {
      BesideSelf(s);
    } else if s.notes[i].Some? && Lifts(s.notes[i].value, source, address.port, address.channel) {
      HeldValid(cfg, s, i);
      var note := s.notes[i].value;
      var off := address.(kind := NoteOff, noteId := note.native, key := note.key, value := 0.0);
      LiftStep(cfg, s, address, i, off);
      var s' := NativeNote(cfg, LiftOut(cfg, s, address, i), off);
      LiftLoopInv(cfg, s', source, address, i + 1);
      BesideTrans(s, s', LiftLoop(cfg, s, source, address, i));
    } else {
      LiftLoopInv(cfg, s, source, address, i + 1);
    }
  }

  /** The status bytes a raw message may carry: a channel voice message's,
      and an attack names its channel. */
  ghost predicate MidiValid(e: Event) {
    && e.kind.Midi?
    && Data1(e.id) <= 127
    && Data2(e.id) <= 127
    && e.noteId >= -1
    && -1 <= e.channel <= 15
    && -1 <= e.key <= 127
    && (HighNibble(Status(e.id)) == 0x90 ==> e.channel >= 0)
  }

  lemma PedalEventInv(cfg: Config, s: Synth, source: nat, e: Event)
    requires Inv(cfg, s) && cfg.HasPort(e.port) && MidiValid(e)
    requires IsMidi(e, 0xb0) && Data1(e.id) == 64
    ensures Inv(cfg, PedalEvent(cfg, s, source, e))
    ensures Beside(s, PedalEvent(cfg, s, source, e))
  {
    hide Inv, Beside, Emit, LiftLoop, PedalSlot;
    var address := MidiAddress(e);
    var index := PedalSlot(s.pedals, source, e.port, address.channel, 0);
    if index == PEDALS {
      FailInv(cfg, s, Capacity);
    } else {
      var down := Data2(e.id) >= 64;
      var entry := if down then Some(Pedal(source, e.port, address.channel, true)) else None;
      var s1 := s.(pedals := s.pedals[index := entry]);
      PedalsBeside(cfg, s, s.pedals[index := entry]);
      EmitStep(cfg, s1, e);
      BesideSelf(s1);
      var s2 := if cfg.dialects[e.port].midi then Emit(s1, e) else s1;
      BesideTrans(s, s1, s2);
      if !down {
        LiftLoopInv(cfg, s2, source, address, 0);
        BesideTrans(s, s2, LiftLoop(cfg, s2, source, address, 0));
      }
    }
  }

  lemma PedalsBeside(cfg: Config, s: Synth, pedals: PedalTable)
    requires Inv(cfg, s)
    ensures Inv(cfg, s.(pedals := pedals)) && Beside(s, s.(pedals := pedals))
  {
  }

  lemma MidiEventInv(cfg: Config, s: Synth, source: nat, e: Event)
    requires Inv(cfg, s) && cfg.HasPort(e.port) && MidiValid(e)
    ensures Inv(cfg, MidiEvent(cfg, s, source, e))
    ensures Beside(s, MidiEvent(cfg, s, source, e))
  {
    hide NoteEvent, PedalEvent, Emit, Inv, Beside;
    var status := HighNibble(Status(e.id));
    var data1, data2 := Data1(e.id), Data2(e.id);
    var address := MidiAddress(e);
    if status == 0x80 || status == 0x90 {
      NoteEventInv(cfg, s, source,
                   address.(kind := if status == 0x90 && data2 != 0 then NoteOn else NoteOff,
                            key := data1,
                            value := data2 as real / 127.0));
    } else if status == 0xb0 && data1 == 64 {
      PedalEventInv(cfg, s, source, e);
    } else if status == 0xb0 && (data1 == 120 || data1 == 123) {
      NoteEventInv(cfg, s, source, address.(kind := NoteChoke));
    } else if cfg.dialects[e.port].midi {
      EmitStep(cfg, s, e);
    } else {
      match AsExpression(status, data1, data2)
      case None => FailInv(cfg, s, Protocol);
      case Some((id, key, value)) =>
        NoteEventInv(cfg, s, source, address.(kind := Expression, id := Number(id), key := key, value := value));
    }
  }

  /** What a client's event is once translated: a note's kind or a raw message. */
  ghost predicate ClientEvent(e: Event) {
    if e.kind.Midi? then MidiValid(e) else NoteEventValid(e)
  }

  lemma PluginEventInv(cfg: Config, s: Synth, source: nat, e: Event)
    requires cfg.Valid() && Inv(cfg, s) && ClientEvent(e)
    ensures Inv(cfg, PluginEvent(cfg, s, source, e))
    ensures Beside(s, PluginEvent(cfg, s, source, e))
  {
    hide NoteEvent, MidiEvent, Inv, Beside;
    if e.port < 0 || e.port >= |cfg.notePorts| {
      FailInv(cfg, s, Protocol);
    } else {
      var e' := e.(port := cfg.notePorts[e.port]);
      if e.kind.Midi? {
        MidiEventInv(cfg, s, source, e');
      } else {
        NoteEventInv(cfg, s, source, e');
      }
    }
  }

  // ---- releases by lane and transport ----

  lemma RecordCutInv(cfg: Config, s: Synth, o: Orphan, released: bool)
    requires Inv(cfg, s)
    ensures s.nextOrphan < ORPHANS && Inv(cfg, RecordCut(s, o, released)) && Beside(s, RecordCut(s, o, released))
  {
    RecordRing(s.orphans, s.nextOrphan, s.history.cuts, o, released);
  }

  lemma {:induction false} ReleaseLoopInv(cfg: Config, s: Synth, scope: Scope, offset: nat, i: nat)
    requires Inv(cfg, s)
    ensures PortsKnown(cfg, s.notes) && s.nextOrphan < ORPHANS
    ensures Inv(cfg, ReleaseLoop(cfg, s, scope, offset, i))
    ensures Beside(s, ReleaseLoop(cfg, s, scope, offset, i))
    decreases HELD_NOTES - i
  {
    hide Inv, Beside, NativeNote, Governs;
    RecordCutInv(cfg, s, Orphan(0, 0, 0, 0), false);
    HeldPorts(cfg, s);
    if i >= HELD_NOTES {
      BesideSelf(s);
    } else if s.notes[i].Some? && Governs(scope, s.notes[i].value.source) {
      HeldValid(cfg, s, i);
      var note := s.notes[i].value;
      var o := Orphan(note.source, note.port, note.channel, note.key);
      RecordCutInv(cfg, s, o, note.released);
      BesideSelf(s);
      var s1 := if note.id == -1 then RecordCut(s, o, note.released) else s;
      CutStep(cfg, s1, i, ChokeOf(note, offset));
      var s2 := NativeNote(cfg, s1.(notes := s1.notes[i := None]), ChokeOf(note, offset));
      ReleaseLoopInv(cfg, s2, scope, offset, i + 1);
      BesideTrans(s, s1, s2);
      BesideTrans(s, s2, ReleaseLoop(cfg, s, scope, offset, i));
    } else {
      ReleaseLoopInv(cfg, s, scope, offset, i + 1);
    }
  }

  lemma ReleaseInv(cfg: Config, s: Synth, scope: Scope, offset: nat)
    requires Inv(cfg, s)
    ensures PortsKnown(cfg, s.notes) && s.nextOrphan < ORPHANS
    ensures Inv(cfg, Release(cfg, s, scope, offset))
    ensures Beside(s, Release(cfg, s, scope, offset))
  {
    hide ReleaseLoop, Governs;
    ReleaseLoopInv(cfg, s, scope, offset, 0);
  }

  // ---- bus events ----

  ghost predicate BusValid(e: BusEvent) {
    && -1 <= e.channel <= 15
    && -1 <= e.key <= 127
    && e.noteId >= -1
    && (e.kind.BusNoteOn? ==> e.channel >= 0 && e.key >= 0)
    && (e.kind.BusController? || e.kind.BusProgram? ==> e.index <= 127)
  }

  lemma JoinInv(cfg: Config, s: Synth, port: nat, e: BusEvent, i: nat)
    requires Inv(cfg, s) && cfg.HasPort(port) && BusValid(e) && e.kind.BusNoteOn?
    requires i < HELD_NOTES && Joined(s.notes[i], port, e)
    ensures Inv(cfg, Join(cfg, s, port, e, i))
    ensures Beside(s, Join(cfg, s, port, e, i))
  {
    hide Inv, Beside, NativeNote, NoteEvent;
    HeldValid(cfg, s, i);
    var held := s.notes[i].value;
    if held.key == e.key {
      RewriteInv(cfg, s, i, held.(id := e.noteId));
    } else {
      NoteEventInv(cfg, s, e.source, BusAttack(port, e));
      var s1 := NoteEvent(cfg, s, e.source, BusAttack(port, e));
      var j := FirstNative(s1.notes, held.native, 0);
      if j < HELD_NOTES {
        CutStep(cfg, s1, j, OffOf(held, port, e.offset));
        BesideTrans(s, s1, Join(cfg, s, port, e, i));
      }
    }
  }

  lemma {:induction false} ClashLoopInv(cfg: Config, s: Synth, port: nat, e: BusEvent, i: nat)
    requires Inv(cfg, s) && cfg.HasPort(port)
    ensures Inv(cfg, ClashLoop(cfg, s, port, e, i))
    ensures Beside(s, ClashLoop(cfg, s, port, e, i))
    decreases HELD_NOTES - i
  {
    hide Inv, Beside, NativeNote;
    if i >= HELD_NOTES {
      BesideSelf(s);
    } else if s.notes[i].Some? && Retriggers(cfg, s.notes[i].value, port, e) {
      HeldValid(cfg, s, i);
      var off := OffOf(s.notes[i].value, port, e.offset);
      CutStep(cfg, s, i, off);
      var s' := NativeNote(cfg, s.(notes := s.notes[i := None]), off);
      ClashLoopInv(cfg, s', port, e, i + 1);
      BesideTrans(s, s', ClashLoop(cfg, s, port, e, i));
    } else {
      ClashLoopInv(cfg, s, port, e, i + 1);
    }
  }

  lemma ReadNoteOnInv(cfg: Config, s: Synth, port: nat, e: BusEvent)
    requires cfg.Valid() && port < |cfg.notePorts|
    requires Inv(cfg, s) && BusValid(e) && e.kind.BusNoteOn?
    ensures Inv(cfg, ReadNoteOn(cfg, s, port, e))
    ensures Beside(s, ReadNoteOn(cfg, s, port, e))
  {
    hide Join, ClashLoop, PluginEvent, Inv, Beside;
    var native := cfg.notePorts[port];
    var i := if e.joins >= 0 then FirstJoined(s.notes, native, e, 0) else HELD_NOTES;
    if i < HELD_NOTES {
      JoinInv(cfg, s, native, e, i);
    } else {
      ClashLoopInv(cfg, s, native, e, 0);
      var s1 := ClashLoop(cfg, s, native, e, 0);
      var on := BusBase(port, e).(value := e.value);
      PluginEventInv(cfg, s1, e.source, on);
      BesideTrans(s, s1, PluginEvent(cfg, s1, e.source, on));
    }
  }

  lemma Data7Range(v: real)
    ensures 0 <= Data7(v) <= 127
  {
    RoundScaled(Clamp(v, 0.0, 1.0), 127);
  }

  lemma HighNibbles(e: BusEvent, high: nat)
    requires -1 <= e.channel <= 15
    ensures HighNibble(StatusByte(16 * high, e)) == 16 * high
  {
  }

  /** Every message a bus event is spelled as has data bytes in range, and none
      is a note message. */
  lemma TranslateValid(dialect: Dialect, port: nat, e: BusEvent)
    requires BusValid(e) && !e.kind.BusNoteOn?
    ensures var t := Translate(dialect, port, e);
            t.Some? ==> t.value.port == port && ClientEvent(t.value)
  {
    hide HighNibble, StatusByte, Data7, Bend14;
    Data7Range(e.value);
    HighNibbles(e, 10);
    HighNibbles(e, 11);
    HighNibbles(e, 12);
    HighNibbles(e, 13);
    HighNibbles(e, 14);
  }

  lemma ReadBusInv(cfg: Config, s: Synth, port: nat, e: BusEvent)
    requires cfg.Valid() && Inv(cfg, s) && BusValid(e)
    ensures Inv(cfg, ReadBus(cfg, s, port, e))
    ensures Beside(s, ReadBus(cfg, s, port, e))
  {
    hide ReadNoteOn, PluginEvent, Translate;
    var s1 := s.(spreading := true);
    if port < |cfg.notePorts| {
      if e.kind.BusNoteOn? {
        ReadNoteOnInv(cfg, s1, port, e);
      } else {
        var dialect := cfg.dialects[cfg.notePorts[port]];
        TranslateValid(dialect, port, e);
        match Translate(dialect, port, e)
        case None =>
        case Some(event) => PluginEventInv(cfg, s1, e.source, event);
      }
    }
  }

  ghost predicate HeardValid(events: seq<BusEvent>) {
    forall i :: 0 <= i < |events| ==> BusValid(events[i])
  }

  lemma {:induction false} ReadAllInv(cfg: Config, s: Synth, port: nat, events: seq<BusEvent>)
    requires cfg.Valid() && Inv(cfg, s) && HeardValid(events)
    ensures Inv(cfg, ReadAll(cfg, s, port, events))
    ensures Beside(s, ReadAll(cfg, s, port, events))
    decreases |events|
  {
    hide ReadBus, Inv, Beside, BusValid;
    if events == [] {
      BesideSelf(s);
    } else {
      var s' := ReadBus(cfg, s, port, events[0]);
      ReadBusInv(cfg, s, port, events[0]);
      ReadAllInv(cfg, s', port, events[1..]);
      BesideTrans(s, s', ReadAll(cfg, s, port, events));
    }
  }

  lemma {:induction false} ReadPortsInv(cfg: Config, s: Synth, heard: seq<seq<BusEvent>>, port: nat)
    requires cfg.Valid() && Inv(cfg, s)
    requires forall p :: 0 <= p < |heard| ==> HeardValid(heard[p])
    ensures Inv(cfg, ReadPorts(cfg, s, heard, port))
    ensures Beside(s, ReadPorts(cfg, s, heard, port))
    decreases |heard| - port
  {
    hide ReadAll, Inv, Beside, HeardValid;
    if port >= |heard| {
      BesideSelf(s);
    } else {
      var s' := ReadAll(cfg, s, port, heard[port]);
      ReadAllInv(cfg, s, port, heard[port]);
      ReadPortsInv(cfg, s', heard, port + 1);
      BesideTrans(s, s', ReadPorts(cfg, s, heard, port));
    }
  }

  // ---- opening a block ----

  /** While deferred events enter an empty job, nothing changes place in the queue. */
  ghost predicate Draining(s: Synth) {
    && s.open
    && ListsValid(s)
    && (forall i :: 0 <= i < |s.job| ==> s.job[i].offset == 0)
    && (Healthy(s) && !s.history.spilled ==> InOrder(s))
  }

  lemma DrainStep(s: Synth)
    requires Draining(s) && s.deferred != [] && Accepts(s.job, s.deferred[0])
    ensures Draining(s.(job := s.job + [s.deferred[0]], deferred := s.deferred[1..]))
  {
    hide Strip, Valid;
    var s1 := s.(job := s.job + [s.deferred[0]], deferred := s.deferred[1..]);
    assert Queue(s1) == Queue(s);
    ListPush(s.job, s.deferred[0]);
  }

  /** A drain stops only at a full job. */
  lemma DrainStops(s: Synth)
    requires Draining(s) && (s.deferred == [] || !Accepts(s.job, s.deferred[0]))
    ensures WaitsBehindFull(s)
  {
    hide InOrder;
  }

  lemma {:induction false} DrainWire(s: Synth)
    requires Draining(s)
    ensures Draining(Drain(s))
    ensures var s' := Drain(s); s' == s.(job := s'.job, deferred := s'.deferred) && WaitsBehindFull(s')
    decreases |s.deferred|
  {
    hide Draining, Accepts, WaitsBehindFull;
    if s.deferred == [] || !Accepts(s.job, s.deferred[0]) {
      DrainStops(s);
    } else {
      DrainStep(s);
      DrainWire(s.(job := s.job + [s.deferred[0]], deferred := s.deferred[1..]));
    }
  }

  /** While pending events enter the job: they are in order and all come after
      what the job holds, so one is refused only for want of room. */
  ghost predicate Refilling(s: Synth) {
    && s.open
    && ListsValid(s)
    && (s.job != [] && s.pending != [] ==> s.job[|s.job| - 1].offset <= s.pending[0].offset)
    && (Healthy(s) && !s.history.spilled ==> Sound(s))
  }

  /** The head of what was pending takes the next place in the queue. */
  lemma RefillQueue(s: Synth, e: Event, rest: seq<Event>)
    requires s.open && s.pending == [e] + rest && InOrder(s)
    requires Accepts(s.job, e) ==> s.deferred == []
    ensures InOrder(if Accepts(s.job, e) then s.(job := s.job + [e], pending := rest)
                    else s.(deferred := s.deferred + [AtZero(e)], pending := rest))
  {
    if Accepts(s.job, e) {
      assert Queue(s.(job := s.job + [e], pending := rest)) == Queue(s);
    } else {
      var before := s.history.delivered + s.job + s.deferred;
      assert Queue(s) == before + ([e] + rest);
      assert Queue(s.(deferred := s.deferred + [AtZero(e)], pending := rest)) == before + ([AtZero(e)] + rest);
      StripAppend(before, [e] + rest);
      StripAppend(before, [AtZero(e)] + rest);
      assert Strip([e] + rest) == Strip([AtZero(e)] + rest);
    }
  }

  lemma RefillStep(s: Synth)
    requires Refilling(s) && s.pending != []
    ensures var s' := Place(s.(pending := s.pending[1..]), s.pending[0]).0;
            && Refilling(s')
            && s' == s.(job := s'.job, pending := s'.pending, deferred := s'.deferred, failure := s'.failure,
                        history := s.history.(spilled := s'.history.spilled))
            && (Healthy(s') ==> Healthy(s))
  {
    var e, s1 := s.pending[0], s.(pending := s.pending[1..]);
    var s' := Place(s1, e).0;
    assert ListsValid(s1);
    PlaceLists(s1, e);
    if Healthy(s') && !s'.history.spilled {
      RefillQueue(s, e, s1.pending);
      hide InOrder, ListsValid;
      assert Sound(s');
    }
  }

  lemma {:induction false} RefillWire(s: Synth)
    requires Refilling(s)
    ensures Refilling(Refill(s)) && Refill(s).pending == []
    ensures var s' := Refill(s);
            && s' == s.(job := s'.job, pending := s'.pending, deferred := s'.deferred, failure := s'.failure,
                        history := s.history.(spilled := s'.history.spilled))
            && (Healthy(s') ==> Healthy(s))
    decreases |s.pending|
  {
    if s.pending != [] {
      RefillStep(s);
      hide Place, Refilling;
      RefillWire(Place(s.(pending := s.pending[1..]), s.pending[0]).0);
    }
  }

  /** Opening an empty job and filling it with what waited keeps the invariants. */
  lemma OpenInv(cfg: Config, s: Synth)
    requires Inv(cfg, s) && !s.open
    ensures var s' := Refill(Drain(s.(open := true, job := [], spans := []))); Inv(cfg, s') && s'.open
  {
    var s0 := s.(open := true, job := [], spans := []);
    assert Queue(s0) == Queue(s);
    DrainWire(s0);
    RefillWire(Drain(s0));
  }

  // ---- what the plugin reports ----

  lemma EndLedger(t: Trace, nextNote: int, notes: seq<Option<HeldNote>>, lost: set<int>, i: nat)
    requires Ledger(t, nextNote, notes, lost) && i < |notes| && notes[i].Some?
    ensures Ledger(Then(t, Ended(notes[i].value.native)), nextNote, notes[i := None], lost)
  {
    NativesWithout(notes, i);
    assert notes[i].value.native in Natives(notes);
  }

  lemma WireSame(s: Synth, s': Synth)
    requires Wire(s)
    requires s'.open == s.open && s'.job == s.job && s'.pending == s.pending && s'.deferred == s.deferred
    requires s'.history.delivered == s.history.delivered && s'.history.spilled == s.history.spilled
    requires Log(s'.history.trace) == Log(s.history.trace)
    requires Healthy(s') ==> Healthy(s)
    ensures Wire(s')
  {
  }

  lemma TableWithout(cfg: Config, notes: seq<Option<HeldNote>>, i: nat)
    requires Table(cfg, notes) && i < |notes|
    ensures Table(cfg, notes[i := None])
  {
  }

  lemma EndNoteInv(cfg: Config, s: Synth, i: nat)
    requires Inv(cfg, s) && i < HELD_NOTES && s.notes[i].Some?
    ensures Inv(cfg, EndNote(s, i)) && Beside(s, EndNote(s, i))
  {
    hide Wire, Ring, Table, Ledger;
    WireSame(s, EndNote(s, i));
    TableWithout(cfg, s.notes, i);
    if Healthy(s) {
      EndLedger(s.history.trace, s.nextNote, s.notes, s.history.lost, i);
    }
  }

  lemma {:induction false} EndLoopInv(cfg: Config, s: Synth, e: Event, i: nat)
    requires Inv(cfg, s)
    ensures Inv(cfg, EndLoop(s, e, i)) && Beside(s, EndLoop(s, e, i))
    decreases HELD_NOTES - i
  {
    hide Inv, Beside, EndNote;
    if i >= HELD_NOTES {
      BesideSelf(s);
    } else if s.notes[i].Some? && Ends(e, s.notes[i].value) {
      EndNoteInv(cfg, s, i);
      EndLoopInv(cfg, EndNote(s, i), e, i + 1);
      BesideTrans(s, EndNote(s, i), EndLoop(s, e, i));
    } else {
      EndLoopInv(cfg, s, e, i + 1);
    }
  }

  lemma LedgerSame(t: Trace, t': Trace, nextNote: int, notes: seq<Option<HeldNote>>, lost: set<int>)
    requires t' == t || (t'.Then? && t'.past == t && t'.last.Reported?)
    ensures Ledger(t, nextNote, notes, lost) ==> Ledger(t', nextNote, notes, lost)
  {
  }

  lemma ReceiveControlInv(cfg: Config, s: Synth, e: Event)
    requires Inv(cfg, s) && Shaped(cfg, s)
    ensures var s' := ReceiveControl(cfg, s, e).0;
            && Inv(cfg, s')
            && Shaped(cfg, s')
            && s' == s.(values := s'.values, sent := s'.sent, controlEvents := s'.controlEvents, failure := s'.failure,
                        history := s.history.(trace := s'.history.trace))
            && (Healthy(s') ==> Healthy(s))
  {
    hide Wire, Ledger, Ring, Table, ReceiveControl;
    var s' := ReceiveControl(cfg, s, e).0;
    ReceiveTrace(cfg, s, e);
    ReceiveEffect(cfg, s, e);
    WireSame(s, s');
    LedgerSame(s.history.trace, s'.history.trace, s.nextNote, s.notes, s.history.lost);
  }

  lemma ReceiveEffect(cfg: Config, s: Synth, e: Event)
    requires Shaped(cfg, s)
    ensures var s' := ReceiveControl(cfg, s, e).0;
            && Shaped(cfg, s')
            && s' == s.(values := s'.values, sent := s'.sent, controlEvents := s'.controlEvents, failure := s'.failure,
                        history := s.history.(trace := s'.history.trace))
            && (Healthy(s') ==> Healthy(s))
  {
    hide ParameterIndex, Accepts, IdNumber, TakeReport, Shaped;
    var index := ParameterIndex(cfg.parameters, IdNumber(e.id), 0);
    var s' := ReceiveControl(cfg, s, e).0;
    if index < |cfg.parameters| && e.kind.Parameter? && cfg.parameters[index].min <= e.value <= cfg.parameters[index].max {
      ReportEffect(cfg, s, index, e.value);
      ShapeSame(cfg, TakeReport(s, index, e.value), s');
    } else {
      ShapeSame(cfg, s, s');
    }
  }

  lemma ShapeSame(cfg: Config, s: Synth, s': Synth)
    requires Shaped(cfg, s)
    requires s'.values == s.values && s'.maps == s.maps && s'.sent == s.sent && s'.input == s.input
    ensures Shaped(cfg, s')
  {
  }

  lemma ReportEffect(cfg: Config, s: Synth, index: nat, value: real)
    requires Shaped(cfg, s) && index < |cfg.parameters|
    ensures index < |s.maps| && index < |s.values| && index < |s.sent|
    ensures var s' := TakeReport(s, index, value);
            && Shaped(cfg, s') && s'.failure == s.failure
            && s' == s.(values := s'.values, sent := s'.sent, history := s.history.(trace := s'.history.trace))
  {
  }

  lemma ReceiveTrace(cfg: Config, s: Synth, e: Event)
    requires Shaped(cfg, s)
    ensures var t, t' := s.history.trace, ReceiveControl(cfg, s, e).0.history.trace;
            && (t' == t || (t'.Then? && t'.past == t && t'.last.Reported?))
            && Log(t') == Log(t)
  {
    hide ParameterIndex, Accepts;
  }

  /** Like `Beside`, for steps that may also move the controls. */
  ghost predicate BesideBlock(s: Synth, s': Synth) {
    && s'.open == s.open
    && s'.spans == s.spans
    && s'.input == s.input
    && s'.tempo == s.tempo
    && s'.history.jobs == s.history.jobs
    && s'.history.delivered == s.history.delivered
    && (Healthy(s') ==> Healthy(s))
  }

  lemma {:induction false} ReceiveInv(cfg: Config, s: Synth, events: seq<Event>)
    requires Inv(cfg, s) && Shaped(cfg, s)
    ensures Inv(cfg, Receive(cfg, s, events)) && Shaped(cfg, Receive(cfg, s, events))
    ensures BesideBlock(s, Receive(cfg, s, events))
    decreases |events|
  {
    hide Inv, EndLoop, ReceiveControl;
    if events != [] {
      var e := events[0];
      ReceiveControlInv(cfg, s, e);
      var (s1, more) := if IsControl(e) then ReceiveControl(cfg, s, e) else (s, true);
      if more {
        EndLoopInv(cfg, s1, e, 0);
        EndLoopShape(cfg, s1, e, 0);
        ReceiveInv(cfg, if e.kind.NoteEnd? then EndLoop(s1, e, 0) else s1, events[1..]);
      }
    }
  }

  /** The staged input and the spans are no part of what the invariants say. */
  lemma StagingInv(cfg: Config, s: Synth, input: seq<real>, spans: seq<Span>)
    requires Inv(cfg, s)
    ensures Inv(cfg, s.(input := input)) && Inv(cfg, s.(spans := spans))
  {
    hide Ledger, Ring, Table, Wire;
    WireSame(s, s.(input := input));
    WireSame(s, s.(spans := spans));
  }

  lemma OpenJobInv(cfg: Config, s: Synth, slice: Slice)
    requires Inv(cfg, s) && Shaped(cfg, s) && !s.open
    ensures Inv(cfg, OpenJob(cfg, s, slice)) && Shaped(cfg, OpenJob(cfg, s, slice))
    ensures OpenJob(cfg, s, slice).open
  {
    hide Receive, Drain, Refill, Inv;
    OpenInv(cfg, s);
    var s0 := s.(open := true, job := [], spans := []);
    DrainShape(cfg, s0);
    RefillShape(cfg, Drain(s0));
    var s1 := Refill(Drain(s0));
    var s2 := s1.(input := Zeros(|s1.input|));
    StagingInv(cfg, s1, Zeros(|s1.input|), []);
    ReceiveInv(cfg, s2, slice.received);
    StagingInv(cfg, Receive(cfg, s2, slice.received), [], [Span(0, slice.offset, false, false, 0, 120.0)]);
  }

  ghost predicate SliceValid(slice: Slice) {
    forall p :: 0 <= p < |slice.heard| ==> HeardValid(slice.heard[p])
  }

  lemma PrepareInv(cfg: Config, s: Synth, slice: Slice, quiet: bool)
    requires cfg.Valid() && Inv(cfg, s) && Shaped(cfg, s) && SliceValid(slice)
    ensures Inv(cfg, Prepare(cfg, s, slice, quiet)) && Shaped(cfg, Prepare(cfg, s, slice, quiet))
    ensures !quiet ==> Prepare(cfg, s, slice, quiet).open
  {
    hide OpenJob, ReadPorts;
    if !quiet {
      if !s.open { OpenJobInv(cfg, s, slice); }
      var s1 := if s.open then s else OpenJob(cfg, s, slice);
      if |s1.spans| != SPANS {
        ReadPortsInv(cfg, s1.(spans := s1.spans + [SpanOf(s1, slice)]), slice.heard, 0);
      }
    }
  }

  // ---- processing and closing a block ----

  lemma SendParameterInv(cfg: Config, s: Synth, i: nat, offset: nat)
    requires Inv(cfg, s) && Shaped(cfg, s) && s.open && i < |cfg.parameters|
    ensures var s' := SendParameter(cfg, s, i, offset); Inv(cfg, s') && Shaped(cfg, s') && s'.open
  {
    hide FloatEqual;
    var p := cfg.parameters[i];
    if !FloatEqual(s.sent[i], s.values[i]) && !p.readOnly && !OutOfRange(p, s.values[i]) && |s.job| < PARAMETER_EVENTS {
      var e := ParameterEvent(p, s.values[i].v, offset);
      if Accepts(s.job, e) {
        EmitInv(cfg, s, e);
      }
    }
  }

  lemma {:induction false} SendParametersInv(cfg: Config, s: Synth, offset: nat, i: nat)
    requires Inv(cfg, s) && Shaped(cfg, s) && s.open
    ensures var s' := SendParameters(cfg, s, offset, i); Inv(cfg, s') && Shaped(cfg, s') && s'.open
    decreases |cfg.parameters| - i
  {
    hide Inv, SendParameter;
    if i < |cfg.parameters| {
      SendParameterInv(cfg, s, i, offset);
      SendParametersInv(cfg, SendParameter(cfg, s, i, offset), offset, i + 1);
    }
  }

  lemma ProcessInv(cfg: Config, s: Synth, offset: nat, frames: nat, readings: seq<Float>, audio: seq<seq<real>>,
                   quiet: bool)
    requires Inv(cfg, s) && Shaped(cfg, s) && s.open
    requires |readings| == |s.values| && forall b :: 0 <= b < |audio| ==> |audio[b]| == FRAMES
    ensures var s' := Process(cfg, s, offset, frames, readings, audio, quiet); Inv(cfg, s') && Shaped(cfg, s') && s'.open
  {
    hide SendParameters;
    if !quiet {
      var s1 := s.(values := FollowMaps(s, readings));
      SendParametersInv(cfg, s1, offset, 0);
    }
  }

  lemma FinishInv(cfg: Config, s: Synth, slotFree: bool, aborted: bool)
    requires Inv(cfg, s) && Shaped(cfg, s)
    ensures Inv(cfg, Finish(s, slotFree, aborted)) && Shaped(cfg, Finish(s, slotFree, aborted))
  {
    hide SpansValid;
    if s.open {
      assert Queue(Publish(s, slotFree).(open := false)) == Queue(s) || !Healthy(Publish(s, slotFree));
    }
  }
}
