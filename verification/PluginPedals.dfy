/** The sustain pedals: what a released note that still sounds owes its sound to. */
module PluginPedals {
  import opened Wrappers
  import opened PluginWire
  import opened PluginModel
  import opened PluginInvariants
  import opened PluginSteps
  import opened PluginRuns

  /** Whether a pedal is down over a note: of its source and port, and of its
      channel or of every one. */
  predicate Over(p: Pedal, n: HeldNote) {
    p.down && p.source == n.source && p.port == n.port && (p.channel == -1 || p.channel == n.channel)
  }

  predicate HeldDown(pedals: seq<Option<Pedal>>, n: HeldNote) {
    exists i :: 0 <= i < |pedals| && pedals[i].Some? && Over(pedals[i].value, n)
  }

  lemma SustainedIs(pedals: seq<Option<Pedal>>, n: HeldNote)
    ensures Sustained(pedals, n) <==> HeldDown(pedals, n)
  {
  }

  /** Every released note still held is under a pedal still down. */
  ghost predicate Cover(notes: seq<Option<HeldNote>>, pedals: seq<Option<Pedal>>) {
    forall i :: 0 <= i < |notes| && notes[i].Some? && notes[i].value.released ==> HeldDown(pedals, notes[i].value)
  }

  /** Stored pedals are down, one for each source, port and channel. */
  ghost predicate OnePedalEach(pedals: seq<Option<Pedal>>) {
    && (forall i :: 0 <= i < |pedals| && pedals[i].Some? ==> pedals[i].value.down)
    && (forall i, j :: 0 <= i < j < |pedals| && pedals[i].Some? && pedals[j].Some? ==>
          !SamePedal(pedals[i], pedals[j].value.source, pedals[j].value.port, pedals[j].value.channel))
  }

  ghost predicate PedalInv(s: Synth) {
    Cover(s.notes, s.pedals) && OnePedalEach(s.pedals)
  }

  // ---- steps that leave the pedals alone ----

  lemma {:induction false} NoteLoopCover(cfg: Config, s: Synth, source: nat, e: Event, i: nat)
    requires cfg.HasPort(e.port) && Cover(s.notes, s.pedals)
    ensures var s' := NoteLoop(cfg, s, source, e, i); Cover(s'.notes, s'.pedals) && s'.pedals == s.pedals
    decreases HELD_NOTES - i
  {
    hide Emit, InDialect;
    if i < HELD_NOTES && s.notes[i].Some? {
      var own := ToOwned(e, s.notes[i].value);
      EmitEffect(s, own);
      EmitEffect(s.(notes := s.notes[i := None]), InDialect(cfg, own));
      NoteLoopCover(cfg, s, source, e, i + 1);
      if e.kind.Expression? {
        NoteLoopCover(cfg, Emit(s, own), source, e, i + 1);
      } else {
        NoteLoopCover(cfg, NativeNote(cfg, s.(notes := s.notes[i := None]), own), source, e, i + 1);
      }
    } else if i < HELD_NOTES {
      NoteLoopCover(cfg, s, source, e, i + 1);
    }
  }

  lemma NoteEventCover(cfg: Config, s: Synth, source: nat, e: Event)
    requires cfg.HasPort(e.port) && Cover(s.notes, s.pedals)
    ensures var s' := NoteEvent(cfg, s, source, e); Cover(s'.notes, s'.pedals) && s'.pedals == s.pedals
  {
    hide Emit, InDialect, Clashes, NoteLoop;
    if e.kind.NoteOn? {
      var slot := FirstFree(s.notes, 0);
      if slot < HELD_NOTES {
        var next := s.nextNote + 1;
        var note := HeldNote(source, e.noteId, next, e.port, e.channel, e.key, false);
        EmitEffect(s.(nextNote := next, notes := s.notes[slot := Some(note)]), InDialect(cfg, e.(noteId := next)));
      }
    } else {
      NoteLoopCover(cfg, s, source, e, 0);
    }
  }

  /** Whether lifting a pedal ends a note: one of its source and port, and of its
      channel or it of every one, whose off had come. */
  predicate UnderPedal(n: HeldNote, source: nat, port: int, channel: int) {
    n.released && n.source == source && n.port == port && (channel == -1 || channel == n.channel)
  }

  /** What lifting a pedal leaves of the notes from slot `i` on. */
  function Unlifted(notes: NoteTable, source: nat, port: int, channel: int, i: nat): NoteTable {
    seq(HELD_NOTES, k requires 0 <= k < HELD_NOTES =>
      if i <= k && notes[k].Some? && UnderPedal(notes[k].value, source, port, channel) then None else notes[k])
  }

  lemma {:induction false} LiftLoopNotes(cfg: Config, s: Synth, source: nat, address: Event, i: nat)
    requires cfg.HasPort(address.port)
    ensures var s' := LiftLoop(cfg, s, source, address, i);
            s'.notes == Unlifted(s.notes, source, address.port, address.channel, i) && s'.pedals == s.pedals
    decreases HELD_NOTES - i
  {
    hide Emit, InDialect;
    if i < HELD_NOTES {
      if s.notes[i].Some? && Lifts(s.notes[i].value, source, address.port, address.channel) {
        var note := s.notes[i].value;
        var off := address.(kind := NoteOff, noteId := note.native, key := note.key, value := 0.0);
        var s1 := LiftOut(cfg, s, address, i);
        EmitEffect(s1, InDialect(cfg, off));
        LiftLoopNotes(cfg, NativeNote(cfg, s1, off), source, address, i + 1);
      } else {
        LiftLoopNotes(cfg, s, source, address, i + 1);
      }
    }
  }

  // ---- the pedal itself ----

  /** A pedal has a slot: one free, or the one it is in already. */
  predicate PedalRoom(pedals: PedalTable, source: nat, port: int, channel: int) {
    exists i :: 0 <= i < PEDALS
                && (pedals[i].None? || (&& pedals[i].value.source == source && pedals[i].value.port == port
                                        && pedals[i].value.channel == channel))
  }

  lemma RoomIs(pedals: PedalTable, source: nat, port: nat, channel: int)
    ensures PedalSlot(pedals, source, port, channel, 0) < PEDALS <==> PedalRoom(pedals, source, port, channel)
  {
    if PedalSlot(pedals, source, port, channel, 0) == PEDALS { NoRoom(pedals, source, port, channel, 0); }
  }

  lemma {:induction false} NoRoom(pedals: PedalTable, source: nat, port: nat, channel: int, i: nat)
    requires i <= PEDALS && PedalSlot(pedals, source, port, channel, i) == PEDALS
    ensures forall j :: 0 <= j < PEDALS ==> pedals[j].Some?
    decreases PEDALS - i
  {
    if i < PEDALS { NoRoom(pedals, source, port, channel, i + 1); }
  }

  lemma LiftCover(notes: NoteTable, pedals: PedalTable, source: nat, port: nat, channel: int, index: nat)
    requires Cover(notes, pedals) && OnePedalEach(pedals) && index < PEDALS
    requires pedals[index].None? || SamePedal(pedals[index], source, port, channel)
    ensures Cover(Unlifted(notes, source, port, channel, 0), pedals[index := None])
    ensures OnePedalEach(pedals[index := None])
  {
    var notes', pedals' := Unlifted(notes, source, port, channel, 0), pedals[index := None];
    forall i | 0 <= i < HELD_NOTES && notes'[i].Some? && notes'[i].value.released
      ensures HeldDown(pedals', notes'[i].value)
    {
      assert notes'[i] == notes[i];
      assert HeldDown(pedals, notes[i].value);
      var k :| 0 <= k < PEDALS && pedals[k].Some? && Over(pedals[k].value, notes[i].value);
      assert pedals'[k] == pedals[k];
    }
  }

  lemma DownCover(notes: NoteTable, pedals: PedalTable, p: Pedal, index: nat)
    requires Cover(notes, pedals) && OnePedalEach(pedals) && index < PEDALS && p.down
    requires
      || SamePedal(pedals[index], p.source, p.port, p.channel)
      || (pedals[index].None? && forall j :: 0 <= j < PEDALS ==> !SamePedal(pedals[j], p.source, p.port, p.channel))
    ensures Cover(notes, pedals[index := Some(p)]) && OnePedalEach(pedals[index := Some(p)])
  {
    var pedals' := pedals[index := Some(p)];
    forall i | 0 <= i < HELD_NOTES && notes[i].Some? && notes[i].value.released
      ensures HeldDown(pedals', notes[i].value)
    {
      var k :| 0 <= k < PEDALS && pedals[k].Some? && Over(pedals[k].value, notes[i].value);
      assert pedals'[k].Some? && Over(pedals'[k].value, notes[i].value);
    }
    assert forall j :: 0 <= j < PEDALS && j != index ==> !SamePedal(pedals[j], p.source, p.port, p.channel);
  }

  /** A pedal message that is not refused for want of a slot leaves exactly its
      own pedal changed, and a lift ends exactly the released notes of its
      source, port and channel. */
  lemma PedalEventExactly(cfg: Config, s: Synth, source: nat, e: Event)
    requires cfg.HasPort(e.port) && PedalInv(s)
    requires PedalRoom(s.pedals, source, e.port, MidiAddress(e).channel)
    ensures var s' := PedalEvent(cfg, s, source, e);
            var channel := MidiAddress(e).channel;
            var down := Data2(e.id) >= 64;
            && PedalInv(s')
            && (forall p: Pedal :: Some(p) in s'.pedals <==>
                 if p.source == source && p.port == e.port && p.channel == channel then down && p.down
                 else Some(p) in s.pedals)
            && (forall i :: 0 <= i < HELD_NOTES ==>
                 s'.notes[i] ==
                 if !down && s.notes[i].Some? && UnderPedal(s.notes[i].value, source, e.port, channel) then None else s.notes[i])
  {
    hide Emit, PedalSlot, LiftLoop, Cover, OnePedalEach, Lifts, PedalRoom;
    var address := MidiAddress(e);
    RoomIs(s.pedals, source, e.port, address.channel);
    var index := PedalSlot(s.pedals, source, e.port, address.channel, 0);
    var down := Data2(e.id) >= 64;
    var p := Pedal(source, e.port, address.channel, true);
    var entry := if down then Some(p) else None;
    var s1 := s.(pedals := s.pedals[index := entry]);
    EmitEffect(s1, e);
    SlotOf(s.pedals, source, e.port, address.channel);
    PedalsNow(s.pedals, source, e.port, address.channel, index, down);
    if down {
      DownCover(s.notes, s.pedals, p, index);
    } else {
      LiftCover(s.notes, s.pedals, source, e.port, address.channel, index);
      LiftLoopNotes(cfg, if cfg.dialects[e.port].midi then Emit(s1, e) else s1, source, address, 0);
    }
  }

  lemma SlotOf(pedals: PedalTable, source: nat, port: nat, channel: int)
    ensures var k := PedalSlot(pedals, source, port, channel, 0);
            k < PEDALS ==>
              || SamePedal(pedals[k], source, port, channel)
              || (pedals[k].None? && forall j :: 0 <= j < PEDALS ==> !SamePedal(pedals[j], source, port, channel))
  {
  }

  lemma PedalsNow(pedals: PedalTable, source: nat, port: nat, channel: int, index: nat, down: bool)
    requires OnePedalEach(pedals) && index < PEDALS
    requires
      || SamePedal(pedals[index], source, port, channel)
      || (pedals[index].None? && forall j :: 0 <= j < PEDALS ==> !SamePedal(pedals[j], source, port, channel))
    ensures var pedals' := pedals[index := if down then Some(Pedal(source, port, channel, true)) else None];
            forall p: Pedal :: Some(p) in pedals' <==>
              if p.source == source && p.port == port && p.channel == channel then down && p.down
              else Some(p) in pedals
  {
    var entry := if down then Some(Pedal(source, port, channel, true)) else None;
    var pedals' := pedals[index := entry];
    forall p: Pedal
      ensures Some(p) in pedals' <==>
              if p.source == source && p.port == port && p.channel == channel then down && p.down
              else Some(p) in pedals
    {
      if p.source == source && p.port == port && p.channel == channel {
        assert forall j :: 0 <= j < PEDALS && j != index ==> pedals[j] != Some(p);
        assert pedals'[index] == entry;
      } else if Some(p) in pedals {
        var j :| 0 <= j < PEDALS && pedals[j] == Some(p);
        assert pedals'[j] == Some(p);
      }
    }
  }

  // ---- every step ----

  lemma MidiEventPedals(cfg: Config, s: Synth, source: nat, e: Event)
    requires cfg.HasPort(e.port) && PedalInv(s)
    ensures PedalInv(MidiEvent(cfg, s, source, e))
  {
    hide NoteEvent, PedalEvent, Emit, PedalInv, PedalSlot, PedalRoom;
    var status := HighNibble(Status(e.id));
    var data1, data2 := Data1(e.id), Data2(e.id);
    var address := MidiAddress(e);
    if status == 0x80 || status == 0x90 {
      NotePedals(cfg, s, source,
                 address.(kind := if status == 0x90 && data2 != 0 then NoteOn else NoteOff,
                          key := data1,
                          value := data2 as real / 127.0));
    } else if status == 0xb0 && data1 == 64 {
      if PedalRoom(s.pedals, source, e.port, address.channel) {
        PedalEventExactly(cfg, s, source, e);
      } else {
        FullPedals(cfg, s, source, e);
        SamePedals(s, Fail(s, Capacity));
      }
    } else if status == 0xb0 && (data1 == 120 || data1 == 123) {
      NotePedals(cfg, s, source, address.(kind := NoteChoke));
    } else if cfg.dialects[e.port].midi {
      EmitEffect(s, e);
      SamePedals(s, Emit(s, e));
    } else {
      match AsExpression(status, data1, data2)
      case None => SamePedals(s, Fail(s, Protocol));
      case Some((id, key, value)) =>
        NotePedals(cfg, s, source, address.(kind := Expression, id := Number(id), key := key, value := value));
    }
  }

  /** One with no slot is refused, and fails the instance. */
  lemma FullPedals(cfg: Config, s: Synth, source: nat, e: Event)
    requires cfg.HasPort(e.port) && !PedalRoom(s.pedals, source, e.port, MidiAddress(e).channel)
    ensures PedalEvent(cfg, s, source, e) == Fail(s, Capacity)
  {
    hide PedalSlot, PedalRoom, LiftLoop, Emit;
    RoomIs(s.pedals, source, e.port, MidiAddress(e).channel);
  }

  lemma SamePedals(s: Synth, s': Synth)
    requires PedalInv(s) && s'.notes == s.notes && s'.pedals == s.pedals
    ensures PedalInv(s')
  {
  }

  lemma NotePedals(cfg: Config, s: Synth, source: nat, e: Event)
    requires cfg.HasPort(e.port) && PedalInv(s)
    ensures PedalInv(NoteEvent(cfg, s, source, e))
  {
    NoteEventCover(cfg, s, source, e);
  }

  lemma PluginEventPedals(cfg: Config, s: Synth, source: nat, e: Event)
    requires cfg.Valid() && PedalInv(s)
    ensures PedalInv(PluginEvent(cfg, s, source, e))
  {
    hide NoteEvent, MidiEvent, PedalInv;
    if e.port < 0 || e.port >= |cfg.notePorts| {
      SamePedals(s, Fail(s, Protocol));
    } else {
      var e' := e.(port := cfg.notePorts[e.port]);
      if e.kind.Midi? {
        MidiEventPedals(cfg, s, source, e');
      } else {
        NotePedals(cfg, s, source, e');
      }
    }
  }

  /** What a release leaves of the notes from slot `i` on. */
  function Ungoverned(notes: NoteTable, scope: Scope, i: nat): NoteTable {
    seq(HELD_NOTES, k requires 0 <= k < HELD_NOTES =>
      if i <= k && notes[k].Some? && Governs(scope, notes[k].value.source) then None else notes[k])
  }

  lemma ChokeLeaves(cfg: Config, s: Synth, offset: nat, i: nat)
    requires i < HELD_NOTES && s.notes[i].Some? && PortsKnown(cfg, s.notes) && s.nextOrphan < ORPHANS
    ensures var s' := ChokeSlot(cfg, s, offset, i);
            && s'.notes == s.notes[i := None] && s'.pedals == s.pedals
            && PortsKnown(cfg, s'.notes) && s'.nextOrphan < ORPHANS
  {
    hide Emit, InDialect;
    var note := s.notes[i].value;
    var s1 := if note.id == -1 then RecordCut(s, Orphan(note.source, note.port, note.channel, note.key), note.released) else s;
    EmitEffect(s1.(notes := s1.notes[i := None]), InDialect(cfg, ChokeOf(note, offset)));
  }

  lemma {:induction false} ReleaseLoopNotes(cfg: Config, s: Synth, scope: Scope, offset: nat, i: nat)
    requires PortsKnown(cfg, s.notes) && s.nextOrphan < ORPHANS
    ensures var s' := ReleaseLoop(cfg, s, scope, offset, i);
            s'.notes == Ungoverned(s.notes, scope, i) && s'.pedals == s.pedals
    decreases HELD_NOTES - i
  {
    hide ChokeSlot, Governs;
    if i < HELD_NOTES {
      if s.notes[i].Some? && Governs(scope, s.notes[i].value.source) {
        ChokeLeaves(cfg, s, offset, i);
        ReleaseLoopNotes(cfg, ChokeSlot(cfg, s, offset, i), scope, offset, i + 1);
      } else {
        ReleaseLoopNotes(cfg, s, scope, offset, i + 1);
      }
    }
  }

  lemma ReleasePedals(cfg: Config, s: Synth, scope: Scope, offset: nat)
    requires PortsKnown(cfg, s.notes) && s.nextOrphan < ORPHANS && PedalInv(s)
    ensures PedalInv(Release(cfg, s, scope, offset))
  {
    hide ReleaseLoop, Governs;
    ReleaseLoopNotes(cfg, s, scope, offset, 0);
    var notes', pedals' := Ungoverned(s.notes, scope, 0), DropPedals(s.pedals, scope);
    forall i | 0 <= i < HELD_NOTES && notes'[i].Some? && notes'[i].value.released
      ensures HeldDown(pedals', notes'[i].value)
    {
      assert HeldDown(s.pedals, s.notes[i].value);
      var k :| 0 <= k < PEDALS && s.pedals[k].Some? && Over(s.pedals[k].value, s.notes[i].value);
      assert pedals'[k] == s.pedals[k];
    }
  }

  lemma JoinPedals(cfg: Config, s: Synth, port: nat, e: BusEvent, i: nat)
    requires cfg.HasPort(port) && i < HELD_NOTES && s.notes[i].Some? && PedalInv(s)
    ensures PedalInv(Join(cfg, s, port, e, i))
  {
    hide NoteEvent, Emit, InDialect;
    var held := s.notes[i].value;
    if held.key != e.key {
      NotePedals(cfg, s, e.source, BusAttack(port, e));
      var s1 := NoteEvent(cfg, s, e.source, BusAttack(port, e));
      var j := FirstNative(s1.notes, held.native, 0);
      if j < HELD_NOTES {
        EmitEffect(s1.(notes := s1.notes[j := None]), InDialect(cfg, OffOf(held, port, e.offset)));
      }
    }
  }

  lemma {:induction false} ClashLoopPedals(cfg: Config, s: Synth, port: nat, e: BusEvent, i: nat)
    requires cfg.HasPort(port) && PedalInv(s)
    ensures PedalInv(ClashLoop(cfg, s, port, e, i))
    decreases HELD_NOTES - i
  {
    hide Emit, InDialect;
    if i < HELD_NOTES {
      if s.notes[i].Some? && Retriggers(cfg, s.notes[i].value, port, e) {
        var s1 := s.(notes := s.notes[i := None]);
        var off := OffOf(s.notes[i].value, port, e.offset);
        EmitEffect(s1, InDialect(cfg, off));
        ClashLoopPedals(cfg, NativeNote(cfg, s1, off), port, e, i + 1);
      } else {
        ClashLoopPedals(cfg, s, port, e, i + 1);
      }
    }
  }

  lemma ReadBusPedals(cfg: Config, s: Synth, port: nat, e: BusEvent)
    requires cfg.Valid() && PedalInv(s)
    ensures PedalInv(ReadBus(cfg, s, port, e))
  {
    hide Join, ClashLoop, PluginEvent, Translate;
    var s1 := s.(spreading := true);
    if port < |cfg.notePorts| {
      if e.kind.BusNoteOn? {
        var native := cfg.notePorts[port];
        var i := if e.joins >= 0 then FirstJoined(s1.notes, native, e, 0) else HELD_NOTES;
        if i < HELD_NOTES {
          JoinPedals(cfg, s1, native, e, i);
        } else {
          ClashLoopPedals(cfg, s1, native, e, 0);
          PluginEventPedals(cfg, ClashLoop(cfg, s1, native, e, 0), e.source, BusBase(port, e).(value := e.value));
        }
      } else {
        match Translate(cfg.dialects[cfg.notePorts[port]], port, e)
        case None =>
        case Some(event) => PluginEventPedals(cfg, s1, e.source, event);
      }
    }
  }

  lemma {:induction false} ReadPortsPedals(cfg: Config, s: Synth, heard: seq<seq<BusEvent>>, port: nat)
    requires cfg.Valid() && PedalInv(s)
    ensures PedalInv(ReadPorts(cfg, s, heard, port))
    decreases |heard| - port
  {
    hide ReadAll, PedalInv;
    if port < |heard| {
      ReadAllPedals(cfg, s, port, heard[port]);
      ReadPortsPedals(cfg, ReadAll(cfg, s, port, heard[port]), heard, port + 1);
    }
  }

  lemma {:induction false} ReadAllPedals(cfg: Config, s: Synth, port: nat, events: seq<BusEvent>)
    requires cfg.Valid() && PedalInv(s)
    ensures PedalInv(ReadAll(cfg, s, port, events))
    decreases |events|
  {
    hide ReadBus, PedalInv;
    if events != [] {
      ReadBusPedals(cfg, s, port, events[0]);
      ReadAllPedals(cfg, ReadBus(cfg, s, port, events[0]), port, events[1..]);
    }
  }

  lemma {:induction false} EndLoopPedals(s: Synth, e: Event, i: nat)
    requires PedalInv(s)
    ensures PedalInv(EndLoop(s, e, i))
    decreases HELD_NOTES - i
  {
    if i < HELD_NOTES {
      if s.notes[i].Some? && Ends(e, s.notes[i].value) {
        EndLoopPedals(EndNote(s, i), e, i + 1);
      } else {
        EndLoopPedals(s, e, i + 1);
      }
    }
  }

  lemma {:induction false} ReceivePedals(cfg: Config, s: Synth, events: seq<Event>)
    requires Shaped(cfg, s) && PedalInv(s)
    ensures PedalInv(Receive(cfg, s, events))
    decreases |events|
  {
    hide PedalInv, EndLoop;
    if events != [] {
      var e := events[0];
      var (s1, more) := if IsControl(e) then ReceiveControl(cfg, s, e) else (s, true);
      SamePedals(s, s1);
      if more {
        EndLoopPedals(s1, e, 0);
        EndLoopShape(cfg, s1, e, 0);
        ReceivePedals(cfg, if e.kind.NoteEnd? then EndLoop(s1, e, 0) else s1, events[1..]);
      }
    }
  }

  lemma DrainTables(s: Synth)
    ensures Drain(s).notes == s.notes && Drain(s).pedals == s.pedals
    decreases |s.deferred|
  {
  }

  lemma RefillTables(s: Synth)
    ensures Refill(s).notes == s.notes && Refill(s).pedals == s.pedals
    decreases |s.pending|
  {
  }

  lemma PreparePedals(cfg: Config, s: Synth, slice: Slice, quiet: bool)
    requires cfg.Valid() && Shaped(cfg, s) && PedalInv(s)
    ensures PedalInv(Prepare(cfg, s, slice, quiet))
  {
    hide Drain, Refill, Receive, ReadPorts, PedalInv;
    if !quiet {
      var s0 := s.(open := true, job := [], spans := []);
      DrainShape(cfg, s0);
      RefillShape(cfg, Drain(s0));
      DrainTables(s0);
      RefillTables(Drain(s0));
      var s1 := Refill(Drain(s0));
      var s2 := s1.(input := Zeros(|s1.input|));
      SamePedals(s, s2);
      ReceivePedals(cfg, s2, slice.received);
      var s3 := if s.open then s else OpenJob(cfg, s, slice);
      if !s.open { SamePedals(Receive(cfg, s2, slice.received), s3); }
      SamePedals(s3, Fail(s3, Capacity));
      SamePedals(s3, s3.(spans := s3.spans + [SpanOf(s3, slice)]));
      ReadPortsPedals(cfg, s3.(spans := s3.spans + [SpanOf(s3, slice)]), slice.heard, 0);
    }
  }

  lemma SendParametersTables(cfg: Config, s: Synth, offset: nat, i: nat)
    requires Shaped(cfg, s)
    ensures var s' := SendParameters(cfg, s, offset, i); s'.notes == s.notes && s'.pedals == s.pedals
    decreases |cfg.parameters| - i
  {
  }

  lemma DoPedals(cfg: Config, s: Synth, step: Step)
    requires Good(cfg, s) && StepValid(cfg, step) && PedalInv(s)
    ensures PedalInv(Do(cfg, s, step))
  {
    hide PedalInv, PluginEvent, ReadBus, Release, Prepare, SendParameters, Stage;
    match step
    case Client(source, e) => PluginEventPedals(cfg, s, source, e);
    case Addressed(e) => if cfg.notePorts != [] { ReadBusPedals(cfg, s, 0, e); }
    case Stop(scope, offset) => ReleasePedals(cfg, s, scope, offset);
    case RunSlice(slice, quiet, sounding) =>
      PreparePedals(cfg, s, slice, quiet);
      PrepareInv(cfg, s, slice, quiet);
      var s1 := Prepare(cfg, s, slice, quiet);
      if sounding.Some? {
        var p := sounding.value;
        SendParametersTables(cfg, s1.(values := FollowMaps(s1, p.readings)), slice.offset, 0);
        SamePedals(s1, Process(cfg, s1, slice.offset, slice.frames, p.readings, p.audio, p.quiet));
      }
    case Close(slotFree, aborted) => SamePedals(s, Finish(s, slotFree, aborted));
    case Set(i, v) => SamePedals(s, SetControl(cfg, s, i, v));
    case Map(i, to) => SamePedals(s, MapControl(cfg, s, i, to));
    case Tempo(bpm) => SamePedals(s, s.(tempo := bpm));
    case Reply => SamePedals(s, DrainReplies(s));
  }

  lemma {:induction false} RunPedals(cfg: Config, s: Synth, steps: seq<Step>)
    requires Good(cfg, s) && PedalInv(s) && forall i :: 0 <= i < |steps| ==> StepValid(cfg, steps[i])
    ensures PedalInv(Run(cfg, s, steps))
    decreases |steps|
  {
    hide Good, StepValid, Do, PedalInv;
    if steps != [] {
      DoGood(cfg, s, steps[0]);
      DoPedals(cfg, s, steps[0]);
      RunPedals(cfg, Do(cfg, s, steps[0]), steps[1..]);
    }
  }

  /** In every reachable state, failed or not, a released note still held is
      covered by a stored pedal, and stored pedals are down and one for each
      source, port and channel. */
  lemma SustainedNotesAreCovered(cfg: Config, s: Synth)
    requires Reachable(cfg, s)
    ensures Cover(s.notes, s.pedals) && OnePedalEach(s.pedals)
  {
    hide Good, StepValid, Cover, OnePedalEach;
    var defaults, steps :| ReachedBy(cfg, s, defaults, steps);
    FreshGood(cfg, defaults);
    FreshPedals(cfg, defaults);
    RunPedals(cfg, Fresh(cfg, defaults), steps);
  }

  lemma FreshPedals(cfg: Config, defaults: seq<Float>)
    requires |defaults| == cfg.Controls()
    ensures PedalInv(Fresh(cfg, defaults))
  {
  }
}
