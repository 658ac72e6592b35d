/** Notes on a shared bus: what collides ends first, so a writer's overlap is no
    fault -- unless the note-on says it continues another. */
module PluginBus {
  import opened Wrappers
  import opened PluginWire
  import opened PluginModel
  import opened PluginInvariants
  import opened PluginSteps

  /** Whether a held note is in the way of a note-on: its own source's under the same
      identity on the port, or, where the port takes only MIDI, one on its key. */
  predicate InTheWay(cfg: Config, n: HeldNote, port: nat, source: nat, id: int, channel: int, key: int)
    requires cfg.HasPort(port)
  {
    && n.port == port
    && ((id >= 0 && n.source == source && n.id == id)
        || (!cfg.dialects[port].native && n.channel == channel && n.key == key))
  }

  predicate AnyInTheWay(cfg: Config, notes: NoteTable, port: nat, source: nat, id: int, channel: int, key: int)
    requires cfg.HasPort(port)
  {
    exists k :: 0 <= k < HELD_NOTES && notes[k].Some? && InTheWay(cfg, notes[k].value, port, source, id, channel, key)
  }

  lemma ClashIs(cfg: Config, n: HeldNote, source: nat, e: Event)
    requires cfg.HasPort(e.port)
    ensures Clash(cfg, n, source, e) <==> InTheWay(cfg, n, e.port, source, e.noteId, e.channel, e.key)
  {
  }

  lemma ClashesAre(cfg: Config, notes: NoteTable, source: nat, e: Event)
    requires cfg.HasPort(e.port)
    ensures Clashes(cfg, notes, source, e) <==> AnyInTheWay(cfg, notes, e.port, source, e.noteId, e.channel, e.key)
  {
    if AnyInTheWay(cfg, notes, e.port, source, e.noteId, e.channel, e.key) {
      var k :| 0 <= k < HELD_NOTES && notes[k].Some? && InTheWay(cfg, notes[k].value, e.port, source, e.noteId, e.channel, e.key);
      assert Clash(cfg, notes[k].value, source, e);
    }
  }

  /** A note-on faults if and only if a held note is in its way. Else it is refused
      for capacity, with the table full or identities used up, or the note is in
      the first free slot under the next identity. No other note changes. */
  lemma AttackExactly(cfg: Config, s: Synth, source: nat, e: Event)
    requires cfg.HasPort(e.port) && e.kind.NoteOn?
    ensures var s', slot := NoteEvent(cfg, s, source, e), FirstFree(s.notes, 0);
            if AnyInTheWay(cfg, s.notes, e.port, source, e.noteId, e.channel, e.key) then s' == Fail(s, Protocol)
            else if slot == HELD_NOTES || s.nextNote + 1 >= 0x8000_0000 then s' == Fail(s, Capacity)
            else
              && s'.nextNote == s.nextNote + 1
              && s'.notes == s.notes[slot := Some(HeldNote(source, e.noteId, s.nextNote + 1, e.port, e.channel, e.key, false))]
              && (Healthy(s') ==>
                    Log(s'.history.trace) == Log(s.history.trace) +
                    [InDialect(cfg, Event(e.offset, NoteOn, e.id, s.nextNote + 1, e.port, e.channel, e.key, e.value))])
  {
    hide Emit, InDialect, Clashes, AnyInTheWay, FirstFree;
    ClashesAre(cfg, s.notes, source, e);
    var slot := FirstFree(s.notes, 0);
    if slot < HELD_NOTES {
      var next := s.nextNote + 1;
      var note := HeldNote(source, e.noteId, next, e.port, e.channel, e.key, false);
      EmitEffect(s.(nextNote := next, notes := s.notes[slot := Some(note)]), InDialect(cfg, e.(noteId := next)));
    }
  }

  /** The notes a note-on of the bus leaves standing, from slot `i` on. */
  function Standing(cfg: Config, notes: NoteTable, port: nat, e: BusEvent, i: nat): NoteTable
    requires cfg.HasPort(port)
  {
    seq(HELD_NOTES, k requires 0 <= k < HELD_NOTES =>
      if i <= k && notes[k].Some? && InTheWay(cfg, notes[k].value, port, e.source, e.noteId, e.channel, e.key)
      then None else notes[k])
  }

  /** The note-offs of the others, from slot `i` on. */
  function Retriggered(cfg: Config, notes: NoteTable, port: nat, e: BusEvent, i: nat): seq<Event>
    requires cfg.HasPort(port)
    decreases HELD_NOTES - i
  {
    if i >= HELD_NOTES then []
    else
      (if notes[i].Some? && InTheWay(cfg, notes[i].value, port, e.source, e.noteId, e.channel, e.key)
       then [InDialect(cfg, OffFor(notes[i].value, port, e.offset))] else [])
      + Retriggered(cfg, notes, port, e, i + 1)
  }

  /** A note's off, at a frame of the block. */
  function OffFor(n: HeldNote, port: nat, offset: nat): Event {
    Event(offset, NoteOff, Number(0), n.native, port, n.channel, n.key, 0.0)
  }

  lemma {:induction false} RetriggeredSame(cfg: Config, notes: NoteTable, notes': NoteTable, port: nat, e: BusEvent, i: nat)
    requires cfg.HasPort(port) && forall k :: i <= k < HELD_NOTES ==> notes[k] == notes'[k]
    ensures Retriggered(cfg, notes, port, e, i) == Retriggered(cfg, notes', port, e, i)
    decreases HELD_NOTES - i
  {
    hide InDialect, InTheWay;
    if i < HELD_NOTES { RetriggeredSame(cfg, notes, notes', port, e, i + 1); }
  }

  /** What they send. */
  lemma {:induction false} ClashLoopSends(cfg: Config, s: Synth, port: nat, e: BusEvent, i: nat)
    requires cfg.HasPort(port)
    ensures var s' := ClashLoop(cfg, s, port, e, i);
            Healthy(s') ==> Healthy(s) && Log(s'.history.trace) == Log(s.history.trace) + Retriggered(cfg, s.notes, port, e, i)
    decreases HELD_NOTES - i
  {
    hide Emit, InDialect;
    if i < HELD_NOTES {
      if s.notes[i].Some? && Retriggers(cfg, s.notes[i].value, port, e) {
        var s1 := s.(notes := s.notes[i := None]);
        var off := OffFor(s.notes[i].value, port, e.offset);
        EmitEffect(s1, InDialect(cfg, off));
        var s2 := NativeNote(cfg, s1, off);
        ClashLoopSends(cfg, s2, port, e, i + 1);
        RetriggeredSame(cfg, s.notes, s2.notes, port, e, i + 1);
        assert Log(s.history.trace) + [InDialect(cfg, off)] + Retriggered(cfg, s.notes, port, e, i + 1)
            == Log(s.history.trace) + Retriggered(cfg, s.notes, port, e, i);
      } else {
        ClashLoopSends(cfg, s, port, e, i + 1);
      }
    }
  }

  /** While a bus is read, an emission can fail only for want of deferred slots. */
  lemma SpreadEmit(s: Synth, e: Event)
    requires s.spreading && |s.deferred| <= HELD_NOTES
    ensures var s' := Emit(s, e);
            && s'.spreading && |s.deferred| <= |s'.deferred| <= HELD_NOTES
            && s'.notes == s.notes && s'.nextNote == s.nextNote
            && (!Healthy(s) ==> s'.failure == s.failure)
            && (s'.failure == s.failure || (s'.failure == Capacity && |s'.deferred| == HELD_NOTES))
  {
  }

  lemma {:induction false} ClashLoopNotes(cfg: Config, s: Synth, port: nat, e: BusEvent, i: nat)
    requires cfg.HasPort(port) && s.spreading && |s.deferred| <= HELD_NOTES
    ensures var s' := ClashLoop(cfg, s, port, e, i);
            && s'.notes == Standing(cfg, s.notes, port, e, i)
            && s'.spreading && |s.deferred| <= |s'.deferred| <= HELD_NOTES && s'.nextNote == s.nextNote
            && (s'.failure == s.failure || (s'.failure == Capacity && |s'.deferred| == HELD_NOTES))
    decreases HELD_NOTES - i
  {
    hide Emit, InDialect;
    if i < HELD_NOTES {
      if s.notes[i].Some? && Retriggers(cfg, s.notes[i].value, port, e) {
        var off := OffOf(s.notes[i].value, port, e.offset);
        var s1 := s.(notes := s.notes[i := None]);
        SpreadEmit(s1, InDialect(cfg, off));
        ClashLoopNotes(cfg, NativeNote(cfg, s1, off), port, e, i + 1);
      } else {
        ClashLoopNotes(cfg, s, port, e, i + 1);
      }
    }
  }

  lemma StandingFits(cfg: Config, notes: NoteTable, port: nat, e: BusEvent, on: Event)
    requires cfg.HasPort(port)
    requires on.port == port && on.noteId == e.noteId && on.channel == e.channel && on.key == e.key
    ensures !Clashes(cfg, Standing(cfg, notes, port, e, 0), e.source, on)
    ensures forall kept: NoteTable ::
              !Clashes(cfg, kept, e.source, on) && (forall k :: 0 <= k < HELD_NOTES ==> kept[k].None? || kept[k] == notes[k])
              ==> forall k :: 0 <= k < HELD_NOTES && Standing(cfg, notes, port, e, 0)[k].None? ==> kept[k].None?
  {
    hide Clash, InTheWay;
    var standing := Standing(cfg, notes, port, e, 0);
    forall k | 0 <= k < HELD_NOTES && notes[k].Some?
      ensures InTheWay(cfg, notes[k].value, port, e.source, e.noteId, e.channel, e.key) <==>
              Clash(cfg, notes[k].value, e.source, on)
    {
      ClashIs(cfg, notes[k].value, e.source, on);
    }
  }

  /** Whether slot `n` holds the note it says it continues: its source's, on the
      port, under that identity. */
  predicate Continued(n: Option<HeldNote>, port: nat, e: BusEvent) {
    n.Some? && n.value.source == e.source && n.value.port == port && n.value.id == e.joins
  }

  /** The first slot at or after `i` that does. */
  function FirstContinued(notes: NoteTable, port: nat, e: BusEvent, i: nat): (k: nat)
    requires exists j :: i <= j < HELD_NOTES && Continued(notes[j], port, e)
    ensures i <= k < HELD_NOTES && Continued(notes[k], port, e)
    ensures forall j :: i <= j < k ==> !Continued(notes[j], port, e)
    decreases HELD_NOTES - i
  {
    if Continued(notes[i], port, e) then i else FirstContinued(notes, port, e, i + 1)
  }

  lemma JoinedIs(cfg: Config, s: Synth, port: nat, e: BusEvent)
    requires cfg.Valid() && port < |cfg.notePorts| && e.joins >= 0
    ensures var np := cfg.notePorts[port];
            FirstJoined(s.notes, np, e, 0) ==
            if Continues(cfg, s, port, e) then FirstContinued(s.notes, np, e, 0) else HELD_NOTES
  {
  }

  /** Whether a note-on of the bus continues a held note. */
  predicate Continues(cfg: Config, s: Synth, port: nat, e: BusEvent)
    requires cfg.Valid() && port < |cfg.notePorts|
  {
    e.joins >= 0 && exists k :: 0 <= k < HELD_NOTES && Continued(s.notes[k], cfg.notePorts[port], e)
  }

  /** A note-on of a bus that continues no held note ends exactly the notes it
      collides with, and then plays in the first free slot under the next
      identity, or is dropped when none is free. It never raises a protocol
      failure; it fails, for capacity, only with every deferred slot taken or
      with identities used up. */
  lemma SharedNoteOn(cfg: Config, s: Synth, port: nat, e: BusEvent)
    requires cfg.Valid() && port < |cfg.notePorts| && Inv(cfg, s) && Healthy(s)
    requires e.kind.BusNoteOn? && !Continues(cfg, s, port, e)
    ensures var s' := ReadBus(cfg, s, port, e);
            var np := cfg.notePorts[port];
            var standing := Standing(cfg, s.notes, np, e, 0);
            var slot := FirstFree(standing, 0);
            && (if slot == HELD_NOTES then s'.notes == standing && s'.nextNote == s.nextNote
                else if s.nextNote + 1 >= 0x8000_0000 then s'.notes == standing && !Healthy(s')
                else && s'.nextNote == s.nextNote + 1
                     && s'.notes == standing[slot := Some(HeldNote(e.source, e.noteId, s.nextNote + 1, np, e.channel, e.key, false))])
            && (!Healthy(s') ==> s'.failure == Capacity && (|s'.deferred| == HELD_NOTES || s'.nextNote >= MAX_NOTE))
            && (Healthy(s') ==>
                  Log(s'.history.trace) ==
                  Log(s.history.trace) + Retriggered(cfg, s.notes, np, e, 0) +
                  if slot == HELD_NOTES then []
                  else [InDialect(cfg, Event(e.offset, NoteOn, Number(0), s.nextNote + 1, np, e.channel, e.key, e.value))])
  {
    hide Emit, InDialect, ClashLoop, Clashes, Standing, FirstFree, FirstJoined, Retriggered;
    var np := cfg.notePorts[port];
    JoinedIs0(cfg, s, port, e);
    ClashLoopSends(cfg, s.(spreading := true), np, e, 0);
    var s0 := s.(spreading := true);
    ClashLoopNotes(cfg, s0, np, e, 0);
    var s1 := ClashLoop(cfg, s0, np, e, 0);
    var on := BusBase(port, e).(value := e.value, port := np);
    StandingFits(cfg, s.notes, np, e, on);
    var slot := FirstFree(s1.notes, 0);
    if slot < HELD_NOTES && s1.nextNote < MAX_NOTE {
      var next := s1.nextNote + 1;
      var note := HeldNote(e.source, e.noteId, next, np, e.channel, e.key, false);
      SpreadEmit(s1.(nextNote := next, notes := s1.notes[slot := Some(note)]), InDialect(cfg, on.(noteId := next)));
      EmitEffect(s1.(nextNote := next, notes := s1.notes[slot := Some(note)]), InDialect(cfg, on.(noteId := next)));
    }
  }

  lemma JoinedIs0(cfg: Config, s: Synth, port: nat, e: BusEvent)
    requires cfg.Valid() && port < |cfg.notePorts| && !Continues(cfg, s, port, e)
    ensures e.joins >= 0 ==> FirstJoined(s.notes, cfg.notePorts[port], e, 0) == HELD_NOTES
  {
    if e.joins >= 0 { JoinedIs(cfg, s, port, e); }
  }

  /** A note-on that continues a held note on another key raises a protocol
      failure if and only if it collides with a held note: nothing is ended
      before it, whatever holds its identity or, on a MIDI port, its key. */
  lemma JoinFaultsExactly(cfg: Config, s: Synth, port: nat, e: BusEvent)
    requires cfg.Valid() && port < |cfg.notePorts| && Inv(cfg, s) && Healthy(s)
    requires e.kind.BusNoteOn? && Continues(cfg, s, port, e)
    ensures var np := cfg.notePorts[port];
            var held := s.notes[FirstContinued(s.notes, np, e, 0)].value;
            ReadBus(cfg, s, port, e).failure == Protocol <==>
              held.key != e.key && AnyInTheWay(cfg, s.notes, np, e.source, e.noteId, e.channel, e.key)
  {
    hide Emit, InDialect, Clashes, FirstFree, FirstJoined, FirstNative, AnyInTheWay, FirstContinued, Table, Ring, Ledger;
    JoinedIs(cfg, s, port, e);
    ClashesAre(cfg, s.notes, e.source, BusAttack(cfg.notePorts[port], e));
    var np := cfg.notePorts[port];
    var s0 := s.(spreading := true);
    var i := FirstJoined(s.notes, np, e, 0);
    var held := s.notes[i].value;
    if held.key != e.key {
      var on := BusAttack(np, e);
      var s1 := NoteEvent(cfg, s0, e.source, on);
      var slot := FirstFree(s.notes, 0);
      if !Clashes(cfg, s.notes, e.source, on) && slot < HELD_NOTES && s.nextNote < MAX_NOTE {
        var next := s.nextNote + 1;
        var note := HeldNote(e.source, e.noteId, next, np, e.channel, e.key, false);
        SpreadEmit(s0.(nextNote := next, notes := s.notes[slot := Some(note)]), InDialect(cfg, on.(noteId := next)));
      }
      assert s1.spreading && |s1.deferred| <= HELD_NOTES;
      var j := FirstNative(s1.notes, held.native, 0);
      if j < HELD_NOTES {
        SpreadEmit(s1.(notes := s1.notes[j := None]), InDialect(cfg, OffOf(held, np, e.offset)));
      }
    }
  }

  /** A note-on that continues a held note on its key is a tie: the note goes on
      under the new identity, and nothing is sent. On another key, unless
      something fails, the new note starts and only then the old one ends. */
  lemma JoinsExactly(cfg: Config, s: Synth, port: nat, e: BusEvent)
    requires cfg.Valid() && port < |cfg.notePorts| && Inv(cfg, s) && Healthy(s) && !s.spreading
    requires e.kind.BusNoteOn? && Continues(cfg, s, port, e)
    ensures var np := cfg.notePorts[port];
            var i := FirstContinued(s.notes, np, e, 0);
            var held, s' := s.notes[i].value, ReadBus(cfg, s, port, e);
            if held.key == e.key then s' == s.(notes := s.notes[i := Some(held.(id := e.noteId))])
            else Healthy(s') ==>
              var slot, next := FirstFree(s.notes, 0), s.nextNote + 1;
              && slot < HELD_NOTES && s'.nextNote == next
              && s'.notes == s.notes[slot := Some(HeldNote(e.source, e.noteId, next, np, e.channel, e.key, false))][i := None]
              && Log(s'.history.trace) ==
                 Log(s.history.trace)
                 + [InDialect(cfg, Event(e.offset, NoteOn, Number(0), next, np, e.channel, e.key, e.value))]
                 + [InDialect(cfg, OffFor(held, np, e.offset))]
  {
    hide Emit, InDialect, Clashes, FirstFree, FirstJoined, FirstNative, AnyInTheWay, FirstContinued, Wire, Table, Ring;
    JoinedIs(cfg, s, port, e);
    var np := cfg.notePorts[port];
    var i := FirstContinued(s.notes, np, e, 0);
    var s0, held := s.(spreading := true), s.notes[i].value;
    if held.key != e.key {
      var on := BusAttack(np, e);
      AttackExactly(cfg, s0, e.source, on);
      var s1 := NoteEvent(cfg, s0, e.source, on);
      var slot := FirstFree(s.notes, 0);
      if Healthy(s1) {
        OnlyNative(cfg, s, s1, i, slot);
        EmitEffect(s1.(notes := s1.notes[i := None]), InDialect(cfg, OffFor(held, np, e.offset)));
      } else {
        var j := FirstNative(s1.notes, held.native, 0);
        if j < HELD_NOTES { StaysFailed(cfg, s1, held, np, e.offset, j); }
      }
    }
  }

  lemma StaysFailed(cfg: Config, s: Synth, held: HeldNote, port: nat, offset: nat, j: nat)
    requires !Healthy(s) && cfg.HasPort(port) && j < HELD_NOTES
    ensures !Healthy(NativeNote(cfg, s.(notes := s.notes[j := None]), OffOf(held, port, offset)))
  {
    hide InDialect, IsRelease, Accepts;
  }

  /** After a start, a held note's identity is still in its own slot and no other. */
  lemma OnlyNative(cfg: Config, s: Synth, s1: Synth, i: nat, slot: nat)
    requires Inv(cfg, s) && Healthy(s) && i < HELD_NOTES && s.notes[i].Some?
    requires slot < HELD_NOTES && s.notes[slot].None? && s1.notes[slot].Some? && s1.notes == s.notes[slot := s1.notes[slot]]
    requires s1.notes[slot].value.native == s.nextNote + 1
    ensures FirstNative(s1.notes, s.notes[i].value.native, 0) == i
  {
    hide Wire, Table, Ring;
    assert s.notes[i].value.native in Natives(s.notes);
    FreshNative(s.history.trace, s.notes[i].value.native);
    var j := FirstNative(s1.notes, s.notes[i].value.native, 0);
    assert HasNative(s1.notes[i], s.notes[i].value.native);
  }

  /** In particular, a note may not continue itself on another key. */
  lemma JoinsItself(cfg: Config, s: Synth, port: nat, e: BusEvent)
    requires cfg.Valid() && port < |cfg.notePorts| && Inv(cfg, s) && Healthy(s)
    requires e.kind.BusNoteOn? && Continues(cfg, s, port, e) && e.noteId == e.joins
    requires s.notes[FirstContinued(s.notes, cfg.notePorts[port], e, 0)].value.key != e.key
    ensures ReadBus(cfg, s, port, e).failure == Protocol
  {
    hide ReadBus;
    var np := cfg.notePorts[port];
    var i := FirstContinued(s.notes, np, e, 0);
    assert InTheWay(cfg, s.notes[i].value, np, e.source, e.noteId, e.channel, e.key);
    JoinFaultsExactly(cfg, s, port, e);
  }
}
