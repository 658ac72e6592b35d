/** What the messages of a client and of a bus mean: the channel, key and value
    each is spelled with, and what a raw MIDI message does to notes and pedals. */
module PluginMessages {
  import opened Wrappers
  import opened PluginWire
  import opened PluginModel
  import opened PluginInvariants
  import opened PluginSteps
  import opened PluginRuns
  import opened PluginSpelling
  import opened PluginPedals
  import opened PluginNotes
  import opened PluginBus

  // ---- how a bus event is spelled ----

  /** The four channel bits of a message for a bus event: its channel, or 0 when it
      is for every one. */
  function ChannelBits(e: BusEvent): int { if e.channel == -1 then 0 else e.channel }

  /** The kind of message an event is on a MIDI port: its status and first data
      byte, `None` where it has none. */
  function MessageOf(e: BusEvent): Option<(nat, nat)> {
    match e.kind
    case BusController => Some((0xb0, e.index))
    case BusProgram => Some((0xc0, e.index))
    case BusExpression =>
      if e.key >= 0 then (if e.index == 6 then Some((0xa0, e.key)) else None)
      else if e.noteId >= 0 then None
      else if e.index == 0 then Some((0xb0, 7))
      else if e.index == 1 then Some((0xb0, 10))
      else if e.index == 4 then Some((0xb0, 11))
      else if e.index == 5 then Some((0xb0, 74))
      else None
    case _ => None
  }

  /** Whether an event is its channel's pressure or bend. */
  predicate IsPressure(e: BusEvent) {
    e.kind.BusPressure? || (e.kind.BusExpression? && e.index == 6 && e.key < 0 && e.noteId < 0)
  }

  predicate IsBend(e: BusEvent) {
    e.kind.BusBend? || (e.kind.BusExpression? && e.index == 2 && e.key < 0 && e.noteId < 0)
  }

  function Within01(v: real): real { if v < 0.0 then 0.0 else if v > 1.0 then 1.0 else v }

  lemma StatusOf(e: BusEvent, status: nat)
    requires -1 <= e.channel <= 15 && status % 16 == 0
    ensures StatusByte(status, e) == status + ChannelBits(e)
  {
  }

  lemma ByteNear(v: real)
    ensures 0 <= Data7(v) <= 127 && Within(Data7(v) as real / 127.0, Within01(v), 1.0 / 254.0)
  {
    Data7Range(v);
    Data7Within(Within01(v));
    assert Clamp(v, 0.0, 1.0) == Clamp(Within01(v), 0.0, 1.0);
  }

  /** Every message a bus event becomes carries the event's channel in its four low
      status bits, at the event's frame, for every key and identity; a controller, a
      program and a key's pressure carry their number in the first data byte, and
      what has a value carries it in the second within 1/254; a bend is 14 bits, low
      byte first, within half a step of its value. */
  lemma MessagesCarry(dialect: Dialect, port: nat, e: BusEvent)
    requires BusValid(e) && !e.kind.BusNoteOn?
    requires Translate(dialect, port, e).Some? && Translate(dialect, port, e).value.kind.Midi?
    ensures var m := Translate(dialect, port, e).value;
            && m.offset == e.offset && m.port == port && m.channel == e.channel && m.key == -1 && m.noteId == -1
            && m.id.Message? && m.id.status % 16 == ChannelBits(e)
            && (MessageOf(e).Some? ==>
                  && HighNibble(m.id.status) == MessageOf(e).value.0 && m.id.data1 == MessageOf(e).value.1
                  && if e.kind.BusProgram? then m.id.data2 == 0
                     else m.id.data2 <= 127 && Within(m.id.data2 as real / 127.0, Within01(e.value), 1.0 / 254.0))
            && (IsPressure(e) ==>
                  && HighNibble(m.id.status) == 0xd0 && m.id.data2 == 0
                  && m.id.data1 <= 127 && Within(m.id.data1 as real / 127.0, Within01(e.value), 1.0 / 254.0))
            && (IsBend(e) ==>
                  && HighNibble(m.id.status) == 0xe0 && m.id.data1 <= 127 && m.id.data2 <= 127
                  && Within((m.id.data1 + 128 * m.id.data2) as real, 8192.0 + 8191.0 * BendOf(e), 0.5))
            && (MessageOf(e).Some? || IsPressure(e) || IsBend(e))
  {
    hide StatusByte, Data7, Bend14, Within, HighNibble;
    ByteNear(e.value);
    BendSplit(e);
    StatusOf(e, 0xa0);
    StatusOf(e, 0xb0);
    StatusOf(e, 0xc0);
    StatusOf(e, 0xd0);
    StatusOf(e, 0xe0);
    Nibbles(e);
  }

  /** A bend between its ends, -1 and 1; a channel's tuning is one of two semitones. */
  function BendOf(e: BusEvent): real {
    var x := if e.kind.BusBend? then e.value else e.value / 2.0;
    if x < -1.0 then -1.0 else if x > 1.0 then 1.0 else x
  }

  lemma BendSplit(e: BusEvent)
    ensures var v := Bend14(if e.kind.BusBend? then e.value else e.value / 2.0);
            && v % 128 + 128 * (v / 128 % 128) == v && v / 128 % 128 <= 127
            && Within(v as real, 8192.0 + 8191.0 * BendOf(e), 0.5)
  {
    hide Bend14, Within;
    var x := if e.kind.BusBend? then e.value else e.value / 2.0;
    BendNear(x);
    SplitBend(Bend14(x));
  }

  lemma Nibbles(e: BusEvent)
    requires -1 <= e.channel <= 15
    ensures HighNibble(0xa0 + ChannelBits(e)) == 0xa0 && HighNibble(0xb0 + ChannelBits(e)) == 0xb0
    ensures HighNibble(0xc0 + ChannelBits(e)) == 0xc0 && HighNibble(0xd0 + ChannelBits(e)) == 0xd0
    ensures HighNibble(0xe0 + ChannelBits(e)) == 0xe0
  {
  }

  /** The expression a native port plays an event as. */
  function ExpressionOf(e: BusEvent): Option<nat> {
    match e.kind
    case BusExpression => Some(e.index)
    case BusController =>
      if e.index == 7 then Some(0)
      else if e.index == 10 then Some(1)
      else if e.index == 11 then Some(4)
      else if e.index == 74 then Some(5)
      else None
    case BusBend => Some(2)
    case BusPressure => Some(6)
    case _ => None
  }

  /** The pedal and the two silences, which every port takes as messages. */
  predicate TakenRaw(e: BusEvent) {
    e.kind.BusController? && (e.index == 64 || e.index == 120 || e.index == 123)
  }

  /** What has a spelling at all: an off and a choke everywhere; an expression on a
      native port; a message on a port that takes MIDI and no native notes, a program
      on any that takes MIDI; and the pedal and silences everywhere. What is no
      message keeps the event's frame, channel, key, identity and value, a bend
      counted in semitones. */
  lemma TranslateExactly(dialect: Dialect, port: nat, e: BusEvent)
    requires BusValid(e) && !e.kind.BusNoteOn?
    ensures var t := Translate(dialect, port, e);
            if e.kind.BusNoteOff? then
              t == Some(Event(e.offset, NoteOff, Number(0), e.noteId, port, e.channel, e.key, e.value))
            else if e.kind.BusChoke? then
              t == Some(Event(e.offset, NoteChoke, Number(0), e.noteId, port, e.channel, e.key, 0.0))
            else if dialect.native && ExpressionOf(e).Some? then
              t == Some(Event(e.offset, Expression, Number(ExpressionOf(e).value), e.noteId, port, e.channel, e.key,
                              if e.kind.BusBend? then 2.0 * e.value else e.value))
            else
              && (t.Some? <==>
                    || TakenRaw(e)
                    || (dialect.midi && e.kind.BusProgram?)
                    || (dialect.midi && !dialect.native && (MessageOf(e).Some? || IsPressure(e) || IsBend(e))))
              && (t.Some? ==> t.value.kind.Midi?)
  {
    hide StatusByte, Data7, Bend14;
  }

  // ---- raw messages ----

  /** The channel a raw message is for: the one in its status, unless the event is
      for every one. */
  function ChannelOf(e: Event): int { if e.channel == -1 then -1 else Status(e.id) % 16 }

  /** A raw note message is the note event of its channel, key and velocity, a
      note-on of velocity 0 an off. */
  lemma RawNote(cfg: Config, s: Synth, source: nat, e: Event)
    requires cfg.HasPort(e.port) && (HighNibble(Status(e.id)) == 0x80 || HighNibble(Status(e.id)) == 0x90)
    ensures var on := HighNibble(Status(e.id)) == 0x90 && Data2(e.id) > 0;
            MidiEvent(cfg, s, source, e) ==
            NoteEvent(cfg, s, source, Event(e.offset, if on then NoteOn else NoteOff, e.id, -1, e.port, ChannelOf(e),
                                            Data1(e.id), Data2(e.id) as real / 127.0))
  {
    hide NoteEvent, PedalEvent, Emit;
  }

  /** So a note spelled for a MIDI port and read as a raw message is the same note,
      its velocity within 1/254: started where it can be heard, else ended. */
  lemma SpelledNoteReads(cfg: Config, s: Synth, source: nat, e: Event)
    requires cfg.HasPort(e.port) && 0 <= e.channel <= 15 && 0 <= e.key <= 127 && 0.0 <= e.value <= 1.0
    ensures var raw := e.(kind := Midi, id := Spell(0x90, e));
            var v := Data2(raw.id) as real / 127.0;
            && Within(v, e.value, 1.0 / 254.0)
            && MidiEvent(cfg, s, source, raw) ==
               NoteEvent(cfg, s, source, Event(e.offset, if e.value >= 1.0 / 254.0 then NoteOn else NoteOff, raw.id, -1,
                                               e.port, e.channel, e.key, v))
  {
    hide BitOr, NoteEvent, MidiEvent, Within, ByteOf, HighNibble;
    NoteOnReadsBack(e);
    RawNote(cfg, s, source, e.(kind := Midi, id := Spell(0x90, e)));
  }

  /** Either silence ends every held note of its source, port and channel -- whatever
      its key and identity, pedals or not -- and no other. */
  lemma SilencesExactly(cfg: Config, s: Synth, source: nat, e: Event)
    requires cfg.HasPort(e.port) && IsMidi(e, 0xb0) && (Data1(e.id) == 120 || Data1(e.id) == 123)
    ensures var s' := MidiEvent(cfg, s, source, e);
            forall k :: 0 <= k < HELD_NOTES ==>
              s'.notes[k] ==
              if s.notes[k].Some? && s.notes[k].value.source == source && s.notes[k].value.port == e.port
                 && (e.channel == -1 || s.notes[k].value.channel == Status(e.id) % 16)
              then None else s.notes[k]
  {
    hide NoteEvent, PedalEvent, Emit;
    EachExactly(cfg, s, source, Event(e.offset, NoteChoke, e.id, -1, e.port, ChannelOf(e), -1, e.value));
  }

  /** Any other message goes to the plugin as it is where its port takes MIDI; where
      it does not, it is an expression of every note it addresses, or a fault. */
  lemma OthersPass(cfg: Config, s: Synth, source: nat, e: Event)
    requires cfg.HasPort(e.port)
    requires var status := HighNibble(Status(e.id));
             status != 0x80 && status != 0x90 && (status == 0xb0 ==> Data1(e.id) !in {64, 120, 123})
    ensures var s', expression := MidiEvent(cfg, s, source, e), ReadBack(e);
            && s'.notes == s.notes
            && if cfg.dialects[e.port].midi then Healthy(s') ==> Log(s'.history.trace) == Log(s.history.trace) + [e]
               else if expression.None? then s' == Fail(s, Protocol)
               else
                 var (id, key, v) := expression.value;
                 Healthy(s') ==>
                   Log(s'.history.trace) ==
                   Log(s.history.trace) +
                   ForEach(cfg, s.notes, source, Event(e.offset, Expression, Number(id), -1, e.port, ChannelOf(e), key, v), 0)
  {
    hide NoteEvent, PedalEvent, Emit, ForEach, AsExpression, HighNibble;
    EmitEffect(s, e);
    if !cfg.dialects[e.port].midi && ReadBack(e).Some? {
      var (id, key, v) := ReadBack(e).value;
      EachExactly(cfg, s, source, Event(e.offset, Expression, Number(id), -1, e.port, ChannelOf(e), key, v));
    }
  }

  /** A sustain pedal message is its channel's pedal: at 64 and over it is then down,
      below it is gone and every note whose off had come under it ends. */
  lemma SustainExactly(cfg: Config, s: Synth, source: nat, e: Event)
    requires cfg.HasPort(e.port) && PedalInv(s) && IsMidi(e, 0xb0) && Data1(e.id) == 64
    requires PedalRoom(s.pedals, source, e.port, ChannelOf(e))
    ensures var s', down := MidiEvent(cfg, s, source, e), Data2(e.id) >= 64;
            && (forall p: Pedal :: Some(p) in s'.pedals <==>
                 if p.source == source && p.port == e.port && p.channel == ChannelOf(e) then down && p.down
                 else Some(p) in s.pedals)
            && (forall k :: 0 <= k < HELD_NOTES ==>
                 s'.notes[k] ==
                 if !down && s.notes[k].Some? && UnderPedal(s.notes[k].value, source, e.port, ChannelOf(e)) then None
                 else s.notes[k])
  {
    hide NoteEvent, PedalEvent, Emit, PedalRoom, PedalInv, UnderPedal;
    PedalEventExactly(cfg, s, source, e);
  }

  /** The note-offs of what lifting a pedal ends, from slot `i` on: on the pedal's
      own channel, so on every one for a pedal of every one. */
  function Lifted(cfg: Config, notes: NoteTable, source: nat, e: Event, i: nat): seq<Event>
    requires cfg.HasPort(e.port)
    decreases HELD_NOTES - i
  {
    if i >= HELD_NOTES then []
    else
      (if notes[i].Some? && UnderPedal(notes[i].value, source, e.port, ChannelOf(e))
       then [InDialect(cfg, Event(e.offset, NoteOff, e.id, notes[i].value.native, e.port, ChannelOf(e), notes[i].value.key, 0.0))]
       else [])
      + Lifted(cfg, notes, source, e, i + 1)
  }

  lemma {:induction false} LiftedSame(cfg: Config, notes: NoteTable, notes': NoteTable, source: nat, e: Event, i: nat)
    requires cfg.HasPort(e.port) && forall k :: i <= k < HELD_NOTES ==> notes[k] == notes'[k]
    ensures Lifted(cfg, notes, source, e, i) == Lifted(cfg, notes', source, e, i)
    decreases HELD_NOTES - i
  {
    hide InDialect, UnderPedal, ChannelOf;
    if i < HELD_NOTES { LiftedSame(cfg, notes, notes', source, e, i + 1); }
  }

  lemma {:induction false} LiftSends(cfg: Config, s: Synth, source: nat, e: Event, i: nat)
    requires cfg.HasPort(e.port)
    ensures var s' := LiftLoop(cfg, s, source, MidiAddress(e), i);
            Healthy(s') ==> Healthy(s) && Log(s'.history.trace) == Log(s.history.trace) + Lifted(cfg, s.notes, source, e, i)
    decreases HELD_NOTES - i
  {
    hide Emit, InDialect;
    var address := MidiAddress(e);
    if i < HELD_NOTES {
      if s.notes[i].Some? && Lifts(s.notes[i].value, source, e.port, address.channel) {
        var note := s.notes[i].value;
        var off := Event(e.offset, NoteOff, e.id, note.native, e.port, ChannelOf(e), note.key, 0.0);
        var s1 := LiftOut(cfg, s, address, i);
        EmitEffect(s1, InDialect(cfg, off));
        var s2 := NativeNote(cfg, s1, off);
        LiftSends(cfg, s2, source, e, i + 1);
        LiftedSame(cfg, s.notes, s2.notes, source, e, i + 1);
        assert Log(s.history.trace) + [InDialect(cfg, off)] + Lifted(cfg, s.notes, source, e, i + 1)
            == Log(s.history.trace) + Lifted(cfg, s.notes, source, e, i);
      } else {
        LiftSends(cfg, s, source, e, i + 1);
      }
    }
  }

  /** What a sustain pedal message sends: the message itself where its port takes
      MIDI, native notes or not, and then, when it lifts the pedal, the note-offs of
      what that ends, in slot order. */
  lemma SustainSends(cfg: Config, s: Synth, source: nat, e: Event)
    requires cfg.HasPort(e.port) && IsMidi(e, 0xb0) && Data1(e.id) == 64
    requires PedalRoom(s.pedals, source, e.port, ChannelOf(e))
    ensures var s' := MidiEvent(cfg, s, source, e);
            Healthy(s') ==>
              Log(s'.history.trace) ==
              Log(s.history.trace)
              + (if cfg.dialects[e.port].midi then [e] else [])
              + (if Data2(e.id) >= 64 then [] else Lifted(cfg, s.notes, source, e, 0))
  {
    hide NoteEvent, Emit, PedalSlot, PedalRoom, LiftLoop, Lifted, HighNibble;
    RoomIs(s.pedals, source, e.port, ChannelOf(e));
    var down := Data2(e.id) >= 64;
    var index := PedalSlot(s.pedals, source, e.port, ChannelOf(e), 0);
    var s1 := s.(pedals := s.pedals[index := if down then Some(Pedal(source, e.port, ChannelOf(e), true)) else None]);
    EmitEffect(s1, e);
    var s2 := if cfg.dialects[e.port].midi then Emit(s1, e) else s1;
    LiftSends(cfg, s2, source, e, 0);
    LiftedSame(cfg, s.notes, s2.notes, source, e, 0);
  }

  /** What the three messages every port takes raw become, as a bus's. */
  lemma ReadRaw(cfg: Config, s: Synth, port: nat, e: BusEvent)
    requires cfg.Valid() && port < |cfg.notePorts| && BusValid(e) && TakenRaw(e)
    ensures var np := cfg.notePorts[port];
            var raw := Event(e.offset, Midi, Message(0xb0 + ChannelBits(e), e.index, Data7(e.value)), -1, np, e.channel, -1, 0.0);
            && ReadBus(cfg, s, port, e) == MidiEvent(cfg, s.(spreading := true), e.source, raw).(spreading := false)
            && IsMidi(raw, 0xb0) && ChannelOf(raw) == e.channel && Data1(raw.id) == e.index && Data2(raw.id) == Data7(e.value)
  {
    hide MidiEvent, Data7, StatusByte, HighNibble;
    StatusOf(e, 0xb0);
    Nibbles(e);
    BitsBack(e);
  }

  lemma BitsBack(e: BusEvent)
    requires -1 <= e.channel <= 15
    ensures (0xb0 + ChannelBits(e)) % 16 == ChannelBits(e)
  {
  }

  /** A bus's sustain pedal is its channel's, whatever the port's dialect: at half and
      over it is then down, below it is gone with every note under it. */
  lemma BusSustain(cfg: Config, s: Synth, port: nat, e: BusEvent)
    requires cfg.Valid() && port < |cfg.notePorts| && BusValid(e) && e.kind.BusController? && e.index == 64 && PedalInv(s)
    requires PedalRoom(s.pedals, e.source, cfg.notePorts[port], e.channel)
    ensures var s', np, down := ReadBus(cfg, s, port, e), cfg.notePorts[port], e.value >= 0.5;
            && (down ==> Some(Pedal(e.source, np, e.channel, true)) in s'.pedals)
            && (forall p: Pedal :: Some(p) in s'.pedals <==>
                 if p.source == e.source && p.port == np && p.channel == e.channel then down && p.down
                 else Some(p) in s.pedals)
            && (forall k :: 0 <= k < HELD_NOTES ==>
                 s'.notes[k] ==
                 if !down && s.notes[k].Some? && UnderPedal(s.notes[k].value, e.source, np, e.channel) then None
                 else s.notes[k])
  {
    hide MidiEvent, ReadBus, Data7, PedalRoom, UnderPedal, HighNibble, PedalInv;
    HalfDown(e.value);
    ReadRaw(cfg, s, port, e);
    SpreadPedals(s);
    var raw := Event(e.offset, Midi, Message(0xb0 + ChannelBits(e), 64, Data7(e.value)), -1, cfg.notePorts[port], e.channel, -1, 0.0);
    SustainExactly(cfg, s.(spreading := true), e.source, raw);
    assert e.value >= 0.5 ==>
      Some(Pedal(e.source, cfg.notePorts[port], e.channel, true)) in ReadBus(cfg, s, port, e).pedals;
  }

  lemma SpreadPedals(s: Synth)
    ensures PedalInv(s) ==> PedalInv(s.(spreading := true))
  {
  }

  /** A bus's silence ends every note of its source on its port and channel. */
  lemma BusSilence(cfg: Config, s: Synth, port: nat, e: BusEvent)
    requires cfg.Valid() && port < |cfg.notePorts| && BusValid(e) && e.kind.BusController? && (e.index == 120 || e.index == 123)
    ensures var s' := ReadBus(cfg, s, port, e);
            forall k :: 0 <= k < HELD_NOTES ==>
              s'.notes[k] ==
              if s.notes[k].Some? && s.notes[k].value.source == e.source && s.notes[k].value.port == cfg.notePorts[port]
                 && (e.channel == -1 || s.notes[k].value.channel == e.channel)
              then None else s.notes[k]
  {
    hide MidiEvent, ReadBus, Data7, HighNibble;
    ReadRaw(cfg, s, port, e);
    var raw := Event(e.offset, Midi, Message(0xb0 + ChannelBits(e), e.index, Data7(e.value)), -1, cfg.notePorts[port], e.channel, -1, 0.0);
    SilencesExactly(cfg, s.(spreading := true), e.source, raw);
  }

  // ---- ports ----

  /** An event for a note input touches only notes on the plugin's port behind it,
      and a note it starts is on that port; for one the def does not have it is a
      fault. */
  lemma PortsApart(cfg: Config, s: Synth, source: nat, e: Event, k: nat)
    requires cfg.Valid() && k < HELD_NOTES && ClientEvent(e) && PedalInv(s)
    ensures var s' := PluginEvent(cfg, s, source, e);
            if e.port < 0 || e.port >= |cfg.notePorts| then s' == Fail(s, Protocol)
            else
              && (s.notes[k].Some? && s.notes[k].value.port != cfg.notePorts[e.port] ==> s'.notes[k] == s.notes[k])
              && (s.notes[k].None? && s'.notes[k].Some? ==> s'.notes[k].value.port == cfg.notePorts[e.port])
  {
    if 0 <= e.port < |cfg.notePorts| {
      hide MidiEvent, NoteEvent, PedalInv;
      var e' := e.(port := cfg.notePorts[e.port]);
      if e.kind.Midi? { MidiApart(cfg, s, source, e', k); } else { NoteApart(cfg, s, source, e', k); }
    }
  }

  lemma NoteApart(cfg: Config, s: Synth, source: nat, e: Event, k: nat)
    requires cfg.HasPort(e.port) && NoteEventValid(e) && k < HELD_NOTES
    ensures var s' := NoteEvent(cfg, s, source, e);
            && (s.notes[k].Some? && s.notes[k].value.port != e.port ==> s'.notes[k] == s.notes[k])
            && (s.notes[k].None? && s'.notes[k].Some? ==> s'.notes[k].value.port == e.port)
  {
    hide NoteLoop, HeldDown, Attack, InDialect;
    if e.kind.NoteOn? {
      AttackExactly(cfg, s, source, e);
    } else if !e.kind.NoteOff? {
      EachExactly(cfg, s, source, e);
    } else if !OwedElsewhere(s, source, e) {
      if exists j :: 0 <= j < HELD_NOTES && Takes(s.notes[j], source, e) {
        NoteOffExactly(cfg, s, source, e, FirstTaken(s.notes, source, e, 0));
      } else {
        StrayOff(cfg, s, source, e);
      }
    }
  }

  lemma MidiApart(cfg: Config, s: Synth, source: nat, e: Event, k: nat)
    requires cfg.HasPort(e.port) && MidiValid(e) && k < HELD_NOTES && PedalInv(s)
    ensures var s' := MidiEvent(cfg, s, source, e);
            && (s.notes[k].Some? && s.notes[k].value.port != e.port ==> s'.notes[k] == s.notes[k])
            && (s.notes[k].None? && s'.notes[k].Some? ==> s'.notes[k].value.port == e.port)
  {
    hide NoteEvent, PedalEvent, Emit, HighNibble, PedalInv, ForEach, AsExpression;
    var status := HighNibble(Status(e.id));
    if status == 0x80 || status == 0x90 {
      RawNote(cfg, s, source, e);
      var on := status == 0x90 && Data2(e.id) > 0;
      NoteApart(cfg, s, source, Event(e.offset, if on then NoteOn else NoteOff, e.id, -1, e.port, ChannelOf(e),
                                      Data1(e.id), Data2(e.id) as real / 127.0), k);
    } else if status == 0xb0 && Data1(e.id) == 64 {
      if PedalRoom(s.pedals, source, e.port, ChannelOf(e)) {
        SustainExactly(cfg, s, source, e);
      } else {
        NoSlot(cfg, s, source, e);
      }
    } else if status == 0xb0 && (Data1(e.id) == 120 || Data1(e.id) == 123) {
      SilencesExactly(cfg, s, source, e);
    } else {
      OthersPass(cfg, s, source, e);
    }
  }

  /** A sustain pedal with no slot is a fault of capacity and does nothing else. */
  lemma NoSlot(cfg: Config, s: Synth, source: nat, e: Event)
    requires cfg.HasPort(e.port) && IsMidi(e, 0xb0) && Data1(e.id) == 64
    requires !PedalRoom(s.pedals, source, e.port, ChannelOf(e))
    ensures MidiEvent(cfg, s, source, e) == Fail(s, Capacity)
  {
    hide NoteEvent, PedalEvent, PedalRoom;
    FullPedals(cfg, s, source, e);
  }
}
