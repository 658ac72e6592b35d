/** What one plugin instance holds and what each of its entry points does to it,
    as functions on values (src/plugin.rs). The class in PluginSynth.dfy does
    the same in place and is proved equal to these functions. */
module PluginModel {
  import opened Wrappers
  import opened PluginWire

  const HELD_NOTES: nat := 256
  const PEDALS: nat := 64
  const ORPHANS: nat := 64
  const PARAMETER_EVENTS: nat := EVENTS * 3 / 4
  const MAX_NOTE: int := 0x7FFF_FFFF

  datatype HeldNote = HeldNote(
    source: nat,
    id: int,
    native: int,
    port: nat,
    channel: int,
    key: int,
    released: bool)

  datatype Pedal = Pedal(source: nat, port: nat, channel: int, down: bool)

  /** A key-named note that was cut: whose late note-off is still to come. */
  datatype Orphan = Orphan(source: nat, port: int, channel: int, key: int)

  type NoteTable = s: seq<Option<HeldNote>> | |s| == HELD_NOTES witness seq(HELD_NOTES, _ => None)
  type PedalTable = s: seq<Option<Pedal>> | |s| == PEDALS witness seq(PEDALS, _ => None)
  type OrphanTable = s: seq<Option<Orphan>> | |s| == ORPHANS witness seq(ORPHANS, _ => None)

  datatype Failure = Running | Capacity | Starved | Processing | Protocol

  /** A 32-bit float as far as this code looks at one: exact when finite. */
  datatype Float = Finite(v: real) | Infinite(negative: bool) | NotANumber

  predicate FloatEqual(a: Float, b: Float) {
    !a.NotANumber? && a == b
  }

  datatype ControlMap = ControlMap(bus: int, audio: bool)

  const UNMAPPED := ControlMap(-1, false)

  datatype Dialect = Dialect(native: bool, midi: bool)

  datatype ParameterInfo = ParameterInfo(id: nat, min: real, max: real, readOnly: bool)

  /** What a loaded instance never changes. `notePorts` maps the def's note
      inputs to the plugin's; `inputs` and `outputs` hold channel counts. */
  datatype Config = Config(
    dialects: seq<Dialect>,
    notePorts: seq<nat>,
    parameters: seq<ParameterInfo>,
    inputs: seq<nat>,
    outputs: seq<nat>)
  {
    ghost predicate Valid() {
      forall i :: 0 <= i < |notePorts| ==> notePorts[i] < |dialects|
    }

    function NotesControl(): nat { |parameters| + |inputs| + |outputs| }

    function Controls(): nat { NotesControl() + |notePorts| }

    predicate HasPort(port: int) { 0 <= port < |dialects| }

    predicate Native(port: int)
      requires HasPort(port)
    {
      dialects[port].native
    }
  }

  /** One thing the plugin was told, or told us: an event accepted for it, a note
      it ended, a parameter value it reported and whether a bus map held the
      parameter then. */
  datatype Action =
    | Sent(event: Event)
    | Ended(native: int)
    | Reported(index: nat, value: real, mapped: bool)

  /** Everything since the instance was made, latest last. */
  datatype Trace = Start | Then(past: Trace, last: Action)

  /** One cut of a key-named note: whether no note-off was taken for it yet, and
      whether its note-off had come before the cut and only a pedal kept it. */
  datatype Owed = Owed(note: Orphan, open: bool, released: bool)

  /** What happened so far. No entry point reads it. `spilled` is set by an
      event deferred although its list was not a full open job; `lost` holds the
      notes that left the table though their note-off could not be spelled. */
  datatype History = History(
    trace: Trace,
    delivered: seq<Event>,
    jobs: nat,
    cuts: seq<Owed>,
    lost: set<int>,
    spilled: bool)

  datatype Synth = Synth(
    notes: NoteTable,
    pedals: PedalTable,
    orphans: OrphanTable,
    nextOrphan: nat,
    nextNote: int,
    open: bool,
    job: seq<Event>,
    spans: seq<Span>,
    input: seq<real>,
    pending: seq<Event>,
    deferred: seq<Event>,
    spreading: bool,
    failure: Failure,
    values: seq<Float>,
    sent: seq<Float>,
    maps: seq<ControlMap>,
    controlEvents: seq<Event>,
    ended: seq<int>,
    tempo: real,
    history: History)

  predicate Healthy(s: Synth) { s.failure.Running? }

  // ---- emitting ----

  /** The first failure latches. */
  function Fail(s: Synth, f: Failure): Synth {
    if s.failure.Running? then s.(failure := f) else s
  }

  function Record(s: Synth, e: Event): Synth {
    s.(history := s.history.(trace := Then(s.history.trace, Sent(e))))
  }

  /** `emit` without the log of what was accepted: `accepted` says whether the
      event found a place. */
  function Place(s: Synth, e: Event): (r: (Synth, bool)) {
    if s.open && Accepts(s.job, e) then (s.(job := s.job + [e]), true)
    else if !s.open && Accepts(s.pending, e) then (s.(pending := s.pending + [e]), true)
    else if (IsRelease(e) || s.spreading) && |s.deferred| < HELD_NOTES then
      (s.(deferred := s.deferred + [e.(offset := 0)],
          history := s.history.(spilled := s.history.spilled || !s.open || |s.job| < EVENTS)), true)
    else (Fail(s, Capacity), false)
  }

  function Emit(s: Synth, e: Event): Synth {
    var (s', accepted) := Place(s, e);
    if accepted then Record(s', e) else s'
  }

  /** A note in its port's dialect: as it is, or spelled as a MIDI message. */
  function InDialect(cfg: Config, e: Event): Event
    requires cfg.HasPort(e.port)
  {
    if cfg.Native(e.port) then e
    else e.(kind := Midi, id := Spell(if e.kind.NoteOn? then 0x90 else 0x80, e))
  }

  function NativeNote(cfg: Config, s: Synth, e: Event): Synth
    requires cfg.HasPort(e.port)
  {
    Emit(s, InDialect(cfg, e))
  }

  function DefaultEvent(offset: nat, kind: Kind): Event {
    Event(offset, kind, Number(0), 0, 0, 0, 0, 0.0)
  }

  // ---- note events ----

  predicate Owned(note: HeldNote, source: nat, e: Event) {
    && note.source == source
    && note.port == e.port
    && (e.channel == -1 || note.channel == e.channel)
    && (e.key == -1 || note.key == e.key)
    && (e.noteId == -1 || note.id == e.noteId)
  }

  /** A held note a note-on may not coexist with. */
  predicate Clash(cfg: Config, note: HeldNote, source: nat, e: Event)
    requires cfg.HasPort(e.port)
  {
    || (e.noteId >= 0 && note.source == source && note.id == e.noteId && note.port == e.port)
    || (!cfg.Native(e.port) && note.port == e.port && note.channel == e.channel && note.key == e.key)
  }

  predicate Clashes(cfg: Config, notes: seq<Option<HeldNote>>, source: nat, e: Event)
    requires cfg.HasPort(e.port)
  {
    exists i :: 0 <= i < |notes| && notes[i].Some? && Clash(cfg, notes[i].value, source, e)
  }

  /** The first index at or after `i` whose element is empty, or the length. */
  function FirstFree<T>(s: seq<Option<T>>, i: nat): (k: nat)
    requires i <= |s|
    ensures i <= k <= |s|
    ensures forall j :: i <= j < k ==> s[j].Some?
    ensures k < |s| ==> s[k].None?
    decreases |s| - i
  {
    if i == |s| || s[i].None? then i else FirstFree(s, i + 1)
  }

  predicate OwesOff(o: Option<Orphan>, source: nat, e: Event) {
    o == Some(Orphan(source, e.port, e.channel, e.key))
  }

  function FirstOwing(orphans: seq<Option<Orphan>>, source: nat, e: Event, i: nat): (k: nat)
    requires i <= |orphans|
    ensures i <= k <= |orphans|
    ensures forall j :: i <= j < k ==> !OwesOff(orphans[j], source, e)
    ensures k < |orphans| ==> OwesOff(orphans[k], source, e)
    decreases |orphans| - i
  {
    if i == |orphans| || OwesOff(orphans[i], source, e) then i else FirstOwing(orphans, source, e, i + 1)
  }

  predicate Covers(p: Pedal, note: HeldNote) {
    && p.source == note.source
    && p.port == note.port
    && (p.channel == -1 || p.channel == note.channel)
    && p.down
  }

  predicate Sustained(pedals: seq<Option<Pedal>>, note: HeldNote) {
    exists i :: 0 <= i < |pedals| && pedals[i].Some? && Covers(pedals[i].value, note)
  }

  function Attack(cfg: Config, s: Synth, source: nat, e: Event): Synth
    requires cfg.HasPort(e.port)
  {
    if Clashes(cfg, s.notes, source, e) then Fail(s, Protocol)
    else
      var slot := FirstFree(s.notes, 0);
      if slot == HELD_NOTES then Fail(s, Capacity)
      else if s.nextNote >= MAX_NOTE then Fail(s, Capacity)
      else
        var next := s.nextNote + 1;
        var note := HeldNote(source, e.noteId, next, e.port, e.channel, e.key, false);
        NativeNote(cfg, s.(nextNote := next, notes := s.notes[slot := Some(note)]), e.(noteId := next))
  }

  /** The cut recorded in orphan slot `j`: the latest cut whose number is `j`
      modulo the ring's length. */
  function CutOf(cuts: nat, j: nat): nat
    requires j < ORPHANS && j < cuts
  {
    cuts - 1 - (cuts - 1 - j) % ORPHANS
  }

  function Swallow(s: Synth, j: nat): Synth
    requires j < ORPHANS
  {
    var cuts := s.history.cuts;
    var cuts' := if j < |cuts| then var c := CutOf(|cuts|, j); cuts[c := cuts[c].(open := false)] else cuts;
    s.(orphans := s.orphans[j := None], history := s.history.(cuts := cuts'))
  }

  function ToOwned(e: Event, note: HeldNote): Event {
    e.(noteId := note.native, channel := note.channel, key := note.key)
  }

  /** A note-off, choke or expression applied to the held notes from slot `i` on. */
  function NoteLoop(cfg: Config, s: Synth, source: nat, e: Event, i: nat): Synth
    requires cfg.HasPort(e.port)
    decreases HELD_NOTES - i
  {
    if i >= HELD_NOTES then s
    else if s.notes[i].None? then NoteLoop(cfg, s, source, e, i + 1)
    else
      var note := s.notes[i].value;
      if !Owned(note, source, e) || (e.kind.NoteOff? && note.released) then NoteLoop(cfg, s, source, e, i + 1)
      else if e.kind.NoteOff? && Sustained(s.pedals, note) then
        s.(notes := s.notes[i := Some(note.(released := true))])
      else if e.kind.Expression? then NoteLoop(cfg, Emit(s, ToOwned(e, note)), source, e, i + 1)
      else
        var s' := NativeNote(cfg, s.(notes := s.notes[i := None]), ToOwned(e, note));
        if e.kind.NoteOff? then s' else NoteLoop(cfg, s', source, e, i + 1)
  }

  function NoteEvent(cfg: Config, s: Synth, source: nat, e: Event): Synth
    requires cfg.HasPort(e.port)
  {
    if e.kind.NoteOn? then Attack(cfg, s, source, e)
    else
      var j := if e.kind.NoteOff? && e.noteId == -1 then FirstOwing(s.orphans, source, e, 0) else ORPHANS;
      if j < ORPHANS then Swallow(s, j) else NoteLoop(cfg, s, source, e, 0)
  }

  // ---- MIDI ----

  /** The pedal's own slot, else the first free one, else the table's length. */
  function PedalSlot(pedals: seq<Option<Pedal>>, source: nat, port: nat, channel: int, i: nat): (k: nat)
    requires i <= |pedals|
    ensures k <= |pedals|
    ensures k < |pedals| ==>
              || pedals[k].None?
              || (pedals[k].value.source == source && pedals[k].value.port == port && pedals[k].value.channel == channel)
    ensures k == |pedals| || pedals[k].None? ==> forall j :: i <= j < |pedals| ==> !SamePedal(pedals[j], source, port, channel)
    decreases |pedals| - i
  {
    if i == |pedals| then FirstFree(pedals, 0)
    else if SamePedal(pedals[i], source, port, channel) then i
    else PedalSlot(pedals, source, port, channel, i + 1)
  }

  predicate SamePedal(p: Option<Pedal>, source: nat, port: nat, channel: int) {
    p.Some? && p.value.source == source && p.value.port == port && p.value.channel == channel
  }

  /** What lifting a pedal ends: the released notes of its source, port and channel. */
  predicate Lifts(note: HeldNote, source: nat, port: int, channel: int) {
    note.source == source && note.port == port && (channel == -1 || note.channel == channel) && note.released
  }

  /** Whether a port can spell a note-off for an address: one that takes only MIDI
      needs a channel. */
  predicate Spellable(cfg: Config, address: Event)
    requires cfg.HasPort(address.port)
  {
    cfg.Native(address.port) || address.channel != -1
  }

  /** The held note in slot `i` leaves the table when a pedal is lifted: lost when
      its note-off cannot be spelled. */
  function LiftOut(cfg: Config, s: Synth, address: Event, i: nat): Synth
    requires cfg.HasPort(address.port) && i < HELD_NOTES && s.notes[i].Some?
  {
    var lost := s.history.lost;
    var lost' := if Spellable(cfg, address) then lost else lost + {s.notes[i].value.native};
    s.(notes := s.notes[i := None], history := s.history.(lost := lost'))
  }

  function LiftLoop(cfg: Config, s: Synth, source: nat, address: Event, i: nat): Synth
    requires cfg.HasPort(address.port)
    decreases HELD_NOTES - i
  {
    if i >= HELD_NOTES then s
    else if s.notes[i].Some? && Lifts(s.notes[i].value, source, address.port, address.channel) then
      var note := s.notes[i].value;
      var off := address.(kind := NoteOff, noteId := note.native, key := note.key, value := 0.0);
      LiftLoop(cfg, NativeNote(cfg, LiftOut(cfg, s, address, i), off), source, address, i + 1)
    else LiftLoop(cfg, s, source, address, i + 1)
  }

  /** The address a MIDI message names: its channel, unless the event says every one. */
  function MidiAddress(e: Event): Event {
    e.(channel := if e.channel == -1 then -1 else Status(e.id) % 16, noteId := -1, key := -1)
  }

  function PedalEvent(cfg: Config, s: Synth, source: nat, e: Event): Synth
    requires cfg.HasPort(e.port)
  {
    var address := MidiAddress(e);
    var index := PedalSlot(s.pedals, source, e.port, address.channel, 0);
    if index == PEDALS then Fail(s, Capacity)
    else
      var down := Data2(e.id) >= 64;
      var entry := if down then Some(Pedal(source, e.port, address.channel, true)) else None;
      var s1 := s.(pedals := s.pedals[index := entry]);
      var s2 := if cfg.dialects[e.port].midi then Emit(s1, e) else s1;
      if down then s2 else LiftLoop(cfg, s2, source, address, 0)
  }

  /** A MIDI message a native port has a note expression for: its expression,
      key and value. */
  function AsExpression(status: nat, data1: nat, data2: nat): Option<(nat, int, real)> {
    match status
    case 0xa0 => Some((6, data1, data2 as real / 127.0))
    case 0xd0 => Some((6, -1, data1 as real / 127.0))
    case 0xe0 => Some((2, -1, ((data1 + 128 * data2) as real - 8192.0) / 4096.0))
    case 0xb0 => (
      match data1
      case 7 => Some((0, -1, data2 as real / 127.0))
      case 10 => Some((1, -1, data2 as real / 63.5 - 1.0))
      case 11 => Some((4, -1, data2 as real / 127.0))
      case 74 => Some((5, -1, data2 as real / 127.0))
      case _ => None)
    case _ => None
  }

  function MidiEvent(cfg: Config, s: Synth, source: nat, e: Event): Synth
    requires cfg.HasPort(e.port)
  {
    var status := HighNibble(Status(e.id));
    var data1, data2 := Data1(e.id), Data2(e.id);
    var address := MidiAddress(e);
    if status == 0x80 || status == 0x90 then
      NoteEvent(cfg, s, source,
                address.(kind := if status == 0x90 && data2 != 0 then NoteOn else NoteOff,
                         key := data1,
                         value := data2 as real / 127.0))
    else if status == 0xb0 && data1 == 64 then PedalEvent(cfg, s, source, e)
    else if status == 0xb0 && (data1 == 120 || data1 == 123) then
      NoteEvent(cfg, s, source, address.(kind := NoteChoke))
    else if cfg.dialects[e.port].midi then Emit(s, e)
    else
      match AsExpression(status, data1, data2)
      case None => Fail(s, Protocol)
      case Some((id, key, value)) =>
        NoteEvent(cfg, s, source, address.(kind := Expression, id := Number(id), key := key, value := value))
  }

  function PluginEvent(cfg: Config, s: Synth, source: nat, e: Event): Synth
    requires cfg.Valid()
  {
    if e.port < 0 || e.port >= |cfg.notePorts| then Fail(s, Protocol)
    else
      var e' := e.(port := cfg.notePorts[e.port]);
      if e.kind.Midi? then MidiEvent(cfg, s, source, e') else NoteEvent(cfg, s, source, e')
  }

  // ---- releases by lane and by transport ----

  const TWO32: nat := 0x1_0000_0000

  datatype Scope = Everything | Lane(lane: int) | OfTransport(transport: nat)

  /** Whether a scope takes in a source: a lane's source holds its transport, its
      lane and its data's generation in three 32-bit fields under bit 96. */
  predicate Governs(scope: Scope, source: nat) {
    match scope
    case Everything => true
    case Lane(lane) => source / TWO32 / TWO32 / TWO32 == 1 && source / TWO32 % TWO32 == lane % TWO32
    case OfTransport(transport) => source / TWO32 / TWO32 / TWO32 == 1 && source / TWO32 / TWO32 % TWO32 == transport
  }

  function RecordCut(s: Synth, o: Orphan, released: bool): Synth
    requires s.nextOrphan < ORPHANS
  {
    s.(orphans := s.orphans[s.nextOrphan := Some(o)],
       nextOrphan := (s.nextOrphan + 1) % ORPHANS,
       history := s.history.(cuts := s.history.cuts + [Owed(o, true, released)]))
  }

  function ChokeOf(note: HeldNote, offset: nat): Event {
    DefaultEvent(offset, NoteChoke).(
      noteId := note.native, port := note.port, channel := note.channel, key := note.key)
  }

  /** The held note in slot `i` is cut: choked, and remembered when its key is
      all that names it. */
  function ChokeSlot(cfg: Config, s: Synth, offset: nat, i: nat): Synth
    requires i < HELD_NOTES && s.notes[i].Some? && cfg.HasPort(s.notes[i].value.port)
    requires s.nextOrphan < ORPHANS
  {
    var note := s.notes[i].value;
    var s1 := if note.id == -1 then RecordCut(s, Orphan(note.source, note.port, note.channel, note.key), note.released) else s;
    NativeNote(cfg, s1.(notes := s1.notes[i := None]), ChokeOf(note, offset))
  }

  function ReleaseLoop(cfg: Config, s: Synth, scope: Scope, offset: nat, i: nat): Synth
    requires PortsKnown(cfg, s.notes)
    requires s.nextOrphan < ORPHANS
    decreases HELD_NOTES - i
  {
    if i >= HELD_NOTES then s
    else if s.notes[i].Some? && Governs(scope, s.notes[i].value.source) then
      ReleaseLoop(cfg, ChokeSlot(cfg, s, offset, i), scope, offset, i + 1)
    else ReleaseLoop(cfg, s, scope, offset, i + 1)
  }

  /** Every held note sits on a port the plugin has. */
  ghost predicate PortsKnown(cfg: Config, notes: seq<Option<HeldNote>>) {
    forall i :: 0 <= i < |notes| && notes[i].Some? ==> cfg.HasPort(notes[i].value.port)
  }

  function DropPedals(pedals: PedalTable, scope: Scope): PedalTable {
    seq(PEDALS, i requires 0 <= i < PEDALS =>
      if pedals[i].Some? && Governs(scope, pedals[i].value.source) then None else pedals[i])
  }

  function Release(cfg: Config, s: Synth, scope: Scope, offset: nat): Synth
    requires PortsKnown(cfg, s.notes)
    requires s.nextOrphan < ORPHANS
  {
    var s' := ReleaseLoop(cfg, s, scope, offset, 0);
    s'.(pedals := DropPedals(s'.pedals, scope))
  }

  // ---- events read from a bus ----

  datatype BusKind =
    | BusNoteOn
    | BusNoteOff
    | BusChoke
    | BusExpression
    | BusController
    | BusBend
    | BusPressure
    | BusProgram
    | BusControl

  datatype BusEvent = BusEvent(
    source: nat,
    offset: nat,
    kind: BusKind,
    channel: int,
    key: int,
    noteId: int,
    joins: int,
    index: nat,
    value: real)

  function Clamp(x: real, lo: real, hi: real): real {
    if x < lo then lo else if x > hi then hi else x
  }

  function Data7(v: real): nat { ToU32(Round(Clamp(v, 0.0, 1.0) * 127.0)) }

  /** A bend in [-1, 1] as 14 bits about 8192. */
  function Bend14(v: real): nat { ToU32(Round(Clamp(v, -1.0, 1.0) * 8191.0 + 8192.0)) }

  function BusBase(port: nat, e: BusEvent): Event {
    Event(e.offset, NoteOn, Number(0), e.noteId, port, e.channel, e.key, 0.0)
  }

  function BusBytes(port: nat, e: BusEvent, status: nat, data1: nat, data2: nat): Event {
    BusBase(port, e).(kind := Midi, id := Message(status, data1, data2), noteId := -1, key := -1)
  }

  function BusExpr(port: nat, e: BusEvent, index: nat, value: real): Event {
    BusBase(port, e).(kind := Expression, id := Number(index), value := value)
  }

  function StatusByte(status: nat, e: BusEvent): nat {
    status + (if e.channel < 0 then 0 else if e.channel > 15 then 15 else e.channel)
  }

  /** A bus event other than a note-on in a port's dialect, or nothing where the
      port has no spelling for it. */
  function Translate(dialect: Dialect, port: nat, e: BusEvent): Option<Event> {
    var native, midi := dialect.native, dialect.midi;
    match e.kind
    case BusNoteOn => None
    case BusNoteOff => Some(BusBase(port, e).(kind := NoteOff, value := e.value))
    case BusChoke => Some(BusBase(port, e).(kind := NoteChoke))
    case BusExpression =>
      if native then Some(BusExpr(port, e, e.index, e.value))
      else if !midi then None
      else if e.index == 6 && e.key >= 0 then
        Some(BusBytes(port, e, StatusByte(0xa0, e), e.key % 256, Data7(e.value)))
      else if e.index == 6 && e.noteId < 0 then Some(BusBytes(port, e, StatusByte(0xd0, e), Data7(e.value), 0))
      else if e.key >= 0 || e.noteId >= 0 then None
      else (
        match e.index
        case 2 => Some(BendBytes(port, e, Bend14(e.value / 2.0)))
        case 5 => Some(BusBytes(port, e, StatusByte(0xb0, e), 74, Data7(e.value)))
        case 0 => Some(BusBytes(port, e, StatusByte(0xb0, e), 7, Data7(e.value)))
        case 1 => Some(BusBytes(port, e, StatusByte(0xb0, e), 10, Data7(e.value)))
        case 4 => Some(BusBytes(port, e, StatusByte(0xb0, e), 11, Data7(e.value)))
        case _ => None)
    case BusController =>
      if native && e.index == 7 then Some(BusExpr(port, e, 0, e.value))
      else if native && e.index == 10 then Some(BusExpr(port, e, 1, e.value))
      else if native && e.index == 11 then Some(BusExpr(port, e, 4, e.value))
      else if native && e.index == 74 then Some(BusExpr(port, e, 5, e.value))
      else if e.index == 64 || e.index == 120 || e.index == 123 then
        Some(BusBytes(port, e, StatusByte(0xb0, e), e.index, Data7(e.value)))
      else if !native && midi then Some(BusBytes(port, e, StatusByte(0xb0, e), e.index % 256, Data7(e.value)))
      else None
    case BusBend =>
      if native then Some(BusExpr(port, e, 2, e.value * 2.0))
      else if midi then Some(BendBytes(port, e, Bend14(e.value)))
      else None
    case BusPressure =>
      if native then Some(BusExpr(port, e, 6, e.value))
      else if midi then Some(BusBytes(port, e, StatusByte(0xd0, e), Data7(e.value), 0))
      else None
    case BusProgram => if midi then Some(BusBytes(port, e, StatusByte(0xc0, e), e.index % 256, 0)) else None
    case BusControl => None
  }

  function BendBytes(port: nat, e: BusEvent, v: nat): Event {
    BusBytes(port, e, StatusByte(0xe0, e), v % 128, v / 128 % 128)
  }

  /** Whether slot `n` holds the note a note-on of the bus says it continues. */
  predicate Joined(n: Option<HeldNote>, port: nat, e: BusEvent) {
    n.Some? && n.value.source == e.source && n.value.id == e.joins && n.value.port == port
  }

  function FirstJoined(notes: seq<Option<HeldNote>>, port: nat, e: BusEvent, i: nat): (k: nat)
    requires i <= |notes|
    ensures i <= k <= |notes|
    ensures forall j :: i <= j < k ==> !Joined(notes[j], port, e)
    ensures k < |notes| ==> Joined(notes[k], port, e)
    decreases |notes| - i
  {
    if i == |notes| || Joined(notes[i], port, e) then i else FirstJoined(notes, port, e, i + 1)
  }

  predicate HasNative(n: Option<HeldNote>, native: int) { n.Some? && n.value.native == native }

  function FirstNative(notes: seq<Option<HeldNote>>, native: int, i: nat): (k: nat)
    requires i <= |notes|
    ensures i <= k <= |notes|
    ensures forall j :: i <= j < k ==> !HasNative(notes[j], native)
    ensures k < |notes| ==> HasNative(notes[k], native)
    decreases |notes| - i
  {
    if i == |notes| || HasNative(notes[i], native) then i else FirstNative(notes, native, i + 1)
  }

  function OffOf(note: HeldNote, port: nat, offset: nat): Event {
    DefaultEvent(offset, NoteOff).(noteId := note.native, port := port, channel := note.channel, key := note.key)
  }

  function BusAttack(port: nat, e: BusEvent): Event {
    DefaultEvent(e.offset, NoteOn).(
      noteId := e.noteId, port := port, channel := e.channel, key := e.key, value := e.value)
  }

  /** A note-on that continues the held note in slot `i`: a tie on its key, or
      the new key before the old one ends. */
  function Join(cfg: Config, s: Synth, port: nat, e: BusEvent, i: nat): Synth
    requires cfg.HasPort(port)
    requires i < HELD_NOTES && s.notes[i].Some?
  {
    var held := s.notes[i].value;
    if held.key == e.key then s.(notes := s.notes[i := Some(held.(id := e.noteId))])
    else
      var s1 := NoteEvent(cfg, s, e.source, BusAttack(port, e));
      var j := FirstNative(s1.notes, held.native, 0);
      if j == HELD_NOTES then s1
      else NativeNote(cfg, s1.(notes := s1.notes[j := None]), OffOf(held, port, e.offset))
  }

  /** What a note-on of the bus ends before it starts. */
  predicate Retriggers(cfg: Config, note: HeldNote, port: nat, e: BusEvent)
    requires cfg.HasPort(port)
  {
    && note.port == port
    && (|| (e.noteId >= 0 && note.source == e.source && note.id == e.noteId)
        || (!cfg.Native(port) && note.channel == e.channel && note.key == e.key))
  }

  function ClashLoop(cfg: Config, s: Synth, port: nat, e: BusEvent, i: nat): Synth
    requires cfg.HasPort(port)
    decreases HELD_NOTES - i
  {
    if i >= HELD_NOTES then s
    else if s.notes[i].Some? && Retriggers(cfg, s.notes[i].value, port, e) then
      var note := s.notes[i].value;
      ClashLoop(cfg, NativeNote(cfg, s.(notes := s.notes[i := None]), OffOf(note, port, e.offset)), port, e, i + 1)
    else ClashLoop(cfg, s, port, e, i + 1)
  }

  function ReadNoteOn(cfg: Config, s: Synth, port: nat, e: BusEvent): Synth
    requires cfg.Valid() && port < |cfg.notePorts|
  {
    var native := cfg.notePorts[port];
    var i := if e.joins >= 0 then FirstJoined(s.notes, native, e, 0) else HELD_NOTES;
    if i < HELD_NOTES then Join(cfg, s, native, e, i)
    else
      var s1 := ClashLoop(cfg, s, native, e, 0);
      if FirstFree(s1.notes, 0) == HELD_NOTES then s1
      else PluginEvent(cfg, s1, e.source, BusBase(port, e).(value := e.value))
  }

  function ReadBusEvent(cfg: Config, s: Synth, port: nat, e: BusEvent): Synth
    requires cfg.Valid()
  {
    if port >= |cfg.notePorts| then s
    else if e.kind.BusNoteOn? then ReadNoteOn(cfg, s, port, e)
    else
      match Translate(cfg.dialects[cfg.notePorts[port]], port, e)
      case None => s
      case Some(event) => PluginEvent(cfg, s, e.source, event)
  }

  function ReadBus(cfg: Config, s: Synth, port: nat, e: BusEvent): Synth
    requires cfg.Valid()
  {
    ReadBusEvent(cfg, s.(spreading := true), port, e).(spreading := false)
  }

  /** Everything one port's bus holds for a slice, in order. */
  function ReadAll(cfg: Config, s: Synth, port: nat, events: seq<BusEvent>): Synth
    requires cfg.Valid()
    decreases |events|
  {
    if events == [] then s else ReadAll(cfg, ReadBus(cfg, s, port, events[0]), port, events[1..])
  }

  function ReadPorts(cfg: Config, s: Synth, heard: seq<seq<BusEvent>>, port: nat): Synth
    requires cfg.Valid()
    decreases |heard| - port
  {
    if port >= |heard| then s else ReadPorts(cfg, ReadAll(cfg, s, port, heard[port]), heard, port + 1)
  }

  // ---- opening a block ----

  /** Deferred releases enter the new job first, as far as it takes them. */
  function Drain(s: Synth): Synth
    decreases |s.deferred|
  {
    if s.deferred == [] || !Accepts(s.job, s.deferred[0]) then s
    else Drain(s.(job := s.job + [s.deferred[0]], deferred := s.deferred[1..]))
  }

  /** Then what arrived while no job was open, in order. */
  function Refill(s: Synth): Synth
    decreases |s.pending|
  {
    if s.pending == [] || !s.open then s
    else Refill(Place(s.(pending := s.pending[1..]), s.pending[0]).0)
  }

  predicate NamesAll(e: Event) {
    e.noteId == -1 && e.port == -1 && e.channel == -1 && e.key == -1
  }

  predicate IsControl(e: Event) {
    (e.kind.Parameter? || e.kind.ParameterMod? || e.kind.GestureBegin? || e.kind.GestureEnd?) && NamesAll(e)
  }

  function ParameterIndex(parameters: seq<ParameterInfo>, id: nat, i: nat): (k: nat)
    requires i <= |parameters|
    ensures i <= k <= |parameters|
    ensures forall j :: i <= j < k ==> parameters[j].id != id
    ensures k < |parameters| ==> parameters[k].id == id
    decreases |parameters| - i
  {
    if i == |parameters| || parameters[i].id == id then i else ParameterIndex(parameters, id, i + 1)
  }

  /** The number in an event's id. */
  function IdNumber(id: Id): nat {
    match id
    case Number(n) => n
    case Message(status, data1, data2) => status + 256 * data1 + 65536 * data2
  }

  /** A parameter value the plugin reported: a bus map stays in charge of its
      parameter, and the plugin is to be told the map's value again. */
  function TakeReport(s: Synth, index: nat, value: real): Synth
    requires index < |s.maps| && index < |s.values| && index < |s.sent|
  {
    var mapped := s.maps[index].bus >= 0;
    s.(values := if mapped then s.values else s.values[index := Finite(value)],
       sent := s.sent[index := if mapped then NotANumber else Finite(value)],
       history := s.history.(trace := Then(s.history.trace, Reported(index, value, mapped))))
  }

  /** A control event the plugin reported; `false` when it ends the reading. */
  function ReceiveControl(cfg: Config, s: Synth, e: Event): (Synth, bool)
    requires Shaped(cfg, s)
  {
    var index := ParameterIndex(cfg.parameters, IdNumber(e.id), 0);
    if index == |cfg.parameters| then (Fail(s, Protocol), false)
    else if e.kind.Parameter? && !(cfg.parameters[index].min <= e.value <= cfg.parameters[index].max) then
      (Fail(s, Protocol), false)
    else
      var s1 := if e.kind.Parameter? then TakeReport(s, index, e.value) else s;
      if Accepts(s1.controlEvents, e) then (s1.(controlEvents := s1.controlEvents + [e]), true)
      else (Fail(s1, Capacity), false)
  }

  /** Whether a note-end of the plugin names a held note. */
  predicate Ends(e: Event, note: HeldNote) {
    || e.noteId == note.native
    || (&& e.noteId == -1
        && (e.port == -1 || note.port == e.port)
        && (e.channel == -1 || note.channel == e.channel)
        && (e.key == -1 || note.key == e.key))
  }

  function EndNote(s: Synth, i: nat): Synth
    requires i < HELD_NOTES && s.notes[i].Some?
  {
    var note := s.notes[i].value;
    var s1 := s.(notes := s.notes[i := None],
                 history := s.history.(trace := Then(s.history.trace, Ended(note.native))));
    if note.id >= -1 then s1
    else if |s1.ended| == EVENTS then Fail(s1, Capacity)
    else s1.(ended := s1.ended + [note.id])
  }

  function EndLoop(s: Synth, e: Event, i: nat): Synth
    decreases HELD_NOTES - i
  {
    if i >= HELD_NOTES then s
    else if s.notes[i].Some? && Ends(e, s.notes[i].value) then EndLoop(EndNote(s, i), e, i + 1)
    else EndLoop(s, e, i + 1)
  }

  /** The controls of a synth are those of its config, and its staged input has
      one block of samples for each input channel. */
  ghost predicate Shaped(cfg: Config, s: Synth) {
    && |s.values| == |s.maps| == cfg.Controls()
    && |s.sent| == |cfg.parameters|
    && |s.input| == FRAMES * Channels(cfg.inputs)
  }

  function Channels(inputs: seq<nat>): nat {
    if inputs == [] then 0 else inputs[0] + Channels(inputs[1..])
  }

  /** What the plugin reported for the block that falls due now. */
  function Receive(cfg: Config, s: Synth, events: seq<Event>): Synth
    requires Shaped(cfg, s)
    decreases |events|
  {
    if events == [] then s
    else
      var e := events[0];
      var (s1, more) := if IsControl(e) then ReceiveControl(cfg, s, e) else (s, true);
      if !more then s1
      else
        EndLoopShape(cfg, s1, e, 0);
        Receive(cfg, if e.kind.NoteEnd? then EndLoop(s1, e, 0) else s1, events[1..])
  }

  lemma EndLoopShape(cfg: Config, s: Synth, e: Event, i: nat)
    requires Shaped(cfg, s)
    ensures Shaped(cfg, EndLoop(s, e, i))
    decreases HELD_NOTES - i
  {
  }

  function Zeros(n: nat): seq<real> { seq(n, _ => 0.0) }

  /** One slice of a block as the scheduler hands it over: `received` is what
      falls due if the slice opens the job, `heard` what each note input's bus
      holds for the slice (nothing for a port that reads no bus). */
  datatype Slice = Slice(
    offset: nat,
    frames: nat,
    active: bool,
    playing: bool,
    position: nat,
    received: seq<Event>,
    heard: seq<seq<BusEvent>>)

  const MAX_POSITION: nat := 0x7FFF_FFFF_FFFF_FFFF

  function OpenJob(cfg: Config, s: Synth, slice: Slice): Synth
    requires Shaped(cfg, s)
  {
    var s0 := s.(open := true, job := [], spans := []);
    DrainShape(cfg, s0);
    RefillShape(cfg, Drain(s0));
    var s1 := Refill(Drain(s0));
    var s2 := Receive(cfg, s1.(input := Zeros(|s1.input|)), slice.received);
    if slice.offset == 0 then s2
    else s2.(spans := [Span(0, slice.offset, false, false, 0, 120.0)])
  }

  lemma DrainShape(cfg: Config, s: Synth)
    requires Shaped(cfg, s)
    ensures Shaped(cfg, Drain(s))
    decreases |s.deferred|
  {
  }

  lemma RefillShape(cfg: Config, s: Synth)
    requires Shaped(cfg, s)
    ensures Shaped(cfg, Refill(s))
    decreases |s.pending|
  {
  }

  function SpanOf(s: Synth, slice: Slice): Span {
    Span(slice.offset, slice.frames, slice.active, slice.playing,
         if slice.position < MAX_POSITION then slice.position else MAX_POSITION, s.tempo)
  }

  /** A slice joins the open job; `quiet` is the administrative phase at or past 2. */
  function Prepare(cfg: Config, s: Synth, slice: Slice, quiet: bool): Synth
    requires cfg.Valid() && Shaped(cfg, s)
  {
    if quiet then s
    else
      var s1 := if s.open then s else OpenJob(cfg, s, slice);
      if |s1.spans| == SPANS then Fail(s1, Capacity)
      else ReadPorts(cfg, s1.(spans := s1.spans + [SpanOf(s1, slice)]), slice.heard, 0)
  }

  // ---- processing a slice ----

  /** What a parameter would send is out of its range. */
  predicate OutOfRange(p: ParameterInfo, x: Float) {
    !x.Finite? || !(p.min <= x.v <= p.max)
  }

  function ParameterEvent(p: ParameterInfo, value: real, offset: nat): Event {
    DefaultEvent(offset, Parameter).(
      id := Number(p.id), value := value, noteId := -1, port := -1, channel := -1, key := -1)
  }

  function SendParameter(cfg: Config, s: Synth, i: nat, offset: nat): Synth
    requires Shaped(cfg, s) && i < |cfg.parameters|
  {
    var p := cfg.parameters[i];
    if FloatEqual(s.sent[i], s.values[i]) then s
    else if p.readOnly then s
    else if OutOfRange(p, s.values[i]) then Fail(s, Protocol)
    else if |s.job| >= PARAMETER_EVENTS then s
    else
      var e := ParameterEvent(p, s.values[i].v, offset);
      var s1 := if Accepts(s.job, e) then Record(s.(job := s.job + [e]), e) else Fail(s, Capacity);
      s1.(sent := s1.sent[i := s1.values[i]])
  }

  function SendParameters(cfg: Config, s: Synth, offset: nat, i: nat): Synth
    requires Shaped(cfg, s)
    decreases |cfg.parameters| - i
  {
    if i >= |cfg.parameters| then s else SendParameters(cfg, SendParameter(cfg, s, i, offset), offset, i + 1)
  }

  /** The audio bus an input channel reads, if any: walks the ports from `port`
      with `channel` counted from that port's first. */
  function BusOf(cfg: Config, values: seq<Float>, port: nat, channel: nat): Option<nat>
    requires |values| == cfg.Controls()
    decreases |cfg.inputs| - port
  {
    if port >= |cfg.inputs| then None
    else if channel >= cfg.inputs[port] then BusOf(cfg, values, port + 1, channel - cfg.inputs[port])
    else
      match values[|cfg.parameters| + port]
      case Finite(v) => if v >= 0.0 then Some(v.Floor + channel) else None
      case _ => None
  }

  /** What a processed slice stages for one channel and frame: the bus's sample,
      or silence where no bus is read. */
  function StagedSample(cfg: Config, values: seq<Float>, audio: seq<seq<real>>, channel: nat, frame: nat): real
    requires |values| == cfg.Controls()
    requires frame < FRAMES && forall b :: 0 <= b < |audio| ==> |audio[b]| == FRAMES
  {
    match BusOf(cfg, values, 0, channel)
    case Some(b) => if b < |audio| then audio[b][frame] else 0.0
    case None => 0.0
  }

  function Stage(cfg: Config, s: Synth, audio: seq<seq<real>>, offset: nat, frames: nat): seq<real>
    requires |s.values| == cfg.Controls()
    requires forall b :: 0 <= b < |audio| ==> |audio[b]| == FRAMES
  {
    seq(|s.input|, k requires 0 <= k < |s.input| =>
      if offset <= k % FRAMES < offset + frames
      then StagedSample(cfg, s.values, audio, k / FRAMES, k % FRAMES)
      else s.input[k])
  }

  /** The values of mapped controls follow their buses. */
  function FollowMaps(s: Synth, readings: seq<Float>): seq<Float>
    requires |readings| == |s.values| == |s.maps|
  {
    seq(|s.values|, i requires 0 <= i < |s.values| => if s.maps[i].bus >= 0 then readings[i] else s.values[i])
  }

  function Process(cfg: Config, s: Synth, offset: nat, frames: nat, readings: seq<Float>, audio: seq<seq<real>>,
                   quiet: bool): Synth
    requires Shaped(cfg, s)
    requires |readings| == |s.values|
    requires forall b :: 0 <= b < |audio| ==> |audio[b]| == FRAMES
  {
    if quiet then s
    else
      var s1 := s.(values := FollowMaps(s, readings));
      SendParametersShape(cfg, s1, offset, 0);
      var s2 := SendParameters(cfg, s1, offset, 0);
      s2.(input := Stage(cfg, s2, audio, offset, frames))
  }

  lemma SendParametersShape(cfg: Config, s: Synth, offset: nat, i: nat)
    requires Shaped(cfg, s)
    ensures Shaped(cfg, SendParameters(cfg, s, offset, i))
    decreases |cfg.parameters| - i
  {
  }

  // ---- closing a block and the rest ----

  /** Hands the job over: refused for good once failed, and a job that is not
      whole, or has no free slot, is itself a failure. */
  function Publish(s: Synth, slotFree: bool): Synth {
    if !Healthy(s) then s
    else if !SpansValid(s.spans) || !slotFree then Fail(s, Capacity)
    else s.(history := s.history.(delivered := s.history.delivered + s.job, jobs := s.history.jobs + 1))
  }

  function Finish(s: Synth, slotFree: bool, aborted: bool): Synth {
    var s1 := if s.open then Publish(s, slotFree).(open := false) else s;
    if aborted then Fail(s1, Protocol) else s1
  }

  function SetControl(cfg: Config, s: Synth, i: nat, v: Float): Synth {
    if i < |cfg.parameters| && cfg.parameters[i].readOnly then Fail(s, Protocol)
    else if i < |s.values| && i < |s.maps| then s.(values := s.values[i := v], maps := s.maps[i := UNMAPPED])
    else s
  }

  function MapControl(cfg: Config, s: Synth, i: nat, map': ControlMap): Synth {
    if i < |cfg.parameters| && cfg.parameters[i].readOnly then Fail(s, Protocol)
    else if i < |s.maps| then s.(maps := s.maps[i := map'])
    else s
  }

  function DrainReplies(s: Synth): Synth { s.(controlEvents := [], ended := []) }
}
