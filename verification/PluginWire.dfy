/** The event record, the bounded event list and the span list that one job
    carries to an isolated plugin (crates/clausters-core/src/plugin_shm.rs). */
module PluginWire {
  const EVENTS: nat := 64
  const SPANS: nat := 8
  const FRAMES: nat := 64

  datatype Kind =
    | NoteOn
    | NoteOff
    | NoteChoke
    | Parameter
    | Midi
    | Expression
    | NoteEnd
    | ParameterMod
    | GestureBegin
    | GestureEnd

  /** The 32-bit `id` of an event: a number, or the three bytes it packs when
      the event is a MIDI message. */
  datatype Id = Number(n: nat) | Message(status: nat, data1: nat, data2: nat)

  datatype Event = Event(
    offset: nat,
    kind: Kind,
    id: Id,
    noteId: int,
    port: int,
    channel: int,
    key: int,
    value: real)

  predicate Valid(e: Event) {
    && e.offset < FRAMES
    && e.port >= -1
    && -1 <= e.channel <= 15
    && -1 <= e.key <= 127
    && e.noteId >= -1
  }

  /** What an event list takes: room, a valid event, offsets that never go back. */
  predicate Accepts(list: seq<Event>, e: Event) {
    && |list| < EVENTS
    && Valid(e)
    && (list != [] ==> list[|list| - 1].offset <= e.offset)
  }

  /** A list that pushes alone can have built. */
  ghost predicate IsList(list: seq<Event>) {
    && |list| <= EVENTS
    && (forall i :: 0 <= i < |list| ==> Valid(list[i]))
    && (forall i, j :: 0 <= i <= j < |list| ==> list[i].offset <= list[j].offset)
  }

  function HighNibble(b: nat): nat { b - b % 16 }

  /** The status byte of a MIDI event's id. */
  function Status(id: Id): nat {
    match id
    case Number(n) => n % 256
    case Message(status, _, _) => status
  }

  function Data1(id: Id): nat {
    match id
    case Number(n) => n / 256 % 256
    case Message(_, data1, _) => data1
  }

  function Data2(id: Id): nat {
    match id
    case Number(n) => n / 65536 % 256
    case Message(_, _, data2) => data2
  }

  predicate IsMidi(e: Event, status: nat) {
    e.kind.Midi? && HighNibble(Status(e.id)) == status
  }

  /** A release in either spelling: what the list defers rather than loses. */
  predicate IsRelease(e: Event) {
    e.kind.NoteOff? || e.kind.NoteChoke? || IsMidi(e, 0x80)
  }

  /** An attack in either spelling. */
  predicate IsAttack(e: Event) {
    e.kind.NoteOn? || IsMidi(e, 0x90)
  }

  datatype Span = Span(
    offset: nat,
    frames: nat,
    active: bool,
    playing: bool,
    position: nat,
    tempo: real)

  /** Spans that start at `from` and cover every frame up to `to` exactly once. */
  predicate Tiles(spans: seq<Span>, from: nat, to: nat)
    decreases |spans|
  {
    if spans == [] then from == to
    else
      && spans[0].offset == from
      && spans[0].frames > 0
      && Tiles(spans[1..], from + spans[0].frames, to)
  }

  /** The checks `Job::valid` makes on the spans before a job is handed over. */
  predicate SpansValid(spans: seq<Span>) {
    && 0 < |spans| <= SPANS
    && (forall i :: 0 <= i < |spans| ==> spans[i].tempo > 0.0)
    && Tiles(spans, 0, FRAMES)
  }

  /** Bitwise or of two unsigned numbers. */
  function BitOr(a: nat, b: nat): nat
    decreases a + b
  {
    if a == 0 then b
    else if b == 0 then a
    else 2 * BitOr(a / 2, b / 2) + (if a % 2 == 1 || b % 2 == 1 then 1 else 0)
  }

  /** Byte `index` of a signed number cast to 32 bits unsigned. */
  function ByteOf(x: int, index: nat): nat
    requires index < 4
  {
    match index
    case 0 => x % 256
    case 1 => x / 256 % 256
    case 2 => x / 65536 % 256
    case _ => x / 16777216 % 256
  }

  /** Rounds half away from zero. */
  function Round(x: real): int {
    if x >= 0.0 then (x + 0.5).Floor else -((-x + 0.5).Floor)
  }

  /** A rounded value cast to 32 bits unsigned, which saturates. */
  function ToU32(x: int): nat {
    if x < 0 then 0 else if x > 0xFFFF_FFFF then 0xFFFF_FFFF else x
  }

  /** A note spelled as a MIDI message: the low three bytes of
      `(status | channel) | key << 8 | velocity << 16`. A channel or key of -1
      sets every bit it is shifted over. */
  function Spell(status: nat, e: Event): Id {
    Message(
      BitOr(status, ByteOf(e.channel, 0)),
      BitOr(ByteOf(e.channel, 1), ByteOf(e.key, 0)),
      BitOr(BitOr(ByteOf(e.channel, 2), ByteOf(e.key, 1)), ByteOf(ToU32(Round(e.value * 127.0)), 0)))
  }

  lemma BitOrNibble(high: nat, low: nat)
    requires low < 16
    ensures BitOr(16 * high, low) == 16 * high + low
  {
    hide BitOr;
    BitOrZero(high);
    var h, l := 16 * high, low;
    assert h / 2 / 2 / 2 / 2 == high;
    BitOrEven(8 * high, l / 2, l % 2);
    BitOrEven(4 * high, l / 2 / 2, l / 2 % 2);
    BitOrEven(2 * high, l / 2 / 2 / 2, l / 2 / 2 % 2);
    BitOrEven(high, 0, l / 2 / 2 / 2);
  }

  lemma BitOrEven(a: nat, b: nat, bit: nat)
    requires bit < 2
    ensures BitOr(2 * a, 2 * b + bit) == 2 * BitOr(a, b) + bit
  {
    assert (2 * a) / 2 == a && (2 * b + bit) / 2 == b;
    if a == 0 { assert BitOr(a, b) == b; }
  }

  lemma RoundScaled(x: real, scale: int)
    requires 0.0 <= x <= 1.0 && 0 <= scale
    ensures 0 <= Round(x * scale as real) <= scale
  {
    var y := x * scale as real;
    assert 0.0 <= y <= scale as real;
  }

  lemma SpellsStatus(high: nat, e: Event)
    requires high < 16 && 0 <= e.channel <= 15
    ensures Spell(16 * high, e).status == 16 * high + e.channel
    ensures HighNibble(Spell(16 * high, e).status) == 16 * high
  {
    hide BitOr;
    BitOrNibble(high, e.channel);
  }

  lemma BitOrZero(a: nat)
    ensures BitOr(0, a) == a == BitOr(a, 0)
  {
  }

  /** On a real channel and key the spelling is the ordinary one: a status byte
      with the channel, the key, the velocity. */
  lemma SpellsPlainly(high: nat, e: Event)
    requires high < 16
    requires 0 <= e.channel <= 15 && 0 <= e.key <= 127 && 0.0 <= e.value <= 1.0
    ensures Spell(16 * high, e) == Message(16 * high + e.channel, e.key, Round(e.value * 127.0))
    ensures Round(e.value * 127.0) <= 127
  {
    hide BitOr;
    SpellsStatus(high, e);
    var velocity := Round(e.value * 127.0);
    RoundScaled(e.value, 127);
    BitOrZero(e.key);
    BitOrZero(velocity);
    BitOrZero(0);
    assert ByteOf(ToU32(velocity), 0) == velocity;
    assert ByteOf(e.channel, 1) == ByteOf(e.channel, 2) == ByteOf(e.key, 1) == 0;
  }

  lemma {:induction false} TilesSnoc(spans: seq<Span>, s: Span, from: nat, to: nat)
    requires Tiles(spans, from, to)
    requires s.offset == to && s.frames > 0
    ensures Tiles(spans + [s], from, to + s.frames)
    decreases |spans|
  {
    if spans == [] {
      assert ([s])[1..] == [];
    } else {
      assert (spans + [s])[1..] == spans[1..] + [s];
      TilesSnoc(spans[1..], s, from + spans[0].frames, to);
    }
  }
}
