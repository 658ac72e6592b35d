/** A port that takes only MIDI hears what a native port hears, as far as MIDI
    can say it. */
module PluginSpelling {
  import opened Wrappers
  import opened PluginWire
  import opened PluginModel
  import opened PluginInvariants
  import opened PluginSteps

  const MIDI_ONLY := Dialect(false, true)
  const NATIVE_ONLY := Dialect(true, false)

  predicate Within(a: real, b: real, error: real) { -error <= a - b <= error }

  /** A message as a native port reads it: `None` unless it is an expression. */
  function ReadBack(e: Event): Option<(nat, int, real)> {
    AsExpression(HighNibble(Status(e.id)), Data1(e.id), Data2(e.id))
  }

  /** The messages a native port has an expression for, and no others: a key's and a
      channel's pressure, the bend in semitones, volume, pan, expression and
      brightness. */
  lemma ReadBackExactly(e: Event)
    ensures var status, d1, d2, r := Status(e.id), Data1(e.id), Data2(e.id), ReadBack(e);
            && (0xa0 <= status < 0xb0 ==> r == Some((6, d1, d2 as real / 127.0)))
            && (0xd0 <= status < 0xe0 ==> r == Some((6, -1, d1 as real / 127.0)))
            && (0xe0 <= status < 0xf0 ==>
                  r.Some? && r.value.0 == 2 && r.value.1 == -1 && r.value.2 * 4096.0 + 8192.0 == (d1 + 128 * d2) as real)
            && (0xb0 <= status < 0xc0 && d1 == 7 ==> r == Some((0, -1, d2 as real / 127.0)))
            && (0xb0 <= status < 0xc0 && d1 == 10 ==>
                  r.Some? && r.value.0 == 1 && r.value.1 == -1 && (r.value.2 + 1.0) / 2.0 == d2 as real / 127.0)
            && (0xb0 <= status < 0xc0 && d1 == 11 ==> r == Some((4, -1, d2 as real / 127.0)))
            && (0xb0 <= status < 0xc0 && d1 == 74 ==> r == Some((5, -1, d2 as real / 127.0)))
            && (r.Some? ==>
                  || 0xa0 <= status < 0xb0 || 0xd0 <= status < 0xf0
                  || (0xb0 <= status < 0xc0 && (d1 == 7 || d1 == 10 || d1 == 11 || d1 == 74)))
  {
    var d := Data2(e.id) as real;
    assert d / 63.5 == 2.0 * (d / 127.0);
  }

  predicate DataBytes(e: Event) { Data1(e.id) <= 127 && Data2(e.id) <= 127 }

  lemma RoundWithin(x: real)
    ensures Within(Round(x) as real, x, 0.5)
  {
  }

  lemma Data7Within(v: real)
    requires 0.0 <= v <= 1.0
    ensures 0 <= Data7(v) <= 127 && Within(Data7(v) as real / 127.0, v, 1.0 / 254.0)
  {
    Data7Range(v);
    RoundWithin(v * 127.0);
    RoundScaled(v, 127);
  }

  /** A value is at least half exactly when its byte is. */
  lemma HalfDown(v: real)
    ensures Data7(v) >= 64 <==> v >= 0.5
  {
  }

  /** A bend of `x` is 14 bits no further than half a step from `8192 + 8191x`. */
  lemma BendWithin(x: real)
    requires -1.0 <= x <= 1.0
    ensures 1 <= Bend14(x) <= 16383
    ensures Within((Bend14(x) as real - 8192.0) / 4096.0, 2.0 * x, 3.0 / 8192.0)
  {
    var y := x * 8191.0 + 8192.0;
    RoundWithin(y);
    assert 1.0 <= y <= 16383.0;
    assert Bend14(x) == Round(y);
  }

  /** Outside [-1, 1] a bend is the nearer end's. */
  lemma BendClamps(x: real)
    ensures Bend14(x) == Bend14(if x < -1.0 then -1.0 else if x > 1.0 then 1.0 else x)
  {
  }

  lemma BendNear(x: real)
    ensures var y := if x < -1.0 then -1.0 else if x > 1.0 then 1.0 else x;
            1 <= Bend14(x) <= 16383 && Within(Bend14(x) as real, 8192.0 + 8191.0 * y, 0.5)
  {
    var y := if x < -1.0 then -1.0 else if x > 1.0 then 1.0 else x;
    BendClamps(x);
    BendWithin(y);
    RoundWithin(y * 8191.0 + 8192.0);
  }

  /** Seven low bits and seven high bits give the number back. */
  lemma SplitBend(v: nat)
    requires v <= 16383
    ensures v % 128 + 128 * (v / 128 % 128) == v && v / 128 % 128 == v / 128 <= 127
  {
  }

  lemma Nibble(high: nat, e: BusEvent)
    requires -1 <= e.channel <= 15
    ensures HighNibble(StatusByte(16 * high, e)) == 16 * high
  {
    HighNibbles(e, high);
  }

  lemma BendReadsBack(port: nat, e: BusEvent, x: real)
    requires -1 <= e.channel <= 15 && -1.0 <= x <= 1.0
    ensures var m := BendBytes(port, e, Bend14(x));
            && DataBytes(m)
            && var r := ReadBack(m);
               r.Some? && r.value.0 == 2 && r.value.1 == -1 && Within(r.value.2, 2.0 * x, 3.0 / 8192.0)
  {
    hide Bend14, StatusByte, HighNibble;
    BendWithin(x);
    SplitBend(Bend14(x));
    Nibble(14, e);
  }

  /** A bend or a channel tuning in range: two data bytes, and read back on a
      native port, the native value within 3/8192 semitone. */
  lemma BendAgrees(port: nat, e: BusEvent)
    requires -1 <= e.channel <= 15
    requires
      || (e.kind.BusBend? && -1.0 <= e.value <= 1.0)
      || (e.kind.BusExpression? && e.index == 2 && e.key < 0 && e.noteId < 0 && -2.0 <= e.value <= 2.0)
    ensures var midi, native := Translate(MIDI_ONLY, port, e), Translate(NATIVE_ONLY, port, e);
            && midi.Some? && native.Some? && DataBytes(midi.value)
            && native.value.kind.Expression? && native.value.id == Number(2)
            && var r := ReadBack(midi.value);
               r.Some? && r.value.0 == 2 && r.value.1 == -1 && Within(r.value.2, native.value.value, 3.0 / 8192.0)
  {
    hide Bend14, StatusByte, BendBytes, ReadBack;
    BendReadsBack(port, e, if e.kind.BusBend? then e.value else e.value / 2.0);
  }

  /** What a bus event is as an expression of its channel or key: index and key. */
  function Continuous(e: BusEvent): Option<(nat, int)> {
    match e.kind
    case BusPressure => Some((6, -1))
    case BusExpression =>
      if e.index == 6 && e.key >= 0 then Some((6, e.key))
      else if e.noteId >= 0 || e.key >= 0 then None
      else if e.index == 0 || e.index == 4 || e.index == 5 || e.index == 6 then Some((e.index, -1))
      else None
    case BusController =>
      if e.index == 7 then Some((0, -1))
      else if e.index == 11 then Some((4, -1))
      else if e.index == 74 then Some((5, -1))
      else None
    case _ => None
  }

  /** Pressure, volume, brightness and expression: data bytes in range, and read
      back on a native port, the same expression of the same key, its value
      within 1/254. */
  lemma ContinuousAgrees(port: nat, e: BusEvent)
    requires -1 <= e.channel <= 15 && -1 <= e.key <= 127 && 0.0 <= e.value <= 1.0
    requires Continuous(e).Some?
    ensures var midi, native := Translate(MIDI_ONLY, port, e), Translate(NATIVE_ONLY, port, e);
            && midi.Some? && native.Some? && DataBytes(midi.value)
            && native.value.kind.Expression? && native.value.id == Number(Continuous(e).value.0)
            && native.value.value == e.value
            && var r := ReadBack(midi.value);
               && r.Some? && r.value.0 == Continuous(e).value.0 && r.value.1 == Continuous(e).value.1
               && Within(r.value.2, e.value, 1.0 / 254.0)
  {
    hide Data7, StatusByte, HighNibble, Within, Bend14;
    Data7Within(e.value);
    Nibble(10, e);
    Nibble(11, e);
    Nibble(13, e);
  }

  /** Pan is read over another range than it is spelled from: a pan of `v` in
      [0, 1] reads back on a native port near `2v - 1`, so as near to `v` as the
      other expressions only at the far right. */
  lemma PanReadsBack(port: nat, e: BusEvent)
    requires -1 <= e.channel <= 15 && 0.0 <= e.value <= 1.0
    requires
      || (e.kind.BusController? && e.index == 10)
      || (e.kind.BusExpression? && e.index == 1 && e.key < 0 && e.noteId < 0)
    ensures var midi, native := Translate(MIDI_ONLY, port, e), Translate(NATIVE_ONLY, port, e);
            && midi.Some? && native.Some? && DataBytes(midi.value) && native.value.value == e.value
            && var r := ReadBack(midi.value);
               && r.Some? && r.value.0 == 1 && native.value.id == Number(1)
               && Within(r.value.2, 2.0 * e.value - 1.0, 1.0 / 127.0)
               && (Within(r.value.2, e.value, 1.0 / 254.0) ==> e.value >= 1.0 - 3.0 / 254.0)
  {
    hide Data7, StatusByte, HighNibble, Bend14;
    Data7Within(e.value);
    Nibble(11, e);
    var data := Data7(e.value) as real;
    assert data / 63.5 - 1.0 == 2.0 * (data / 127.0) - 1.0;
  }

  /** A note-on spelled for a MIDI port keeps its channel and key and its
      velocity within 1/254; it is still a note-on to a MIDI reader if and only
      if its velocity is at least 1/254. */
  lemma NoteOnReadsBack(e: Event)
    requires 0 <= e.channel <= 15 && 0 <= e.key <= 127 && 0.0 <= e.value <= 1.0
    ensures var m := Spell(0x90, e);
            && HighNibble(m.status) == 0x90 && m.status % 16 == e.channel && m.data1 == e.key && m.data2 <= 127
            && Within(m.data2 as real / 127.0, e.value, 1.0 / 254.0)
            && (m.data2 != 0 <==> e.value >= 1.0 / 254.0)
  {
    hide BitOr, Spell;
    SpellsPlainly(9, e);
    RoundWithin(e.value * 127.0);
  }
}
