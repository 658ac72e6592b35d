/** What the lists of a job take and when a job is whole, by frames, kinds and
    bytes: where an event sent to the plugin goes, how a note is written on its
    port, and what closing a block hands over. */
module PluginLists {
  import opened Wrappers
  import opened PluginWire
  import opened PluginModel
  import opened PluginInvariants
  import opened PluginSteps
  import opened PluginRuns
  import opened PluginSpelling

  /** An event a list may hold: in the block, its address within MIDI's. */
  predicate WellFormed(e: Event) {
    && e.offset <= 63
    && (e.channel == -1 || 0 <= e.channel <= 15) && (e.key == -1 || 0 <= e.key <= 127)
    && e.port >= -1 && e.noteId >= -1
  }

  /** A list has room for an event at its place: no more than 63 before it, and none
      at a later frame. */
  ghost predicate Fits(list: seq<Event>, e: Event) {
    |list| <= 63 && WellFormed(e) && forall i :: 0 <= i < |list| ==> list[i].offset <= e.offset
  }

  lemma FitsExactly(list: seq<Event>, e: Event)
    requires IsList(list)
    ensures Accepts(list, e) <==> Fits(list, e)
  {
  }

  /** A note-off or choke, or the MIDI message for one: status 8, any channel. */
  predicate EndsANote(e: Event) {
    e.kind == NoteOff || e.kind == NoteChoke || (e.kind == Midi && 0x80 <= Status(e.id) < 0x90)
  }

  lemma ReleasesAre(e: Event)
    ensures IsRelease(e) <==> EndsANote(e)
  {
  }

  /** Where an event sent goes: into the open job, or without one to what waits, if
      that has room at its frame; else -- what ends a note, and anything read from a
      bus -- behind at most 255 others deferred to the next block's first frame; else
      nowhere, and the instance fails, for capacity unless it had failed before. It
      is logged if and only if it went somewhere. */
  lemma EmitGoes(cfg: Config, s: Synth, e: Event)
    requires Inv(cfg, s)
    ensures var s', later := Emit(s, e), e.(offset := 0);
            if s.open && Fits(s.job, e) then s' == s.(job := s.job + [e], history := s'.history) && Sends(s, s', e)
            else if !s.open && Fits(s.pending, e) then
              s' == s.(pending := s.pending + [e], history := s'.history) && Sends(s, s', e)
            else if (EndsANote(e) || s.spreading) && |s.deferred| <= 255 then
              s' == s.(deferred := s.deferred + [later], history := s'.history) && Sends(s, s', e)
            else s' == s.(failure := if Healthy(s) then Capacity else s.failure)
  {
    hide Table, Ring, Accepts, Fits, IsRelease, EndsANote, Ledger;
    FitsExactly(s.job, e);
    FitsExactly(s.pending, e);
    ReleasesAre(e);
  }

  ghost predicate Sends(s: Synth, s': Synth, e: Event) {
    Log(s'.history.trace) == Log(s.history.trace) + [e]
  }

  /** How a note of a channel is written: on a native port as it is; on one that
      takes only MIDI as a message of three bytes -- note-on or note-off with the
      channel in the low four bits, the key, and the velocity within 1/254 -- at
      the same frame and under the same identity. */
  lemma DialectExactly(cfg: Config, e: Event)
    requires cfg.HasPort(e.port)
    requires 0 <= e.channel <= 15 && 0 <= e.key <= 127 && 0.0 <= e.value <= 1.0
    ensures var m := InDialect(cfg, e);
            if cfg.dialects[e.port].native then m == e
            else
              && m.id.Message? && m.id.status == (if e.kind == NoteOn then 0x90 else 0x80) + e.channel && m.id.data1 == e.key
              && m.id.data2 <= 127 && Within(m.id.data2 as real / 127.0, e.value, 1.0 / 254.0)
              && m == Event(e.offset, Midi, m.id, e.noteId, e.port, e.channel, e.key, e.value)
  {
    hide BitOr, Spell, Within;
    SpellsPlainly(9, e);
    SpellsPlainly(8, e);
    VelocityNear(e.value);
  }

  /** A note of every channel cannot be written for a port that takes only MIDI: all
      three bytes come out as 255, which is no note message; one of every key has the
      channel and then 255 for key and velocity. */
  lemma NoDialect(cfg: Config, e: Event)
    requires cfg.HasPort(e.port) && !cfg.dialects[e.port].native
    requires -1 <= e.channel <= 15 && -1 <= e.key <= 127 && (e.channel == -1 || e.key == -1)
    ensures var m := InDialect(cfg, e);
            && m == Event(e.offset, Midi, m.id, e.noteId, e.port, e.channel, e.key, e.value)
            && m.id == Message(if e.channel == -1 then 255 else (if e.kind == NoteOn then 0x90 else 0x80) + e.channel, 255, 255)
  {
    hide BitOr, ToU32, Round;
    var velocity := ByteOf(ToU32(Round(e.value * 127.0)), 0);
    if e.channel == -1 {
      OnesStay(0x90);
      OnesStay(0x80);
      OnesStay(ByteOf(e.key, 0));
      OnesStay(ByteOf(e.key, 1));
    } else {
      SpellsStatus(9, e);
      SpellsStatus(8, e);
      OnesStay(0);
    }
    OnesStay(velocity);
  }

  lemma OnesStay(b: nat)
    requires b <= 255
    ensures BitOr(255, b) == 255 == BitOr(b, 255)
  {
    hide BitOr;
    FourOnes(b / 16);
    OddOr(15, b / 8);
    OddOr(31, b / 4);
    OddOr(63, b / 2);
    OddOr(127, b);
  }

  lemma FourOnes(b: nat)
    requires b <= 15
    ensures BitOr(15, b) == 15 == BitOr(b, 15)
  {
    hide BitOr;
    BitOrZero(0);
    OddOr(0, b / 8);
    OddOr(1, b / 4);
    OddOr(3, b / 2);
    OddOr(7, b);
  }

  lemma OddOr(a: nat, b: nat)
    ensures BitOr(2 * a + 1, b) == 2 * BitOr(a, b / 2) + 1
    ensures BitOr(b, 2 * a + 1) == 2 * BitOr(b / 2, a) + 1
  {
    BitOrZero(a);
  }

  lemma VelocityNear(v: real)
    requires 0.0 <= v <= 1.0
    ensures 0 <= Round(v * 127.0) <= 127 && Within(Round(v * 127.0) as real / 127.0, v, 1.0 / 254.0)
  {
    RoundScaled(v, 127);
    RoundWithin(v * 127.0);
  }

  /** The bytes of an event's id: the three low ones of its number, lowest first. */
  lemma BytesExactly(n: nat, status: nat, data1: nat, data2: nat)
    ensures var id := Number(n);
            && Status(id) <= 255 && Data1(id) <= 255 && Data2(id) <= 255
            && Status(id) + 0x100 * Data1(id) + 0x1_0000 * Data2(id) == n % 0x100_0000
            && IdNumber(id) == n
    ensures var id := Message(status, data1, data2);
            && Status(id) == status && Data1(id) == data1 && Data2(id) == data2
            && IdNumber(id) == status + 0x100 * data1 + 0x1_0000 * data2
  {
    LowBytes(n);
  }

  lemma LowBytes(n: nat)
    ensures n % 0x100 + 0x100 * (n / 0x100 % 0x100) + 0x1_0000 * (n / 0x1_0000 % 0x100) == n % 0x100_0000
  {
    var q := n / 0x100_0000;
    var r := n - 0x100_0000 * q;
    assert r == n % 0x100_0000;
    assert n / 0x1_0000 == 0x100 * q + r / 0x1_0000 && n / 0x100 == 0x1_0000 * q + r / 0x100;
    SplitBytes(r);
    assert (0x100 * q + r / 0x1_0000) % 0x100 == r / 0x1_0000;
    assert (0x1_0000 * q + r / 0x100) % 0x100 == r / 0x100 % 0x100;
    assert (0x100_0000 * q + r) % 0x100 == r % 0x100;
  }

  lemma SplitBytes(r: nat)
    requires r < 0x100_0000
    ensures r % 0x100 + 0x100 * (r / 0x100 % 0x100) + 0x1_0000 * (r / 0x1_0000) == r && r / 0x1_0000 < 0x100
  {
    var high := r / 0x100;
    assert high / 0x100 == r / 0x1_0000;
  }

  // ---- closing a block ----

  /** Spans one after the other from one frame to another, none of them empty. */
  ghost predicate Follow(spans: seq<Span>, from: nat, to: nat) {
    && (spans == [] ==> from == to)
    && (spans != [] ==> spans[0].offset == from && spans[|spans| - 1].offset + spans[|spans| - 1].frames == to)
    && (forall i :: 0 <= i < |spans| ==> spans[i].frames >= 1)
    && (forall i :: 0 < i < |spans| ==> spans[i].offset == spans[i - 1].offset + spans[i - 1].frames)
  }

  lemma {:induction false} TilesExactly(spans: seq<Span>, from: nat, to: nat)
    ensures Tiles(spans, from, to) <==> Follow(spans, from, to)
    decreases |spans|
  {
    if spans != [] {
      var rest, next := spans[1..], from + spans[0].frames;
      TilesExactly(rest, next, to);
      assert rest != [] ==> rest[|rest| - 1] == spans[|spans| - 1];
      if Follow(spans, from, to) {
        assert rest != [] ==> rest[0] == spans[1];
        assert forall i :: 0 < i < |rest| ==> rest[i] == spans[i + 1] && rest[i - 1] == spans[i];
        assert Follow(rest, next, to);
      } else if spans[0].offset == from && spans[0].frames > 0 && Follow(rest, next, to) {
        forall i | 0 < i < |spans| ensures spans[i].offset == spans[i - 1].offset + spans[i - 1].frames {
          if i > 1 { assert spans[i] == rest[i - 1] && spans[i - 1] == rest[i - 2]; }
        }
        assert false;
      }
    }
  }

  /** One to eight spans that follow one another over the block's 64 frames, each
      with a tempo. */
  ghost predicate WholeBlock(spans: seq<Span>) {
    1 <= |spans| <= 8 && Follow(spans, 0, 64) && forall i :: 0 <= i < |spans| ==> spans[i].tempo > 0.0
  }

  /** Closing a block hands its job over if and only if one is open, the instance is
      healthy, its spans are the whole block's and a slot is free; an open job not
      handed over fails a healthy instance for capacity, and an abort fails what is
      healthy then. Nothing else changes but that no job is open. */
  lemma CloseExactly(cfg: Config, s: Synth, slotFree: bool, aborted: bool)
    requires Good(cfg, s)
    ensures var handed := s.open && Healthy(s) && WholeBlock(s.spans) && slotFree;
            Do(cfg, s, Close(slotFree, aborted)) ==
            s.(open := false,
               failure := if !Healthy(s) then s.failure
                          else if s.open && !handed then Capacity
                          else if aborted then Protocol
                          else Running,
               history := if handed
                          then s.history.(delivered := s.history.delivered + s.job, jobs := s.history.jobs + 1)
                          else s.history)
  {
    hide Inv, Tiles, Follow, Shaped;
    TilesExactly(s.spans, 0, 64);
  }
}
