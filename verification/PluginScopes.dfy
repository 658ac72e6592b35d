/** Whose notes and pedals a stop takes: of everything, of one lane or of the lanes
    of one transport, by how the writers' sources are built. */
module PluginScopes {
  import opened Wrappers
  import opened PluginWire
  import opened PluginModel
  import opened PluginInvariants
  import opened PluginSteps
  import opened PluginRuns
  import opened PluginPedals
  import opened PluginStop

  const TWO31: int := 0x8000_0000
  const TWO95: nat := 0x8000_0000_0000_0000_0000_0000
  const TWO96: nat := 0x1_0000_0000_0000_0000_0000_0000
  const TWO97: nat := 0x2_0000_0000_0000_0000_0000_0000

  /** Who writes notes: an event lane of a transport, with its data's generation; a
      client by the number it writes to a bus or sends events under; or the system's
      MIDI input. */
  datatype Writer =
    | OfLane(lane: int, generation: nat, transport: nat)
    | OnBus(client: nat)
    | Direct(client: nat)
    | SystemMidi(channel: nat)

  predicate WriterValid(w: Writer) {
    match w
    case OfLane(lane, generation, transport) => -TWO31 <= lane < TWO31 && generation < TWO32 && transport < TWO32
    case OnBus(client) => client < TWO32
    case Direct(client) => client < TWO32
    case SystemMidi(channel) => channel < 0x1_0000
  }

  function SourceOf(w: Writer): nat
    requires WriterValid(w)
  {
    match w
    case OfLane(lane, generation, transport) => TWO96 + transport * TWO32 * TWO32 + (lane % TWO32) * TWO32 + generation
    case OnBus(client) => TWO97 + client
    case Direct(client) => client
    case SystemMidi(channel) => TWO95 + channel
  }

  /** Whether a scope takes in a writer's notes. */
  predicate TakesIn(scope: Scope, w: Writer) {
    match scope
    case Everything => true
    case Lane(lane) => w.OfLane? && w.lane == lane
    case OfTransport(transport) => w.OfLane? && w.transport == transport
  }

  predicate ScopeValid(scope: Scope) {
    match scope
    case Everything => true
    case Lane(lane) => -TWO31 <= lane < TWO31
    case OfTransport(transport) => transport < TWO32
  }

  lemma LaneFields(transport: nat, lane: nat, generation: nat)
    requires transport < TWO32 && lane < TWO32 && generation < TWO32
    ensures var source := TWO96 + transport * TWO32 * TWO32 + lane * TWO32 + generation;
            && source / TWO32 == TWO32 * TWO32 + transport * TWO32 + lane
            && source / TWO32 / TWO32 == TWO32 + transport
            && source / TWO32 / TWO32 / TWO32 == 1
            && source / TWO32 % TWO32 == lane && source / TWO32 / TWO32 % TWO32 == transport
  {
    var high := TWO32 + transport;
    var middle := high * TWO32 + lane;
    assert TWO96 + transport * TWO32 * TWO32 + lane * TWO32 + generation == middle * TWO32 + generation;
  }

  lemma GovernsExactly(scope: Scope, w: Writer)
    requires WriterValid(w) && ScopeValid(scope)
    ensures Governs(scope, SourceOf(w)) <==> TakesIn(scope, w)
  {
    match w
    case OfLane(lane, generation, transport) => LaneFields(transport, lane % TWO32, generation);
    case OnBus(client) =>
    case Direct(client) =>
    case SystemMidi(channel) =>
  }

  /** A stop takes out of the tables exactly the notes and pedals of the writers in
      its scope: a lane's are those of that lane, whatever their generation and
      transport, a transport's those of all its lanes, and a client's or the MIDI
      input's go only with everything. */
  lemma StopExactly(cfg: Config, s: Synth, scope: Scope, offset: nat, w: Writer, k: nat)
    requires Good(cfg, s) && ScopeValid(scope) && WriterValid(w)
    ensures var s' := Do(cfg, s, Stop(scope, offset));
            && (k < HELD_NOTES && s.notes[k].Some? && s.notes[k].value.source == SourceOf(w) ==>
                  s'.notes[k] == if TakesIn(scope, w) then None else s.notes[k])
            && (k < PEDALS && s.pedals[k].Some? && s.pedals[k].value.source == SourceOf(w) ==>
                  s'.pedals[k] == if TakesIn(scope, w) then None else s.pedals[k])
            && (k < HELD_NOTES && s.notes[k].None? ==> s'.notes[k].None?)
            && (k < PEDALS && s.pedals[k].None? ==> s'.pedals[k].None?)
  {
    hide Inv, ReleaseLoop, SourceOf, Governs, TakesIn;
    GovernsExactly(scope, w);
    ReleaseInv(cfg, s, scope, offset);
    ReleaseLoopNotes(cfg, s, scope, offset, 0);
  }

  /** What it sends: one choke for each note it takes, in slot order, under the note's
      identity, channel and key at the frame of the stop. */
  function Choked(cfg: Config, notes: NoteTable, scope: Scope, offset: nat, i: nat): seq<Event>
    requires PortsKnown(cfg, notes)
    decreases HELD_NOTES - i
  {
    if i >= HELD_NOTES then []
    else
      (if notes[i].Some? && Governs(scope, notes[i].value.source) then
        [InDialect(cfg, Choke(notes[i].value, offset))]
      else []) + Choked(cfg, notes, scope, offset, i + 1)
  }

  lemma {:induction false} ChokedSame(cfg: Config, notes: NoteTable, notes': NoteTable, scope: Scope, offset: nat, i: nat)
    requires PortsKnown(cfg, notes) && PortsKnown(cfg, notes') && forall k :: i <= k < HELD_NOTES ==> notes[k] == notes'[k]
    ensures Choked(cfg, notes, scope, offset, i) == Choked(cfg, notes', scope, offset, i)
    decreases HELD_NOTES - i
  {
    hide InDialect, Governs;
    if i < HELD_NOTES { ChokedSame(cfg, notes, notes', scope, offset, i + 1); }
  }

  lemma ChokeSends(cfg: Config, s: Synth, offset: nat, i: nat)
    requires PortsKnown(cfg, s.notes) && s.nextOrphan < ORPHANS && i < HELD_NOTES && s.notes[i].Some?
    ensures var s', n := ChokeSlot(cfg, s, offset, i), s.notes[i].value;
            && s'.notes == s.notes[i := None] && PortsKnown(cfg, s'.notes) && s'.nextOrphan < ORPHANS
            && (Healthy(s') ==>
                  && Healthy(s)
                  && Log(s'.history.trace) == Log(s.history.trace) +
                     [InDialect(cfg, Choke(n, offset))])
  {
    hide Emit, InDialect;
    var n := s.notes[i].value;
    var s1 := if n.id == -1 then RecordCut(s, Orphan(n.source, n.port, n.channel, n.key), n.released) else s;
    EmitEffect(s1.(notes := s1.notes[i := None]), InDialect(cfg, Choke(n, offset)));
  }

  lemma {:induction false} ReleaseSends(cfg: Config, s: Synth, scope: Scope, offset: nat, i: nat)
    requires PortsKnown(cfg, s.notes) && s.nextOrphan < ORPHANS
    ensures var s' := ReleaseLoop(cfg, s, scope, offset, i);
            Healthy(s') ==> Healthy(s) && Log(s'.history.trace) == Log(s.history.trace) + Choked(cfg, s.notes, scope, offset, i)
    decreases HELD_NOTES - i
  {
    hide ChokeSlot, InDialect, Governs;
    if i < HELD_NOTES {
      if s.notes[i].Some? && Governs(scope, s.notes[i].value.source) {
        var n := s.notes[i].value;
        var choke := Choke(n, offset);
        ChokeSends(cfg, s, offset, i);
        var s2 := ChokeSlot(cfg, s, offset, i);
        ReleaseSends(cfg, s2, scope, offset, i + 1);
        ChokedSame(cfg, s.notes, s2.notes, scope, offset, i + 1);
        assert Log(s.history.trace) + [InDialect(cfg, choke)] + Choked(cfg, s.notes, scope, offset, i + 1)
            == Log(s.history.trace) + Choked(cfg, s.notes, scope, offset, i);
      } else {
        ReleaseSends(cfg, s, scope, offset, i + 1);
      }
    }
  }

  lemma StopSends(cfg: Config, s: Synth, scope: Scope, offset: nat)
    requires Good(cfg, s)
    ensures PortsKnown(cfg, s.notes)
    ensures var s' := Do(cfg, s, Stop(scope, offset));
            Healthy(s') ==> Log(s'.history.trace) == Log(s.history.trace) + Choked(cfg, s.notes, scope, offset, 0)
  {
    hide Inv, ReleaseLoop, Governs, Choked;
    ReleaseInv(cfg, s, scope, offset);
    ReleaseSends(cfg, s, scope, offset, 0);
  }
}
