/** The plugin instance as it works: fixed tables and lists updated in place
    (src/plugin.rs). Every method is proved to do to the instance's value what
    the function of the same name in PluginModel does to it, and every entry
    point keeps the invariants of PluginInvariants. */
module PluginSynth {
  import opened Wrappers
  import opened PluginWire
  import opened PluginModel
  import opened PluginInvariants
  import opened PluginSteps
  import opened PluginRuns

  /** A new array that holds `x` throughout, and one that holds a sequence. */
  method Filled<T>(n: nat, x: T) returns (a: array<T>)
    ensures fresh(a) && a[..] == seq(n, _ => x)
  {
    a := new T[n](_ => x);
  }

  method CopyOf<T>(s: seq<T>) returns (a: array<T>)
    ensures fresh(a) && a[..] == s
  {
    a := new T[|s|](i requires 0 <= i < |s| => s[i]);
  }

  /** Moves `a[from..to]` to the front of `a`. */
  method CopyToFront<T>(a: array<T>, from: nat, to: nat)
    requires from <= to <= a.Length
    modifies a
    ensures a[..to - from] == old(a[from..to])
  {
    for k := 0 to to - from
      invariant forall j :: 0 <= j < k ==> a[j] == old(a[j + from])
      invariant forall j :: k <= j < a.Length ==> a[j] == old(a[j])
    {
      a[k] := a[k + from];
    }
  }

  lemma ParametersFirst(cfg: Config)
    ensures |cfg.parameters| <= cfg.Controls()
  {
  }

  class Instance {
    const cfg: Config
    const notes: array<Option<HeldNote>>
    const pedals: array<Option<Pedal>>
    const orphans: array<Option<Orphan>>
    const deferred: array<Event>
    const ended: array<int>
    const input: array<real>
    const values: array<Float>
    const sent: array<Float>
    const maps: array<ControlMap>
    var nextOrphan: nat
    var nextNote: int
    var open: bool
    var job: seq<Event>
    var spans: seq<Span>
    var pending: seq<Event>
    var deferredCount: nat
    var controlEvents: seq<Event>
    var endedCount: nat
    var spreading: bool
    var failure: Failure
    var tempo: real
    ghost var history: History

    ghost function Repr(): set<object> {
      {this, notes, pedals, orphans, deferred, ended, input, values, sent, maps}
    }

    /** The tables have the sizes they were made with. */
    ghost predicate Sized()
      reads Repr()
    {
      && notes.Length == HELD_NOTES
      && pedals.Length == PEDALS
      && orphans.Length == ORPHANS
      && deferred.Length == HELD_NOTES
      && ended.Length == EVENTS
      && input.Length == FRAMES * Channels(cfg.inputs)
      && values.Length == maps.Length == cfg.Controls()
      && sent.Length == |cfg.parameters|
      && values != sent
      && deferredCount <= HELD_NOTES
      && endedCount <= EVENTS
      && nextOrphan < ORPHANS
      && cfg.Valid()
    }

    ghost function State(): (s: Synth)
      requires Sized()
      reads Repr()
      ensures Shaped(cfg, s)
    {
      Synth(
        notes[..], pedals[..], orphans[..], nextOrphan, nextNote, open, job, spans, input[..], pending,
        deferred[..deferredCount], spreading, failure, values[..], sent[..], maps[..], controlEvents,
        ended[..endedCount], tempo, history)
    }

    ghost predicate Valid()
      reads Repr()
    {
      Sized() && Good(cfg, State())
    }

    /** A new instance on the def's defaults. */
    constructor (cfg: Config, defaults: seq<Float>)
      requires cfg.Valid() && |defaults| == cfg.Controls()
      ensures Valid() && fresh(Repr()) && this.cfg == cfg && State() == Fresh(cfg, defaults)
    {
      hide *;
      ParametersFirst(cfg);
      this.cfg := cfg;
      var noNotes := Filled(HELD_NOTES, None);
      var noPedals := Filled(PEDALS, None);
      var noOrphans := Filled(ORPHANS, None);
      var noEvents := Filled(HELD_NOTES, DefaultEvent(0, NoteOn));
      var noTokens := Filled(EVENTS, 0);
      var silence := Filled(FRAMES * Channels(cfg.inputs), 0.0);
      var given := CopyOf(defaults);
      var told := CopyOf(defaults[..|cfg.parameters|]);
      var unmapped := Filled(|defaults|, UNMAPPED);
      notes, pedals, orphans, deferred, ended := noNotes, noPedals, noOrphans, noEvents, noTokens;
      input, values, sent, maps := silence, given, told, unmapped;
      nextOrphan, nextNote, open, job, spans, pending := 0, 0, false, [], [], [];
      deferredCount, controlEvents, endedCount, spreading := 0, [], 0, false;
      failure, tempo, history := Running, 120.0, History(Start, [], 0, [], {}, false);
      new;
      FreshTables(cfg, defaults);
    }

    /** Tables filled as the constructor fills them are those of a new instance. */
    lemma FreshTables(cfg': Config, defaults: seq<Float>)
      requires cfg' == cfg && |defaults| == cfg.Controls() && cfg.Valid() && values != sent
      requires deferred.Length == HELD_NOTES && ended.Length == EVENTS
      requires notes[..] == seq(HELD_NOTES, _ => None) && pedals[..] == seq(PEDALS, _ => None)
      requires orphans[..] == seq(ORPHANS, _ => None) && input[..] == seq(FRAMES * Channels(cfg.inputs), _ => 0.0)
      requires values[..] == defaults && sent[..] == defaults[..|cfg.parameters|] && maps[..] == seq(|defaults|, _ => UNMAPPED)
      requires nextOrphan == 0 && nextNote == 0 && !open && job == [] && spans == [] && pending == []
      requires deferredCount == 0 && controlEvents == [] && endedCount == 0 && !spreading
      requires failure == Running && tempo == 120.0 && history == History(Start, [], 0, [], {}, false)
      ensures Valid() && State() == Fresh(cfg, defaults)
      ensures Repr() == {this, notes, pedals, orphans, deferred, ended, input, values, sent, maps}
    {
      hide Good;
      FreshGood(cfg, defaults);
      var f, s := Fresh(cfg, defaults), State();
      assert s.notes == f.notes && s.pedals == f.pedals && s.orphans == f.orphans && s.input == f.input;
      assert s.values == f.values && s.sent == f.sent && s.maps == f.maps;
    }

    // ---- emitting ----

    method Fail(f: Failure)
      requires Sized()
      modifies this`failure
      ensures Sized() && State() == PluginModel.Fail(old(State()), f)
    {
      if failure.Running? { failure := f; }
    }

    method Defer(e: Event)
      requires Sized() && deferredCount < HELD_NOTES
      modifies this`deferredCount, this`history, deferred
      ensures Sized()
      ensures State() == old(State()).(
                deferred := old(State()).deferred + [e],
                history := old(history).(spilled := old(history).spilled || !open || |job| < EVENTS))
    {
      history := history.(spilled := history.spilled || !open || |job| < EVENTS);
      deferred[deferredCount] := e;
      deferredCount := deferredCount + 1;
      assert deferred[..deferredCount] == old(deferred[..deferredCount]) + [e];
    }

    /** An event goes to the open job, else to what waits for one; when that list
        does not take it, a release, or anything read from a bus, is deferred. */
    method Place(e: Event) returns (accepted: bool)
      requires Sized()
      modifies this, deferred
      ensures Sized() && (State(), accepted) == PluginModel.Place(old(State()), e)
    {
      hide Accepts, IsRelease;
      accepted := Accepts(if open then job else pending, e);
      if accepted {
        if open { job := job + [e]; } else { pending := pending + [e]; }
      } else if (IsRelease(e) || spreading) && deferredCount < deferred.Length {
        Defer(e.(offset := 0));
        accepted := true;
      } else {
        Fail(Capacity);
      }
    }

    method Emit(e: Event)
      requires Sized()
      modifies this, deferred
      ensures Sized() && State() == PluginModel.Emit(old(State()), e)
    {
      var accepted := Place(e);
      if accepted { history := history.(trace := Then(history.trace, Sent(e))); }
    }

    method NativeNote(e: Event)
      requires Sized() && cfg.HasPort(e.port)
      modifies this, deferred
      ensures Sized() && State() == PluginModel.NativeNote(cfg, old(State()), e)
    {
      if cfg.Native(e.port) {
        Emit(e);
      } else {
        var status := if e.kind.NoteOn? then 0x90 else 0x80;
        Emit(e.(kind := Midi, id := Spell(status, e)));
      }
    }

    // ---- the tables ----

    method SetNote(i: nat, note: Option<HeldNote>)
      requires Sized() && i < HELD_NOTES
      modifies notes
      ensures Sized() && State() == old(State()).(notes := old(State()).notes[i := note])
    {
      notes[i] := note;
    }

    method AnyClash(source: nat, e: Event) returns (found: bool)
      requires Sized() && cfg.HasPort(e.port)
      ensures found == Clashes(cfg, notes[..], source, e)
    {
      for i := 0 to notes.Length
        invariant forall j :: 0 <= j < i && notes[j].Some? ==> !Clash(cfg, notes[j].value, source, e)
      {
        if notes[i].Some? && Clash(cfg, notes[i].value, source, e) {
          assert notes[..][i].Some?;
          return true;
        }
      }
      return false;
    }

    method FreeNote() returns (slot: nat)
      requires Sized()
      ensures slot == FirstFree(notes[..], 0)
    {
      slot := 0;
      while slot < notes.Length && notes[slot].Some?
        invariant slot <= notes.Length && FirstFree(notes[..], slot) == FirstFree(notes[..], 0)
      {
        slot := slot + 1;
      }
    }

    method OwingOrphan(source: nat, e: Event) returns (slot: nat)
      requires Sized()
      ensures slot == FirstOwing(orphans[..], source, e, 0)
    {
      slot := 0;
      while slot < orphans.Length && !OwesOff(orphans[slot], source, e)
        invariant slot <= orphans.Length && FirstOwing(orphans[..], source, e, slot) == FirstOwing(orphans[..], source, e, 0)
      {
        slot := slot + 1;
      }
    }

    method AnySustains(note: HeldNote) returns (found: bool)
      requires Sized()
      ensures found == Sustained(pedals[..], note)
    {
      for i := 0 to pedals.Length
        invariant forall j :: 0 <= j < i && pedals[j].Some? ==> !Covers(pedals[j].value, note)
      {
        if pedals[i].Some? && Covers(pedals[i].value, note) {
          assert pedals[..][i].Some?;
          return true;
        }
      }
      return false;
    }

    // ---- note events ----

    method Attack(source: nat, e: Event)
      requires Sized() && cfg.HasPort(e.port)
      modifies this, notes, deferred
      ensures Sized() && State() == PluginModel.Attack(cfg, old(State()), source, e)
    {
      hide PluginModel.NativeNote, Clash;
      var clash := AnyClash(source, e);
      if clash {
        Fail(Protocol);
        return;
      }
      var slot := FreeNote();
      if slot == notes.Length {
        Fail(Capacity);
        return;
      }
      if nextNote >= MAX_NOTE {
        Fail(Capacity);
        return;
      }
      var next := nextNote + 1;
      nextNote := next;
      SetNote(slot, Some(HeldNote(source, e.noteId, next, e.port, e.channel, e.key, false)));
      NativeNote(e.(noteId := next));
    }

    /** A note-on starts a note. A note-off that is still owed by a cut note is
        that note's. Anything else goes to the held notes it names: a note-off to
        the first, which a pedal may hold. */
    method NoteEvent(source: nat, e: Event)
      requires Sized() && cfg.HasPort(e.port)
      modifies this, notes, orphans, deferred
      ensures Sized() && State() == PluginModel.NoteEvent(cfg, old(State()), source, e)
    {
      hide NoteLoop, PluginModel.Attack;
      if e.kind.NoteOn? {
        Attack(source, e);
        return;
      }
      if e.kind.NoteOff? && e.noteId == -1 {
        var j := OwingOrphan(source, e);
        if j < orphans.Length {
          Swallow(j);
          return;
        }
      }
      ApplyToOwned(source, e);
    }

    method ApplyToOwned(source: nat, e: Event)
      requires Sized() && cfg.HasPort(e.port)
      modifies this, notes, deferred
      ensures Sized() && State() == NoteLoop(cfg, old(State()), source, e, 0)
    {
      hide PluginModel.Emit, PluginModel.NativeNote, Sustained;
      ghost var before := State();
      for i := 0 to notes.Length
        invariant Sized()
        invariant NoteLoop(cfg, State(), source, e, i) == NoteLoop(cfg, before, source, e, 0)
      {
        if notes[i].None? { continue; }
        var note := notes[i].value;
        if !Owned(note, source, e) || (e.kind.NoteOff? && note.released) { continue; }
        if e.kind.NoteOff? {
          var held := AnySustains(note);
          if held {
            SetNote(i, Some(note.(released := true)));
            return;
          }
        }
        if e.kind.Expression? {
          Emit(ToOwned(e, note));
        } else {
          SetNote(i, None);
          NativeNote(ToOwned(e, note));
        }
        if e.kind.NoteOff? { return; }
      }
    }

    method Swallow(j: nat)
      requires Sized() && j < ORPHANS
      modifies this`history, orphans
      ensures Sized() && State() == PluginModel.Swallow(old(State()), j)
    {
      orphans[j] := None;
      var cuts := history.cuts;
      if j < |cuts| {
        ghost var c := CutOf(|cuts|, j);
        history := history.(cuts := cuts[c := cuts[c].(open := false)]);
      }
    }

    // ---- MIDI ----

    method SetPedal(i: nat, pedal: Option<Pedal>)
      requires Sized() && i < PEDALS
      modifies pedals
      ensures Sized() && State() == old(State()).(pedals := old(State()).pedals[i := pedal])
    {
      pedals[i] := pedal;
    }

    method PlaceOfPedal(source: nat, port: nat, channel: int) returns (index: nat)
      requires Sized()
      ensures index == PedalSlot(pedals[..], source, port, channel, 0)
    {
      index := 0;
      while index < pedals.Length && !SamePedal(pedals[index], source, port, channel)
        invariant index <= pedals.Length
        invariant PedalSlot(pedals[..], source, port, channel, index) == PedalSlot(pedals[..], source, port, channel, 0)
      {
        index := index + 1;
      }
      if index < pedals.Length { return; }
      index := 0;
      while index < pedals.Length && pedals[index].Some?
        invariant index <= pedals.Length && FirstFree(pedals[..], index) == FirstFree(pedals[..], 0)
      {
        index := index + 1;
      }
    }

    /** Lifting a pedal ends every released note it held. */
    method TakeOut(address: Event, i: nat)
      requires Sized() && cfg.HasPort(address.port) && i < HELD_NOTES && notes[i].Some?
      modifies this`history, notes
      ensures Sized() && State() == LiftOut(cfg, old(State()), address, i)
    {
      if !Spellable(cfg, address) { history := history.(lost := history.lost + {notes[i].value.native}); }
      SetNote(i, None);
    }

    method LiftReleased(source: nat, address: Event)
      requires Sized() && cfg.HasPort(address.port)
      modifies this, notes, deferred
      ensures Sized() && State() == LiftLoop(cfg, old(State()), source, address, 0)
    {
      hide PluginModel.NativeNote, LiftOut;
      ghost var before := State();
      for i := 0 to notes.Length
        invariant Sized()
        invariant LiftLoop(cfg, State(), source, address, i) == LiftLoop(cfg, before, source, address, 0)
      {
        if notes[i].Some? && Lifts(notes[i].value, source, address.port, address.channel) {
          var note := notes[i].value;
          TakeOut(address, i);
          NativeNote(address.(kind := NoteOff, noteId := note.native, key := note.key, value := 0.0));
        }
      }
    }

    method PedalEvent(source: nat, e: Event)
      requires Sized() && cfg.HasPort(e.port)
      modifies this, notes, pedals, deferred
      ensures Sized() && State() == PluginModel.PedalEvent(cfg, old(State()), source, e)
    {
      hide PluginModel.Emit, LiftLoop;
      var address := MidiAddress(e);
      var index := PlaceOfPedal(source, e.port, address.channel);
      if index == pedals.Length {
        Fail(Capacity);
        return;
      }
      var down := Data2(e.id) >= 64;
      SetPedal(index, if down then Some(Pedal(source, e.port, address.channel, true)) else None);
      if cfg.dialects[e.port].midi { Emit(e); }
      if !down { LiftReleased(source, address); }
    }

    method MidiEvent(source: nat, e: Event)
      requires Sized() && cfg.HasPort(e.port)
      modifies this, notes, pedals, orphans, deferred
      ensures Sized() && State() == PluginModel.MidiEvent(cfg, old(State()), source, e)
    {
      hide PluginModel.NoteEvent, PluginModel.PedalEvent, PluginModel.Emit;
      var status := HighNibble(Status(e.id));
      var data1, data2 := Data1(e.id), Data2(e.id);
      var address := MidiAddress(e);
      if status == 0x80 || status == 0x90 {
        NoteEvent(source,
                  address.(kind := if status == 0x90 && data2 != 0 then NoteOn else NoteOff,
                           key := data1,
                           value := data2 as real / 127.0));
      } else if status == 0xb0 && data1 == 64 {
        PedalEvent(source, e);
      } else if status == 0xb0 && (data1 == 120 || data1 == 123) {
        NoteEvent(source, address.(kind := NoteChoke));
      } else if cfg.dialects[e.port].midi {
        Emit(e);
      } else {
        match AsExpression(status, data1, data2) {
          case None => Fail(Protocol);
          case Some((id, key, value)) =>
            NoteEvent(source, address.(kind := Expression, id := Number(id), key := key, value := value));
        }
      }
    }

    method PluginEvent(source: nat, e: Event)
      requires Sized()
      modifies this, notes, pedals, orphans, deferred
      ensures Sized() && State() == PluginModel.PluginEvent(cfg, old(State()), source, e)
    {
      hide PluginModel.NoteEvent, PluginModel.MidiEvent;
      if e.port < 0 || e.port >= |cfg.notePorts| {
        Fail(Protocol);
        return;
      }
      var event := e.(port := cfg.notePorts[e.port]);
      if event.kind.Midi? { MidiEvent(source, event); } else { NoteEvent(source, event); }
    }

    // ---- releases by lane and by transport ----

    method RecordCut(o: Orphan, released: bool)
      requires Sized()
      modifies this`nextOrphan, this`history, orphans
      ensures Sized() && State() == PluginModel.RecordCut(old(State()), o, released)
    {
      orphans[nextOrphan] := Some(o);
      nextOrphan := (nextOrphan + 1) % ORPHANS;
      history := history.(cuts := history.cuts + [Owed(o, true, released)]);
    }

    /** The held note in place `i` is cut, and remembered when its key is all that
        names it. */
    method Choke(i: nat, offset: nat)
      requires Sized() && i < HELD_NOTES && notes[i].Some? && cfg.HasPort(notes[i].value.port)
      modifies this, notes, orphans, deferred
      ensures Sized() && State() == ChokeSlot(cfg, old(State()), offset, i)
      ensures State().notes == old(State()).notes[i := None]
    {
      hide PluginModel.Emit, PluginModel.RecordCut, InDialect;
      var note := notes[i].value;
      if note.id == -1 { RecordCut(Orphan(note.source, note.port, note.channel, note.key), note.released); }
      SetNote(i, None);
      EmitKeepsNotes(State(), InDialect(cfg, ChokeOf(note, offset)));
      NativeNote(ChokeOf(note, offset));
    }

    lemma EmitKeepsNotes(s: Synth, e: Event)
      ensures PluginModel.Emit(s, e).notes == s.notes
    {
    }

    /** Every held note in the scope is cut. */
    method ReleaseWhere(offset: nat, scope: Scope)
      requires Sized() && PortsKnown(cfg, notes[..])
      modifies this, notes, orphans, deferred
      ensures Sized() && State() == ReleaseLoop(cfg, old(State()), scope, offset, 0)
    {
      hide ChokeSlot, Governs;
      ghost var before := State();
      for i := 0 to notes.Length
        invariant Sized() && PortsKnown(cfg, notes[..])
        invariant ReleaseLoop(cfg, State(), scope, offset, i) == ReleaseLoop(cfg, before, scope, offset, 0)
      {
        if notes[i].Some? && Governs(scope, notes[i].value.source) {
          Choke(i, offset);
        }
      }
    }

    method ForgetPedals(scope: Scope)
      requires Sized()
      modifies pedals
      ensures Sized() && State() == old(State()).(pedals := DropPedals(old(State()).pedals, scope))
    {
      hide Governs;
      for i := 0 to pedals.Length
        invariant forall j :: i <= j < PEDALS ==> pedals[j] == old(pedals[j])
        invariant forall j :: 0 <= j < i ==> pedals[j] == DropPedals(old(pedals[..]), scope)[j]
      {
        if pedals[i].Some? && Governs(scope, pedals[i].value.source) { pedals[i] := None; }
      }
      assert pedals[..] == DropPedals(old(pedals[..]), scope);
    }

    // ---- events read from a bus ----

    method ReadNoteOn(port: nat, e: BusEvent)
      requires Sized() && port < |cfg.notePorts|
      modifies this, notes, pedals, orphans, deferred
      ensures Sized() && State() == PluginModel.ReadNoteOn(cfg, old(State()), port, e)
    {
      hide PluginModel.Join, ClashLoop, PluginModel.PluginEvent;
      var native := cfg.notePorts[port];
      if e.joins >= 0 {
        var joined := Join(native, e);
        if joined { return; }
      }
      EndClashing(native, e);
      var slot := FreeNote();
      if slot == notes.Length { return; }
      PluginEvent(e.source, BusBase(port, e).(value := e.value));
    }

    method JoinedNote(port: nat, e: BusEvent) returns (i: nat)
      requires Sized()
      ensures i == FirstJoined(notes[..], port, e, 0)
    {
      i := 0;
      while i < notes.Length && !Joined(notes[i], port, e)
        invariant i <= notes.Length && FirstJoined(notes[..], port, e, i) == FirstJoined(notes[..], port, e, 0)
      {
        i := i + 1;
      }
    }

    method PlaceOfNative(native: int) returns (i: nat)
      requires Sized()
      ensures i == FirstNative(notes[..], native, 0)
    {
      i := 0;
      while i < notes.Length && !HasNative(notes[i], native)
        invariant i <= notes.Length && FirstNative(notes[..], native, i) == FirstNative(notes[..], native, 0)
      {
        i := i + 1;
      }
    }

    /** Continues the note a note-on joins, when the table holds it. */
    method Join(port: nat, e: BusEvent) returns (joined: bool)
      requires Sized() && cfg.HasPort(port)
      modifies this, notes, orphans, deferred
      ensures Sized()
      ensures var i := FirstJoined(old(State()).notes, port, e, 0);
              && joined == (i < HELD_NOTES)
              && State() == if joined then PluginModel.Join(cfg, old(State()), port, e, i) else old(State())
    {
      hide PluginModel.NativeNote, PluginModel.NoteEvent;
      var i := JoinedNote(port, e);
      if i == notes.Length { return false; }
      var held := notes[i].value;
      if held.key == e.key {
        SetNote(i, Some(held.(id := e.noteId)));
        return true;
      }
      NoteEvent(e.source, BusAttack(port, e));
      var j := PlaceOfNative(held.native);
      if j < notes.Length {
        SetNote(j, None);
        NativeNote(OffOf(held, port, e.offset));
      }
      return true;
    }

    /** Ends what a note-on of the bus would collide with. */
    method EndClashing(port: nat, e: BusEvent)
      requires Sized() && cfg.HasPort(port)
      modifies this, notes, deferred
      ensures Sized() && State() == ClashLoop(cfg, old(State()), port, e, 0)
    {
      hide PluginModel.NativeNote, Retriggers;
      ghost var before := State();
      for i := 0 to notes.Length
        invariant Sized()
        invariant ClashLoop(cfg, State(), port, e, i) == ClashLoop(cfg, before, port, e, 0)
      {
        if notes[i].Some? && Retriggers(cfg, notes[i].value, port, e) {
          var note := notes[i].value;
          SetNote(i, None);
          NativeNote(OffOf(note, port, e.offset));
        }
      }
    }

    method ReadBusEvent(port: nat, e: BusEvent)
      requires Sized()
      modifies this, notes, pedals, orphans, deferred
      ensures Sized() && State() == PluginModel.ReadBusEvent(cfg, old(State()), port, e)
    {
      hide PluginModel.ReadNoteOn, PluginModel.PluginEvent, Translate;
      if port >= |cfg.notePorts| { return; }
      if e.kind.BusNoteOn? {
        ReadNoteOn(port, e);
        return;
      }
      match Translate(cfg.dialects[cfg.notePorts[port]], port, e) {
        case None =>
        case Some(event) => PluginEvent(e.source, event);
      }
    }

    method ReadBus(port: nat, e: BusEvent)
      requires Sized()
      modifies this, notes, pedals, orphans, deferred
      ensures Sized() && State() == PluginModel.ReadBus(cfg, old(State()), port, e)
    {
      hide PluginModel.ReadBusEvent;
      spreading := true;
      ReadBusEvent(port, e);
      spreading := false;
    }

    method ReadPort(port: nat, events: seq<BusEvent>)
      requires Sized()
      modifies this, notes, pedals, orphans, deferred
      ensures Sized() && State() == ReadAll(cfg, old(State()), port, events)
    {
      hide PluginModel.ReadBus;
      ghost var before := State();
      for i := 0 to |events|
        invariant Sized()
        invariant ReadAll(cfg, State(), port, events[i..]) == ReadAll(cfg, before, port, events)
      {
        assert events[i..][1..] == events[i + 1..];
        ReadBus(port, events[i]);
      }
    }

    method ReadHeard(heard: seq<seq<BusEvent>>)
      requires Sized()
      modifies this, notes, pedals, orphans, deferred
      ensures Sized() && State() == ReadPorts(cfg, old(State()), heard, 0)
    {
      hide ReadAll;
      ghost var before := State();
      for port := 0 to |heard|
        invariant Sized()
        invariant ReadPorts(cfg, State(), heard, port) == ReadPorts(cfg, before, heard, 0)
      {
        ReadPort(port, heard[port]);
      }
    }

    // ---- opening a block ----

    /** Moves the deferred events from `taken` on to the front. */
    method Compact(taken: nat)
      requires Sized() && taken <= deferredCount
      modifies this`deferredCount, deferred
      ensures Sized() && State() == old(State()).(deferred := old(State()).deferred[taken..])
    {
      CopyToFront(deferred, taken, deferredCount);
      deferredCount := deferredCount - taken;
      assert deferred[..deferredCount] == old(deferred[..deferredCount])[taken..];
    }

    method Drain()
      requires Sized()
      modifies this`job, this`deferredCount, deferred
      ensures Sized() && State() == PluginModel.Drain(old(State()))
    {
      hide Accepts;
      var taken := 0;
      ghost var before := State();
      while taken < deferredCount && Accepts(job, deferred[taken])
        invariant Sized() && taken <= deferredCount && unchanged(deferred) && deferredCount == old(deferredCount)
        invariant State() == before.(job := job)
        invariant PluginModel.Drain(before.(job := job, deferred := before.deferred[taken..])) == PluginModel.Drain(before)
      {
        assert before.deferred[taken..][1..] == before.deferred[taken + 1..];
        job := job + [deferred[taken]];
        taken := taken + 1;
      }
      Compact(taken);
    }

    /** What arrived while no job was open enters it, in order. */
    method Refill()
      requires Sized() && open
      modifies this, deferred
      ensures Sized() && State() == PluginModel.Refill(old(State()))
    {
      hide PluginModel.Place;
      var waiting := pending;
      pending := [];
      for i := 0 to |waiting|
        invariant Sized() && open && pending == []
        invariant PluginModel.Refill(State().(pending := waiting[i..])) == PluginModel.Refill(old(State()))
      {
        assert waiting[i..][1..] == waiting[i + 1..];
        PlaceInJob(State(), waiting[i], waiting[i + 1..]);
        var _ := Place(waiting[i]);
      }
    }

    /** While a job is open, placing an event leaves what is pending alone. */
    lemma PlaceInJob(s: Synth, e: Event, rest: seq<Event>)
      requires s.open
      ensures var s' := PluginModel.Place(s, e).0;
              && s'.open && s'.pending == s.pending
              && PluginModel.Place(s.(pending := rest), e).0 == s'.(pending := rest)
    {
    }

    method Silence()
      requires Sized()
      modifies input
      ensures Sized() && State() == old(State()).(input := Zeros(|old(State()).input|))
    {
      for k := 0 to input.Length
        invariant forall j :: 0 <= j < k ==> input[j] == 0.0
      {
        input[k] := 0.0;
      }
      assert input[..] == Zeros(input.Length);
    }

    method PlaceOfParameter(id: nat) returns (index: nat)
      requires Sized()
      ensures index == ParameterIndex(cfg.parameters, id, 0)
    {
      index := 0;
      while index < |cfg.parameters| && cfg.parameters[index].id != id
        invariant index <= |cfg.parameters|
        invariant ParameterIndex(cfg.parameters, id, index) == ParameterIndex(cfg.parameters, id, 0)
      {
        index := index + 1;
      }
    }

    method SetValue(i: nat, v: Float)
      requires Sized() && i < values.Length
      modifies values
      ensures Sized() && State() == old(State()).(values := old(State()).values[i := v])
    {
      values[i] := v;
    }

    method SetSent(i: nat, v: Float)
      requires Sized() && i < sent.Length
      modifies sent
      ensures Sized() && State() == old(State()).(sent := old(State()).sent[i := v])
    {
      sent[i] := v;
    }

    /** The plugin reports a parameter's value, which a bus map overrides. */
    method TakeReport(index: nat, value: real)
      requires Sized() && index < |cfg.parameters|
      modifies this`history, values, sent
      ensures Sized() && State() == PluginModel.TakeReport(old(State()), index, value)
    {
      if maps[index].bus < 0 {
        SetValue(index, Finite(value));
        SetSent(index, Finite(value));
        history := history.(trace := Then(history.trace, Reported(index, value, false)));
      } else {
        SetSent(index, NotANumber);
        history := history.(trace := Then(history.trace, Reported(index, value, true)));
      }
    }

    /** A control event of the plugin; false when it ends the reading. */
    method ReceiveControl(e: Event) returns (more: bool)
      requires Sized()
      modifies this, values, sent
      ensures Sized() && (State(), more) == PluginModel.ReceiveControl(cfg, old(State()), e)
    {
      hide Accepts, PluginModel.TakeReport;
      var index := PlaceOfParameter(IdNumber(e.id));
      if index == |cfg.parameters| {
        Fail(Protocol);
        return false;
      }
      if e.kind.Parameter? && !(cfg.parameters[index].min <= e.value <= cfg.parameters[index].max) {
        Fail(Protocol);
        return false;
      }
      if e.kind.Parameter? { TakeReport(index, e.value); }
      if Accepts(controlEvents, e) {
        controlEvents := controlEvents + [e];
        return true;
      }
      Fail(Capacity);
      return false;
    }

    method EndNote(i: nat)
      requires Sized() && i < HELD_NOTES && notes[i].Some?
      modifies this, notes, ended
      ensures Sized() && State() == PluginModel.EndNote(old(State()), i)
    {
      var note := notes[i].value;
      SetNote(i, None);
      history := history.(trace := Then(history.trace, Ended(note.native)));
      if note.id >= -1 { return; }
      if endedCount == ended.Length { Fail(Capacity); } else { Remember(note.id); }
    }

    method Remember(id: int)
      requires Sized() && endedCount < EVENTS
      modifies this`endedCount, ended
      ensures Sized() && State() == old(State()).(ended := old(State()).ended + [id])
    {
      ended[endedCount] := id;
      endedCount := endedCount + 1;
      assert ended[..endedCount] == old(ended[..endedCount]) + [id];
    }

    /** The plugin ended the notes the event names. */
    method EndNotes(e: Event)
      requires Sized()
      modifies this, notes, ended
      ensures Sized() && State() == EndLoop(old(State()), e, 0)
    {
      hide PluginModel.EndNote;
      ghost var before := State();
      for i := 0 to notes.Length
        invariant Sized()
        invariant EndLoop(State(), e, i) == EndLoop(before, e, 0)
      {
        if notes[i].Some? && Ends(e, notes[i].value) { EndNote(i); }
      }
    }

    method Receive(events: seq<Event>)
      requires Sized()
      modifies this, notes, ended, values, sent
      ensures Sized() && State() == PluginModel.Receive(cfg, old(State()), events)
    {
      hide PluginModel.ReceiveControl, EndLoop;
      ghost var before := State();
      for i := 0 to |events|
        invariant Sized()
        invariant PluginModel.Receive(cfg, State(), events[i..]) == PluginModel.Receive(cfg, before, events)
      {
        assert events[i..][1..] == events[i + 1..];
        var e := events[i];
        if IsControl(e) {
          var more := ReceiveControl(e);
          if !more { return; }
        }
        if e.kind.NoteEnd? { EndNotes(e); }
      }
    }

    /** A new job holds what was deferred, then what was pending. */
    method Begin()
      requires Sized()
      modifies this, deferred
      ensures Sized()
      ensures State() == PluginModel.Refill(PluginModel.Drain(old(State()).(open := true, job := [], spans := [])))
    {
      hide PluginModel.Drain, PluginModel.Refill;
      open, job, spans := true, [], [];
      DrainKeepsOpen(State());
      Drain();
      Refill();
    }

    method OpenJob(slice: Slice)
      requires Sized()
      modifies this, notes, ended, values, sent, deferred, input
      ensures Sized() && State() == PluginModel.OpenJob(cfg, old(State()), slice)
    {
      hide PluginModel.Drain, PluginModel.Refill, PluginModel.Receive, Zeros;
      Begin();
      Silence();
      Receive(slice.received);
      if slice.offset != 0 { spans := [Span(0, slice.offset, false, false, 0, 120.0)]; }
    }

    lemma DrainKeepsOpen(s: Synth)
      ensures PluginModel.Drain(s).open == s.open
      decreases |s.deferred|
    {
    }

    /** A slice joins the open job, which it opens if there is none. */
    method Prepare(slice: Slice, quiet: bool)
      requires Sized()
      modifies Repr()
      ensures Sized() && State() == PluginModel.Prepare(cfg, old(State()), slice, quiet)
    {
      hide PluginModel.OpenJob, ReadPorts;
      if quiet { return; }
      if !open { OpenJob(slice); }
      if |spans| == SPANS {
        Fail(Capacity);
        return;
      }
      var position := if slice.position < MAX_POSITION then slice.position else MAX_POSITION;
      spans := spans + [Span(slice.offset, slice.frames, slice.active, slice.playing, position, tempo)];
      ReadHeard(slice.heard);
    }

    // ---- processing a slice ----

    method Follow(readings: seq<Float>)
      requires Sized() && |readings| == values.Length
      modifies values
      ensures Sized() && State() == old(State()).(values := FollowMaps(old(State()), readings))
    {
      for i := 0 to values.Length
        invariant forall j :: i <= j < values.Length ==> values[j] == old(values[j])
        invariant forall j :: 0 <= j < i ==> values[j] == if maps[j].bus >= 0 then readings[j] else old(values[j])
      {
        if maps[i].bus >= 0 { values[i] := readings[i]; }
      }
      assert values[..] == FollowMaps(old(State()), readings);
    }

    /** Sends a parameter whose value the plugin does not have, while the list has
        room for parameters. */
    method SendParameter(i: nat, offset: nat)
      requires Sized() && i < |cfg.parameters|
      modifies this, sent
      ensures Sized() && State() == PluginModel.SendParameter(cfg, old(State()), i, offset)
    {
      hide Accepts;
      if FloatEqual(sent[i], values[i]) { return; }
      var p := cfg.parameters[i];
      if p.readOnly { return; }
      if OutOfRange(p, values[i]) {
        Fail(Protocol);
        return;
      }
      if |job| >= PARAMETER_EVENTS { return; }
      var e := ParameterEvent(p, values[i].v, offset);
      if Accepts(job, e) {
        job := job + [e];
        history := history.(trace := Then(history.trace, Sent(e)));
      } else {
        Fail(Capacity);
      }
      SetSent(i, values[i]);
    }

    method SendParameters(offset: nat)
      requires Sized()
      modifies this, sent
      ensures Sized() && State() == PluginModel.SendParameters(cfg, old(State()), offset, 0)
    {
      hide PluginModel.SendParameter;
      ghost var before := State();
      for i := 0 to sent.Length
        invariant Sized()
        invariant PluginModel.SendParameters(cfg, State(), offset, i) == PluginModel.SendParameters(cfg, before, offset, 0)
      {
        SendParameter(i, offset);
      }
    }

    /** Stages one channel of a slice: a bus's samples, or silence. */
    method StageChannel(channel: nat, offset: nat, frames: nat, samples: Option<seq<real>>)
      requires (channel + 1) * FRAMES <= input.Length && offset + frames <= FRAMES
      requires samples.Some? ==> |samples.value| == FRAMES
      modifies input
      ensures forall k :: 0 <= k < input.Length ==>
                input[k] ==
                if k / FRAMES == channel && offset <= k % FRAMES < offset + frames
                then (if samples.Some? then samples.value[k % FRAMES] else 0.0)
                else old(input[k])
    {
      for f := offset to offset + frames
        invariant forall k :: 0 <= k < input.Length ==>
                    input[k] ==
                    if k / FRAMES == channel && offset <= k % FRAMES < f
                    then (if samples.Some? then samples.value[k % FRAMES] else 0.0)
                    else old(input[k])
      {
        input[channel * FRAMES + f] := if samples.Some? then samples.value[f] else 0.0;
      }
    }

    /** Stages the channels of one port, the first of which is `first`. */
    method StagePort(ghost staged: seq<real>, port: nat, first: nat, audio: seq<seq<real>>, offset: nat, frames: nat)
      requires Sized() && offset + frames <= FRAMES && port < |cfg.inputs|
      requires forall b :: 0 <= b < |audio| ==> |audio[b]| == FRAMES
      requires first == Channels(cfg.inputs[..port]) && first + cfg.inputs[port] <= Channels(cfg.inputs)
      requires |staged| == input.Length
      requires forall k :: first * FRAMES <= k < input.Length ==>
                 staged[k] == if offset <= k % FRAMES < offset + frames
                              then StagedSample(cfg, values[..], audio, k / FRAMES, k % FRAMES)
                              else input[k]
      modifies input
      ensures forall k :: 0 <= k < input.Length ==>
                input[k] == if first * FRAMES <= k < (first + cfg.inputs[port]) * FRAMES then staged[k] else old(input[k])
    {
      for c := 0 to cfg.inputs[port]
        invariant forall k :: 0 <= k < input.Length ==>
                    input[k] == if first * FRAMES <= k < (first + c) * FRAMES then staged[k] else old(input[k])
      {
        var bus := BusOfPort(values[|cfg.parameters| + port], c);
        BusOfSkip(cfg, values[..], 0, port, c);
        assert cfg.inputs[0..port] == cfg.inputs[..port];
        assert bus == BusOf(cfg, values[..], 0, first + c);
        hide BusOf, Channels;
        StageChannel(first + c, offset, frames, if bus.Some? && bus.value < |audio| then Some(audio[bus.value]) else None);
      }
    }

    method StageInput(audio: seq<seq<real>>, offset: nat, frames: nat)
      requires Sized() && offset + frames <= FRAMES
      requires forall b :: 0 <= b < |audio| ==> |audio[b]| == FRAMES
      modifies input
      ensures Sized() && State() == old(State()).(input := Stage(cfg, old(State()), audio, offset, frames))
    {
      hide BusOf;
      ghost var staged := Stage(cfg, State(), audio, offset, frames);
      var channel := 0;
      for port := 0 to |cfg.inputs|
        invariant channel == Channels(cfg.inputs[..port]) <= Channels(cfg.inputs)
        invariant forall k :: 0 <= k < input.Length ==> input[k] == if k < channel * FRAMES then staged[k] else old(input[k])
      {
        ChannelsUpTo(cfg.inputs, port);
        StagePort(staged, port, channel, audio, offset, frames);
        channel := channel + cfg.inputs[port];
      }
      assert cfg.inputs[..|cfg.inputs|] == cfg.inputs;
      assert input[..] == staged;
    }

    method Process(offset: nat, frames: nat, readings: seq<Float>, audio: seq<seq<real>>, quiet: bool)
      requires Sized() && offset + frames <= FRAMES && |readings| == values.Length
      requires forall b :: 0 <= b < |audio| ==> |audio[b]| == FRAMES
      modifies Repr()
      ensures Sized() && State() == PluginModel.Process(cfg, old(State()), offset, frames, readings, audio, quiet)
    {
      hide FollowMaps, PluginModel.SendParameters, Stage;
      if quiet { return; }
      Follow(readings);
      SendParameters(offset);
      StageInput(audio, offset, frames);
    }

    // ---- closing a block, and the controls ----

    /** Hands the job over, or fails for good. */
    method Publish(slotFree: bool)
      requires Sized()
      modifies this`failure, this`history
      ensures Sized() && State() == PluginModel.Publish(old(State()), slotFree)
    {
      hide SpansValid;
      if !failure.Running? { return; }
      if !SpansValid(spans) || !slotFree {
        Fail(Capacity);
      } else {
        history := history.(delivered := history.delivered + job, jobs := history.jobs + 1);
      }
    }

    method Finish(slotFree: bool, aborted: bool)
      requires Sized()
      modifies this
      ensures Sized() && State() == PluginModel.Finish(old(State()), slotFree, aborted)
    {
      hide PluginModel.Publish;
      if open {
        Publish(slotFree);
        open := false;
      }
      if aborted { Fail(Protocol); }
    }

    method SetMap(i: nat, map': ControlMap)
      requires Sized() && i < maps.Length
      modifies maps
      ensures Sized() && State() == old(State()).(maps := old(State()).maps[i := map'])
    {
      maps[i] := map';
    }

    method SetControl(i: nat, v: Float)
      requires Sized()
      modifies this`failure, values, maps
      ensures Sized() && State() == PluginModel.SetControl(cfg, old(State()), i, v)
    {
      if i < |cfg.parameters| && cfg.parameters[i].readOnly {
        Fail(Protocol);
        return;
      }
      if i < values.Length {
        SetValue(i, v);
        SetMap(i, UNMAPPED);
      }
    }

    method MapControl(i: nat, map': ControlMap)
      requires Sized()
      modifies this`failure, maps
      ensures Sized() && State() == PluginModel.MapControl(cfg, old(State()), i, map')
    {
      if i < |cfg.parameters| && cfg.parameters[i].readOnly {
        Fail(Protocol);
        return;
      }
      if i < maps.Length { SetMap(i, map'); }
    }

    method ReleaseScope(scope: Scope, offset: nat)
      requires Sized() && PortsKnown(cfg, notes[..])
      modifies this, notes, pedals, orphans, deferred
      ensures Sized() && State() == Release(cfg, old(State()), scope, offset)
    {
      hide ReleaseLoop, DropPedals;
      ReleaseWhere(offset, scope);
      ForgetPedals(scope);
    }

    method DrainReplies()
      requires Sized()
      modifies this`controlEvents, this`endedCount
      ensures Sized() && State() == PluginModel.DrainReplies(old(State()))
    {
      controlEvents := [];
      endedCount := 0;
    }

    // ---- the calls of the engine ----

    /** One slice: it joins the block's job, and is processed unless frozen. */
    method RunSlice(slice: Slice, quiet: bool, sounding: Option<Sounding>)
      requires Valid() && StepValid(cfg, PluginRuns.RunSlice(slice, quiet, sounding))
      modifies Repr()
      ensures Valid() && State() == Do(cfg, old(State()), PluginRuns.RunSlice(slice, quiet, sounding))
    {
      hide PluginModel.Prepare, PluginModel.Process, Inv;
      DoGood(cfg, State(), PluginRuns.RunSlice(slice, quiet, sounding));
      Prepare(slice, quiet);
      if sounding.Some? {
        var p := sounding.value;
        Process(slice.offset, slice.frames, p.readings, p.audio, p.quiet);
      }
    }

    /** Stops the notes of a lane, or every note. */
    method ReleaseNotes(lane: Option<int>, offset: nat)
      requires Valid()
      modifies Repr()
      ensures Valid()
      ensures State() == Do(cfg, old(State()), Stop(if lane.Some? then Lane(lane.value) else Everything, offset))
    {
      hide Inv, Release;
      var scope := if lane.Some? then Lane(lane.value) else Everything;
      ReleaseInv(cfg, State(), scope, offset);
      ReleaseScope(scope, offset);
    }

    method ReleaseTransportNotes(transport: nat, offset: nat)
      requires Valid()
      modifies Repr()
      ensures Valid() && State() == Do(cfg, old(State()), Stop(OfTransport(transport), offset))
    {
      hide Inv, Release;
      ReleaseInv(cfg, State(), OfTransport(transport), offset);
      ReleaseScope(OfTransport(transport), offset);
    }

    /** Any call of the engine does what one step of a run does, and keeps every
        invariant. */
    method Perform(step: Step)
      requires Valid() && StepValid(cfg, step)
      modifies Repr()
      ensures Valid() && State() == Do(cfg, old(State()), step)
    {
      hide Inv, StepValid, PluginModel.PluginEvent, PluginModel.ReadBus, Release, PluginModel.Prepare, PluginModel.Process,
        PluginModel.Finish, PluginModel.SetControl, PluginModel.MapControl;
      DoGood(cfg, State(), step);
      match step {
        case Client(source, e) => PluginEvent(source, e);
        case Addressed(e) => if cfg.notePorts != [] { ReadBus(0, e); }
        case Stop(scope, offset) => {
          match scope {
            case Everything => ReleaseNotes(None, offset);
            case Lane(lane) => ReleaseNotes(Some(lane), offset);
            case OfTransport(transport) => ReleaseTransportNotes(transport, offset);
          }
        }
        case RunSlice(slice, quiet, sounding) => RunSlice(slice, quiet, sounding);
        case Close(slotFree, aborted) => Finish(slotFree, aborted);
        case Set(i, v) => SetControl(i, v);
        case Map(i, to) => MapControl(i, to);
        case Tempo(bpm) => tempo := bpm;
        case Reply => DrainReplies();
      }
    }

    /** So a sequence of calls is a run. */
    method Play(steps: seq<Step>)
      requires Valid() && forall i :: 0 <= i < |steps| ==> StepValid(cfg, steps[i])
      modifies Repr()
      ensures Valid() && State() == Run(cfg, old(State()), steps)
    {
      hide Good, StepValid, Do;
      ghost var before := State();
      for i := 0 to |steps|
        invariant Valid() && Run(cfg, State(), steps[i..]) == Run(cfg, before, steps)
      {
        assert steps[i..][1..] == steps[i + 1..];
        Perform(steps[i]);
      }
    }
  }

  lemma {:induction false} ChannelsUpTo(inputs: seq<nat>, port: nat)
    requires port < |inputs|
    ensures Channels(inputs[..port + 1]) == Channels(inputs[..port]) + inputs[port]
    ensures Channels(inputs[..port + 1]) <= Channels(inputs)
    decreases port
  {
    if port == 0 {
      assert inputs[..1] == [inputs[0]];
    } else {
      ChannelsUpTo(inputs[1..], port - 1);
      assert inputs[..port + 1][1..] == inputs[1..][..port] && inputs[..port][1..] == inputs[1..][..port - 1];
    }
  }

  /** The bus of a channel counted from port `from` is that of the port it is in. */
  lemma {:induction false} BusOfSkip(cfg: Config, values: seq<Float>, from: nat, port: nat, c: nat)
    requires |values| == cfg.Controls() && from <= port < |cfg.inputs| && c < cfg.inputs[port]
    ensures BusOf(cfg, values, from, Channels(cfg.inputs[from..port]) + c) ==
            BusOfPort(values[|cfg.parameters| + port], c)
    decreases port - from
  {
    if from < port {
      assert cfg.inputs[from..port][1..] == cfg.inputs[from + 1..port];
      BusOfSkip(cfg, values, from + 1, port, c);
    }
  }

  /** The bus a port's channel `c` reads, given the port's control. */
  function BusOfPort(control: Float, c: nat): Option<nat> {
    match control
    case Finite(v) => if v >= 0.0 then Some(v.Floor + c) else None
    case _ => None
  }
}
