/** Late note-offs over whole runs: what the ring waits for on a key is what was
    cut on it less what was taken, whatever happens in between. */
module PluginDebts {
  import opened Wrappers
  import opened PluginWire
  import opened PluginModel
  import opened PluginInvariants
  import opened PluginSteps
  import opened PluginRuns
  import opened PluginBlock
  import opened PluginOrphans
  import opened PluginPedals
  import opened PluginNotes

  // ---- the key-named note-offs a step carries ----

  /** The address of a client event that is a note-off naming only its key. */
  function KeyOff(cfg: Config, source: nat, e: Event): seq<Orphan> {
    if e.port < 0 || e.port >= |cfg.notePorts| then []
    else
      var port := cfg.notePorts[e.port];
      if e.kind.Midi? then
        var status := HighNibble(Status(e.id));
        if status == 0x80 || (status == 0x90 && Data2(e.id) == 0)
        then [Orphan(source, port, if e.channel == -1 then -1 else Status(e.id) % 16, Data1(e.id))]
        else []
      else if e.kind.NoteOff? && e.noteId == -1 then [Orphan(source, port, e.channel, e.key)]
      else []
  }

  function BusOff(cfg: Config, port: nat, e: BusEvent): seq<Orphan> {
    if port < |cfg.notePorts| && e.kind.BusNoteOff? && e.noteId == -1
    then [Orphan(e.source, cfg.notePorts[port], e.channel, e.key)]
    else []
  }

  function BusOffs(cfg: Config, port: nat, events: seq<BusEvent>): seq<Orphan>
    decreases |events|
  {
    if events == [] then [] else BusOff(cfg, port, events[0]) + BusOffs(cfg, port, events[1..])
  }

  function HeardOffs(cfg: Config, heard: seq<seq<BusEvent>>, port: nat): seq<Orphan>
    decreases |heard| - port
  {
    if port >= |heard| then [] else BusOffs(cfg, port, heard[port]) + HeardOffs(cfg, heard, port + 1)
  }

  /** The key-named note-offs of one call of the engine, in order. A quiet slice
      and one past the spans a job holds are not read. */
  function StepOffs(cfg: Config, s: Synth, step: Step): seq<Orphan> {
    match step
    case Client(source, e) => KeyOff(cfg, source, e)
    case Addressed(e) => if cfg.notePorts == [] then [] else BusOff(cfg, 0, e)
    case RunSlice(slice, quiet, _) =>
      if quiet || (s.open && |s.spans| == SPANS) then [] else HeardOffs(cfg, slice.heard, 0)
    case _ => []
  }

  // ---- what they pay ----

  /** What is left of `d` once `n` were taken, as long as any was left. */
  function Less(d: nat, n: nat): nat { if d > n then d - n else 0 }

  /** From `s` to `s'` the ring gave up, for each key, one entry for each of these
      note-offs while it had one; it gained none. */
  ghost predicate Paid(s: Synth, s': Synth, offs: seq<Orphan>) {
    && s'.nextOrphan == s.nextOrphan
    && |s'.history.cuts| == |s.history.cuts|
    && (forall j :: 0 <= j < ORPHANS && s.orphans[j].None? ==> s'.orphans[j].None?)
    && (forall a: Orphan :: Owing(s'.orphans, a, 0) == Less(Owing(s.orphans, a, 0), multiset(offs)[a]))
  }

  /** The ring is as it was. */
  ghost predicate RingKept(s: Synth, s': Synth) {
    s'.orphans == s.orphans && s'.nextOrphan == s.nextOrphan && |s'.history.cuts| == |s.history.cuts|
  }

  /** And so is what was lost. */
  ghost predicate Kept(s: Synth, s': Synth) {
    RingKept(s, s') && s'.history.lost == s.history.lost
  }

  lemma KeptPays(s: Synth, s': Synth)
    requires RingKept(s, s')
    ensures Paid(s, s', [])
  {
  }

  lemma PaidTrans(s: Synth, s1: Synth, s2: Synth, a: seq<Orphan>, b: seq<Orphan>)
    requires Paid(s, s1, a) && Paid(s1, s2, b)
    ensures Paid(s, s2, a + b)
  {
    hide Owing;
    forall o: Orphan ensures Owing(s2.orphans, o, 0) == Less(Owing(s.orphans, o, 0), multiset(a + b)[o]) {
      assert Owing(s1.orphans, o, 0) == Less(Owing(s.orphans, o, 0), multiset(a)[o]);
      assert multiset(a + b)[o] == multiset(a)[o] + multiset(b)[o];
    }
  }

  lemma PaidThenKept(s: Synth, s1: Synth, s2: Synth, a: seq<Orphan>)
    requires Paid(s, s1, a) && RingKept(s1, s2)
    ensures Paid(s, s2, a)
  {
  }

  lemma KeptThenPaid(s: Synth, s1: Synth, s2: Synth, a: seq<Orphan>)
    requires RingKept(s, s1) && Paid(s1, s2, a)
    ensures Paid(s, s2, a)
  {
  }

  // ---- steps that leave the ring alone ----

  lemma EmitKept(s: Synth, e: Event)
    ensures Kept(s, Emit(s, e))
  {
    EmitEffect(s, e);
  }

  lemma NativeNoteKept(cfg: Config, s: Synth, e: Event)
    requires cfg.HasPort(e.port)
    ensures Kept(s, NativeNote(cfg, s, e))
  {
    hide Emit, InDialect;
    EmitKept(s, InDialect(cfg, e));
  }

  lemma AttackKept(cfg: Config, s: Synth, source: nat, e: Event)
    requires cfg.HasPort(e.port)
    ensures Kept(s, Attack(cfg, s, source, e))
  {
    hide NativeNote, Clashes;
    var slot := FirstFree(s.notes, 0);
    if slot < HELD_NOTES {
      var next := s.nextNote + 1;
      var note := HeldNote(source, e.noteId, next, e.port, e.channel, e.key, false);
      NativeNoteKept(cfg, s.(nextNote := next, notes := s.notes[slot := Some(note)]), e.(noteId := next));
    }
  }

  lemma {:induction false} NoteLoopKept(cfg: Config, s: Synth, source: nat, e: Event, i: nat)
    requires cfg.HasPort(e.port)
    ensures Kept(s, NoteLoop(cfg, s, source, e, i))
    decreases HELD_NOTES - i
  {
    hide Emit, NativeNote, Sustained, Owned;
    if i < HELD_NOTES {
      NoteLoopKept(cfg, s, source, e, i + 1);
      if s.notes[i].Some? {
        var own := ToOwned(e, s.notes[i].value);
        var s1 := s.(notes := s.notes[i := None]);
        EmitKept(s, own);
        NativeNoteKept(cfg, s1, own);
        NoteLoopKept(cfg, Emit(s, own), source, e, i + 1);
        NoteLoopKept(cfg, NativeNote(cfg, s1, own), source, e, i + 1);
      }
    }
  }

  lemma {:induction false} LiftLoopKept(cfg: Config, s: Synth, source: nat, address: Event, i: nat)
    requires cfg.HasPort(address.port)
    ensures RingKept(s, LiftLoop(cfg, s, source, address, i))
    decreases HELD_NOTES - i
  {
    hide NativeNote;
    if i < HELD_NOTES {
      LiftLoopKept(cfg, s, source, address, i + 1);
      if s.notes[i].Some? {
        var note := s.notes[i].value;
        var off := address.(kind := NoteOff, noteId := note.native, key := note.key, value := 0.0);
        var s1 := LiftOut(cfg, s, address, i);
        NativeNoteKept(cfg, s1, off);
        LiftLoopKept(cfg, NativeNote(cfg, s1, off), source, address, i + 1);
      }
    }
  }

  lemma {:induction false} ClashLoopKept(cfg: Config, s: Synth, port: nat, e: BusEvent, i: nat)
    requires cfg.HasPort(port)
    ensures Kept(s, ClashLoop(cfg, s, port, e, i))
    decreases HELD_NOTES - i
  {
    hide NativeNote, Retriggers;
    if i < HELD_NOTES {
      ClashLoopKept(cfg, s, port, e, i + 1);
      if s.notes[i].Some? {
        var off := OffOf(s.notes[i].value, port, e.offset);
        var s1 := s.(notes := s.notes[i := None]);
        NativeNoteKept(cfg, s1, off);
        ClashLoopKept(cfg, NativeNote(cfg, s1, off), port, e, i + 1);
      }
    }
  }

  lemma PedalEventKept(cfg: Config, s: Synth, source: nat, e: Event)
    requires cfg.HasPort(e.port)
    ensures RingKept(s, PedalEvent(cfg, s, source, e))
  {
    hide Emit, LiftLoop, PedalSlot;
    var address := MidiAddress(e);
    var index := PedalSlot(s.pedals, source, e.port, address.channel, 0);
    if index < PEDALS {
      var entry := if Data2(e.id) >= 64 then Some(Pedal(source, e.port, address.channel, true)) else None;
      var s1 := s.(pedals := s.pedals[index := entry]);
      EmitKept(s1, e);
      LiftLoopKept(cfg, if cfg.dialects[e.port].midi then Emit(s1, e) else s1, source, address, 0);
    }
  }

  lemma JoinKept(cfg: Config, s: Synth, port: nat, e: BusEvent, i: nat)
    requires cfg.HasPort(port) && i < HELD_NOTES && s.notes[i].Some?
    ensures Kept(s, Join(cfg, s, port, e, i))
  {
    hide NativeNote, Attack;
    var held := s.notes[i].value;
    AttackKept(cfg, s, e.source, BusAttack(port, e));
    var s1 := NoteEvent(cfg, s, e.source, BusAttack(port, e));
    var j := FirstNative(s1.notes, held.native, 0);
    if j < HELD_NOTES {
      NativeNoteKept(cfg, s1.(notes := s1.notes[j := None]), OffOf(held, port, e.offset));
    }
  }

  lemma DrainKept(s: Synth)
    ensures Kept(s, Drain(s)) && Drain(s).open == s.open
    decreases |s.deferred|
  {
    hide Accepts;
  }

  lemma RefillKept(s: Synth)
    ensures Kept(s, Refill(s))
    decreases |s.pending|
  {
    hide Accepts, IsRelease;
  }

  lemma EndLoopKept(s: Synth, e: Event, i: nat)
    ensures Kept(s, EndLoop(s, e, i))
    decreases HELD_NOTES - i
  {
    hide Ends;
  }

  lemma ReceiveControlKept(cfg: Config, s: Synth, e: Event)
    requires Shaped(cfg, s)
    ensures Kept(s, ReceiveControl(cfg, s, e).0)
  {
    hide Accepts, ParameterIndex, IdNumber;
  }

  lemma {:induction false} ReceiveKept(cfg: Config, s: Synth, events: seq<Event>)
    requires Shaped(cfg, s)
    ensures Kept(s, Receive(cfg, s, events))
    decreases |events|
  {
    hide ReceiveControl, EndLoop;
    if events != [] {
      var e := events[0];
      ReceiveControlKept(cfg, s, e);
      ReceiveEffect(cfg, s, e);
      var (s1, more) := if IsControl(e) then ReceiveControl(cfg, s, e) else (s, true);
      if more {
        EndLoopKept(s1, e, 0);
        EndLoopShape(cfg, s1, e, 0);
        ReceiveKept(cfg, if e.kind.NoteEnd? then EndLoop(s1, e, 0) else s1, events[1..]);
      }
    }
  }

  lemma OpenJobKept(cfg: Config, s: Synth, slice: Slice)
    requires Shaped(cfg, s)
    ensures Kept(s, OpenJob(cfg, s, slice))
  {
    hide Drain, Refill, Receive;
    var s0 := s.(open := true, job := [], spans := []);
    DrainShape(cfg, s0);
    RefillShape(cfg, Drain(s0));
    DrainKept(s0);
    RefillKept(Drain(s0));
    var s1 := Refill(Drain(s0));
    ReceiveKept(cfg, s1.(input := Zeros(|s1.input|)), slice.received);
  }

  lemma SendParametersKept(cfg: Config, s: Synth, offset: nat, i: nat)
    requires Shaped(cfg, s)
    ensures Kept(s, SendParameters(cfg, s, offset, i))
    decreases |cfg.parameters| - i
  {
    hide Accepts, OutOfRange;
  }

  // ---- what each step pays ----

  lemma NoteEventPaid(cfg: Config, s: Synth, source: nat, e: Event)
    requires cfg.HasPort(e.port)
    ensures Paid(s, NoteEvent(cfg, s, source, e),
                 if e.kind.NoteOff? && e.noteId == -1 then [Orphan(source, e.port, e.channel, e.key)] else [])
  {
    hide Attack, NoteLoop, Owing;
    var s' := NoteEvent(cfg, s, source, e);
    AttackKept(cfg, s, source, e);
    NoteLoopKept(cfg, s, source, e, 0);
    if e.kind.NoteOff? && e.noteId == -1 {
      var a := Orphan(source, e.port, e.channel, e.key);
      var j := FirstOwing(s.orphans, source, e, 0);
      OwingNone(s.orphans, source, e, 0);
      if j < ORPHANS {
        forall b: Orphan ensures Owing(s'.orphans, b, 0) == Less(Owing(s.orphans, b, 0), multiset([a])[b]) {
          OwingUpdate(s.orphans, b, j, None, 0);
        }
      } else {
        assert forall b: Orphan :: multiset([a])[b] == if b == a then 1 else 0;
      }
    } else {
      KeptPays(s, s');
    }
  }

  lemma MidiEventPaid(cfg: Config, s: Synth, source: nat, e: Event)
    requires cfg.HasPort(e.port)
    ensures var status := HighNibble(Status(e.id));
            Paid(s, MidiEvent(cfg, s, source, e),
                 if status == 0x80 || (status == 0x90 && Data2(e.id) == 0)
                 then [Orphan(source, e.port, MidiAddress(e).channel, Data1(e.id))] else [])
  {
    hide NoteEvent, PedalEvent, Emit, Paid, RingKept;
    var s' := MidiEvent(cfg, s, source, e);
    var status := HighNibble(Status(e.id));
    var data1, data2 := Data1(e.id), Data2(e.id);
    var address := MidiAddress(e);
    if status == 0x80 || status == 0x90 {
      NoteEventPaid(cfg, s, source,
                    address.(kind := if status == 0x90 && data2 != 0 then NoteOn else NoteOff,
                             key := data1,
                             value := data2 as real / 127.0));
    } else if status == 0xb0 && data1 == 64 {
      PedalEventKept(cfg, s, source, e);
      KeptPays(s, s');
    } else if status == 0xb0 && (data1 == 120 || data1 == 123) {
      NoteEventPaid(cfg, s, source, address.(kind := NoteChoke));
    } else if cfg.dialects[e.port].midi {
      EmitKept(s, e);
      KeptPays(s, s');
    } else {
      match AsExpression(status, data1, data2)
      case None => FailPays(s, Protocol);
      case Some((id, key, value)) =>
        NoteEventPaid(cfg, s, source, address.(kind := Expression, id := Number(id), key := key, value := value));
    }
  }

  lemma FailPays(s: Synth, f: Failure)
    ensures Kept(s, Fail(s, f)) && Paid(s, Fail(s, f), [])
  {
    KeptPays(s, Fail(s, f));
  }

  lemma PluginEventPaid(cfg: Config, s: Synth, source: nat, e: Event)
    requires cfg.Valid()
    ensures Paid(s, PluginEvent(cfg, s, source, e), KeyOff(cfg, source, e))
  {
    hide NoteEvent, MidiEvent, Paid, HighNibble;
    if e.port < 0 || e.port >= |cfg.notePorts| {
      FailPays(s, Protocol);
    } else {
      var e' := e.(port := cfg.notePorts[e.port]);
      if e.kind.Midi? { MidiEventPaid(cfg, s, source, e'); } else { NoteEventPaid(cfg, s, source, e'); }
    }
  }

  lemma ReadNoteOnPaid(cfg: Config, s: Synth, port: nat, e: BusEvent)
    requires cfg.Valid() && port < |cfg.notePorts|
    ensures Paid(s, ReadNoteOn(cfg, s, port, e), [])
  {
    hide Join, ClashLoop, PluginEvent, Paid;
    var s' := ReadNoteOn(cfg, s, port, e);
    var native := cfg.notePorts[port];
    var i := if e.joins >= 0 then FirstJoined(s.notes, native, e, 0) else HELD_NOTES;
    if i < HELD_NOTES {
      JoinKept(cfg, s, native, e, i);
      KeptPays(s, s');
    } else {
      ClashLoopKept(cfg, s, native, e, 0);
      var s1 := ClashLoop(cfg, s, native, e, 0);
      KeptPays(s, s1);
      if FirstFree(s1.notes, 0) < HELD_NOTES {
        PluginEventPaid(cfg, s1, e.source, BusBase(port, e).(value := e.value));
        KeptThenPaid(s, s1, s', []);
      }
    }
  }

  /** Of what a bus event is spelled as, only a note-off is a note-off. */
  lemma TranslatedOff(cfg: Config, port: nat, e: BusEvent)
    requires cfg.Valid() && port < |cfg.notePorts| && !e.kind.BusNoteOn?
    ensures match Translate(cfg.dialects[cfg.notePorts[port]], port, e)
            case None => BusOff(cfg, port, e) == []
            case Some(event) => KeyOff(cfg, e.source, event) == BusOff(cfg, port, e)
  {
    hide Data7, Bend14, StatusByte, HighNibble;
    StatusNibbles(e);
  }

  lemma StatusNibbles(e: BusEvent)
    ensures HighNibble(StatusByte(0xa0, e)) == 0xa0 && HighNibble(StatusByte(0xb0, e)) == 0xb0
    ensures HighNibble(StatusByte(0xc0, e)) == 0xc0 && HighNibble(StatusByte(0xd0, e)) == 0xd0
    ensures HighNibble(StatusByte(0xe0, e)) == 0xe0
  {
  }

  lemma ReadBusPaid(cfg: Config, s: Synth, port: nat, e: BusEvent)
    requires cfg.Valid()
    ensures Paid(s, ReadBus(cfg, s, port, e), BusOff(cfg, port, e))
  {
    hide ReadNoteOn, PluginEvent, Translate, Owing;
    var s1 := s.(spreading := true);
    if port < |cfg.notePorts| {
      if e.kind.BusNoteOn? {
        ReadNoteOnPaid(cfg, s1, port, e);
      } else {
        TranslatedOff(cfg, port, e);
        match Translate(cfg.dialects[cfg.notePorts[port]], port, e)
        case None =>
        case Some(event) => PluginEventPaid(cfg, s1, e.source, event);
      }
    }
  }

  lemma {:induction false} ReadAllPaid(cfg: Config, s: Synth, port: nat, events: seq<BusEvent>)
    requires cfg.Valid()
    ensures Paid(s, ReadAll(cfg, s, port, events), BusOffs(cfg, port, events))
    decreases |events|
  {
    hide ReadBus, Paid, BusOff;
    if events == [] {
      KeptPays(s, s);
    } else {
      var s1 := ReadBus(cfg, s, port, events[0]);
      ReadBusPaid(cfg, s, port, events[0]);
      ReadAllPaid(cfg, s1, port, events[1..]);
      PaidTrans(s, s1, ReadAll(cfg, s, port, events), BusOff(cfg, port, events[0]), BusOffs(cfg, port, events[1..]));
    }
  }

  lemma {:induction false} ReadPortsPaid(cfg: Config, s: Synth, heard: seq<seq<BusEvent>>, port: nat)
    requires cfg.Valid()
    ensures Paid(s, ReadPorts(cfg, s, heard, port), HeardOffs(cfg, heard, port))
    decreases |heard| - port
  {
    hide ReadAll, Paid, BusOffs;
    if port >= |heard| {
      KeptPays(s, s);
    } else {
      var s1 := ReadAll(cfg, s, port, heard[port]);
      ReadAllPaid(cfg, s, port, heard[port]);
      ReadPortsPaid(cfg, s1, heard, port + 1);
      PaidTrans(s, s1, ReadPorts(cfg, s, heard, port), BusOffs(cfg, port, heard[port]), HeardOffs(cfg, heard, port + 1));
    }
  }

  lemma PreparePaid(cfg: Config, s: Synth, slice: Slice, quiet: bool)
    requires Good(cfg, s)
    ensures Paid(s, Prepare(cfg, s, slice, quiet),
                 if quiet || (s.open && |s.spans| == SPANS) then [] else HeardOffs(cfg, slice.heard, 0))
  {
    var s' := Prepare(cfg, s, slice, quiet);
    if !s.open {
      OpenJobBlock(cfg, s, slice);
      OpenJobKept(cfg, s, slice);
    }
    hide OpenJob, ReadPorts, Paid, Good;
    if quiet {
      KeptPays(s, s');
    } else {
      var s1 := if s.open then s else OpenJob(cfg, s, slice);
      if |s1.spans| == SPANS {
        KeptPays(s, s');
      } else {
        var s2 := s1.(spans := s1.spans + [SpanOf(s1, slice)]);
        ReadPortsPaid(cfg, s2, slice.heard, 0);
        KeptThenPaid(s, s2, s', HeardOffs(cfg, slice.heard, 0));
      }
    }
  }

  lemma ProcessKept(cfg: Config, s: Synth, offset: nat, frames: nat, p: Sounding)
    requires Shaped(cfg, s) && |p.readings| == |s.values|
    requires forall b :: 0 <= b < |p.audio| ==> |p.audio[b]| == FRAMES
    ensures Kept(s, Process(cfg, s, offset, frames, p.readings, p.audio, p.quiet))
  {
    hide SendParameters, Stage;
    SendParametersKept(cfg, s.(values := FollowMaps(s, p.readings)), offset, 0);
  }

  /** Every call but a stop takes from the ring exactly the key-named note-offs it
      carries, as far as the ring waits for them, and adds nothing. */
  lemma DoPaid(cfg: Config, s: Synth, step: Step)
    requires Good(cfg, s) && StepValid(cfg, step) && !step.Stop?
    ensures Paid(s, Do(cfg, s, step), StepOffs(cfg, s, step))
  {
    hide Paid, PluginEvent, ReadBus, Prepare, Process, Inv, RingKept, KeyOff, BusOff, HeardOffs;
    var s' := Do(cfg, s, step);
    match step
    case Client(source, e) => PluginEventPaid(cfg, s, source, e);
    case Addressed(e) => if cfg.notePorts != [] { ReadBusPaid(cfg, s, 0, e); } else { OthersPaid(cfg, s, step); }
    case RunSlice(slice, quiet, sounding) =>
      PreparePaid(cfg, s, slice, quiet);
      PrepareInv(cfg, s, slice, quiet);
      if sounding.Some? {
        var s1 := Prepare(cfg, s, slice, quiet);
        ProcessKept(cfg, s1, slice.offset, slice.frames, sounding.value);
        PaidThenKept(s, s1, s', StepOffs(cfg, s, step));
      }
    case Close(_, _) => OthersPaid(cfg, s, step);
    case Set(_, _) => OthersPaid(cfg, s, step);
    case Map(_, _) => OthersPaid(cfg, s, step);
    case Tempo(_) => OthersPaid(cfg, s, step);
    case Reply => OthersPaid(cfg, s, step);
  }

  lemma OthersPaid(cfg: Config, s: Synth, step: Step)
    requires Good(cfg, s) && StepValid(cfg, step)
    requires step.Close? || step.Set? || step.Map? || step.Tempo? || step.Reply? || (step.Addressed? && cfg.notePorts == [])
    ensures Paid(s, Do(cfg, s, step), [])
  {
    hide Inv, SpansValid;
    KeptPays(s, Do(cfg, s, step));
  }

  // ---- over a run ----

  /** How many key-named notes the stops of a run cut on the key `a`. */
  ghost function RunCutsOf(cfg: Config, s: Synth, steps: seq<Step>, a: Orphan): nat
    requires Good(cfg, s) && forall i :: 0 <= i < |steps| ==> StepValid(cfg, steps[i])
    decreases |steps|
  {
    if steps == [] then 0
    else
      DoGood(cfg, s, steps[0]);
      (if steps[0].Stop? then CutsOf(s.notes, steps[0].scope, a, 0) else 0)
      + RunCutsOf(cfg, Do(cfg, s, steps[0]), steps[1..], a)
  }

  /** How many key-named note-offs of `a` the run carries. */
  ghost function RunOffsOf(cfg: Config, s: Synth, steps: seq<Step>, a: Orphan): nat
    requires Good(cfg, s) && forall i :: 0 <= i < |steps| ==> StepValid(cfg, steps[i])
    decreases |steps|
  {
    if steps == [] then 0
    else
      DoGood(cfg, s, steps[0]);
      multiset(StepOffs(cfg, s, steps[0]))[a] + RunOffsOf(cfg, Do(cfg, s, steps[0]), steps[1..], a)
  }

  /** How many of those are taken for notes that were cut, when `d` are waited for
      at first: each one that comes while any is. */
  ghost function RunTaken(cfg: Config, s: Synth, steps: seq<Step>, a: Orphan, d: nat): nat
    requires Good(cfg, s) && forall i :: 0 <= i < |steps| ==> StepValid(cfg, steps[i])
    decreases |steps|
  {
    if steps == [] then 0
    else
      var s', n := Do(cfg, s, steps[0]), multiset(StepOffs(cfg, s, steps[0]))[a];
      DoGood(cfg, s, steps[0]);
      if steps[0].Stop? then RunTaken(cfg, s', steps[1..], a, d + CutsOf(s.notes, steps[0].scope, a, 0))
      else (d - Less(d, n)) + RunTaken(cfg, s', steps[1..], a, Less(d, n))
  }

  /** The state a stop leaves. */
  ghost function Stopped(cfg: Config, s: Synth, scope: Scope, offset: nat): (s': Synth)
    requires Good(cfg, s)
    ensures Good(cfg, s')
  {
    DoGood(cfg, s, Stop(scope, offset));
    Do(cfg, s, Stop(scope, offset))
  }

  /** A stop adds what it cuts on each key, given free slots ahead for it, and
      leaves the `more` after them free. */
  lemma StopCuts(cfg: Config, s: Synth, scope: Scope, offset: nat, a: Orphan, more: nat)
    requires Good(cfg, s) && Cuts(s.notes, scope, 0) + more <= ORPHANS
    requires FreeAhead(s.orphans, s.nextOrphan, Cuts(s.notes, scope, 0) + more)
    ensures var s' := Stopped(cfg, s, scope, offset);
            && Owing(s'.orphans, a, 0) == Owing(s.orphans, a, 0) + CutsOf(s.notes, scope, a, 0)
            && FreeAhead(s'.orphans, s'.nextOrphan, more)
  {
    hide ReleaseLoop, Owing, FreeAhead, Governs, Inv;
    ReleaseInv(cfg, s, scope, offset);
    ReleaseRemembers(cfg, s, scope, offset, a, 0, more);
  }

  /** A stop with more cuts than free slots ahead makes the ring forget: on some key
      it waits for fewer offs than what it waited for and what was cut there. */
  lemma StopForgets(cfg: Config, s: Synth, scope: Scope, offset: nat) returns (a: Orphan)
    requires Good(cfg, s) && !Fits(s, scope)
    ensures Owing(Stopped(cfg, s, scope, offset).orphans, a, 0) < Owing(s.orphans, a, 0) + CutsOf(s.notes, scope, a, 0)
  {
    hide ReleaseLoop, Owing, FreeAhead, Governs, Inv;
    ReleaseInv(cfg, s, scope, offset);
    a := ReleaseForgets(cfg, s, scope, offset, 0);
  }

  /** Every stop of the run finds free slots ahead for what it cuts. */
  ghost predicate Roomy(cfg: Config, s: Synth, steps: seq<Step>)
    requires Good(cfg, s) && forall i :: 0 <= i < |steps| ==> StepValid(cfg, steps[i])
    decreases |steps|
  {
    steps == [] ||
    (DoGood(cfg, s, steps[0]);
     (steps[0].Stop? ==> Fits(s, steps[0].scope)) && Roomy(cfg, Do(cfg, s, steps[0]), steps[1..]))
  }

  /** What the ring waits for on a key at the end of a run is what it waited for,
      plus what was cut there, less the offs taken. */
  ghost predicate Balanced(cfg: Config, s: Synth, steps: seq<Step>, a: Orphan)
    requires Good(cfg, s) && forall i :: 0 <= i < |steps| ==> StepValid(cfg, steps[i])
  {
    Owing(Run(cfg, s, steps).orphans, a, 0) ==
    Owing(s.orphans, a, 0) + RunCutsOf(cfg, s, steps, a) - RunTaken(cfg, s, steps, a, Owing(s.orphans, a, 0))
  }

  /** In any run whose stops find room, every key is balanced. */
  lemma {:induction false} RunBalance(cfg: Config, s: Synth, steps: seq<Step>, a: Orphan)
    requires Good(cfg, s) && forall i :: 0 <= i < |steps| ==> StepValid(cfg, steps[i])
    requires Roomy(cfg, s, steps)
    ensures Balanced(cfg, s, steps, a)
    decreases |steps|
  {
    hide Do, Good, StepValid, Owing, FreeAhead, Cuts, CutsOf, StepOffs;
    if steps != [] {
      var step := steps[0];
      DoGood(cfg, s, step);
      if step.Stop? { StopCuts(cfg, s, step.scope, step.offset, a, 0); } else { DoPaid(cfg, s, step); }
      RunBalance(cfg, Do(cfg, s, step), steps[1..], a);
    }
  }

  /** Every key is balanced after the first `n` calls of the run. */
  ghost predicate BalancedAfter(cfg: Config, s: Synth, steps: seq<Step>, n: nat)
    requires Good(cfg, s) && (forall i :: 0 <= i < |steps| ==> StepValid(cfg, steps[i])) && n <= |steps|
  {
    forall a: Orphan :: Balanced(cfg, s, steps[..n], a)
  }

  lemma {:induction false} RoomyPrefix(cfg: Config, s: Synth, steps: seq<Step>, n: nat)
    requires Good(cfg, s) && (forall i :: 0 <= i < |steps| ==> StepValid(cfg, steps[i])) && n <= |steps|
    requires Roomy(cfg, s, steps)
    ensures Roomy(cfg, s, steps[..n])
    decreases n
  {
    hide Do, Good, StepValid, Fits;
    if n > 0 {
      DoGood(cfg, s, steps[0]);
      RoomyPrefix(cfg, Do(cfg, s, steps[0]), steps[1..], n - 1);
      assert steps[..n][1..] == steps[1..][..n - 1];
    }
  }

  /** A stop that does not find room leaves some key out of balance. */
  lemma StopUnbalances(cfg: Config, s: Synth, step: Step)
    requires Good(cfg, s) && StepValid(cfg, step) && step.Stop? && !Fits(s, step.scope)
    requires forall i :: 0 <= i < 1 ==> StepValid(cfg, [step][i])
    ensures exists a: Orphan :: !Balanced(cfg, s, [step], a)
  {
    hide Good, StepValid, Do, Owing, Fits, CutsOf;
    var a := StopForgets(cfg, s, step.scope, step.offset);
    DoGood(cfg, s, step);
    var s', d := Do(cfg, s, step), Owing(s.orphans, a, 0);
    assert [step][1..] == [] && step == Stop(step.scope, step.offset);
    assert Run(cfg, s, [step]) == Run(cfg, s', []) == s';
    assert RunCutsOf(cfg, s, [step], a) == CutsOf(s.notes, step.scope, a, 0) + RunCutsOf(cfg, s', [], a);
    assert RunTaken(cfg, s, [step], a, d) == RunTaken(cfg, s', [], a, d + CutsOf(s.notes, step.scope, a, 0)) == 0;
    assert !Balanced(cfg, s, [step], a);
  }

  /** The rest of a run is balanced where the whole is and its first call was. */
  lemma RestBalanced(cfg: Config, s: Synth, steps: seq<Step>, a: Orphan)
    requires Good(cfg, s) && steps != [] && forall i :: 0 <= i < |steps| ==> StepValid(cfg, steps[i])
    requires steps[0].Stop? ==> Fits(s, steps[0].scope)
    ensures Good(cfg, Do(cfg, s, steps[0]))
    ensures Balanced(cfg, s, steps, a) <==> Balanced(cfg, Do(cfg, s, steps[0]), steps[1..], a)
  {
    hide Do, Good, StepValid, Owing, FreeAhead, Cuts, CutsOf, StepOffs;
    var step := steps[0];
    DoGood(cfg, s, step);
    if step.Stop? { StopCuts(cfg, s, step.scope, step.offset, a, 0); } else { DoPaid(cfg, s, step); }
  }

  /** The balance holds on every key throughout a run if and only if each of its
      stops finds free slots ahead in the ring for what it cuts. */
  lemma {:induction false} BalanceExactly(cfg: Config, s: Synth, steps: seq<Step>)
    requires Good(cfg, s) && forall i :: 0 <= i < |steps| ==> StepValid(cfg, steps[i])
    ensures (forall n :: 0 <= n <= |steps| ==> BalancedAfter(cfg, s, steps, n)) <==> Roomy(cfg, s, steps)
    decreases |steps|
  {
    hide Do, Good, StepValid, Fits, Run, RunCutsOf, RunTaken, Balanced;
    if Roomy(cfg, s, steps) {
      forall n | 0 <= n <= |steps| ensures BalancedAfter(cfg, s, steps, n) {
        RoomyPrefix(cfg, s, steps, n);
        forall a: Orphan ensures Balanced(cfg, s, steps[..n], a) { RunBalance(cfg, s, steps[..n], a); }
      }
    } else if forall n :: 0 <= n <= |steps| ==> BalancedAfter(cfg, s, steps, n) {
      var step, rest := steps[0], steps[1..];
      DoGood(cfg, s, step);
      if step.Stop? && !Fits(s, step.scope) {
        assert steps[..1] == [step] && BalancedAfter(cfg, s, steps, 1);
        StopUnbalances(cfg, s, step);
      } else {
        var s' := Do(cfg, s, step);
        forall n | 0 <= n <= |rest| ensures BalancedAfter(cfg, s', rest, n) {
          assert BalancedAfter(cfg, s, steps, n + 1);
          assert steps[..n + 1][1..] == rest[..n];
          forall a: Orphan ensures Balanced(cfg, s', rest[..n], a) { RestBalanced(cfg, s, steps[..n + 1], a); }
        }
        BalanceExactly(cfg, s', rest);
      }
      assert false;
    }
  }

  /** The offs taken are all that came, as long as the ring waited for that many,
      and no more than it waited for. */
  lemma {:induction false} TakenIs(cfg: Config, s: Synth, steps: seq<Step>, a: Orphan, d: nat)
    requires Good(cfg, s) && forall i :: 0 <= i < |steps| ==> StepValid(cfg, steps[i])
    ensures RunTaken(cfg, s, steps, a, d) <= RunOffsOf(cfg, s, steps, a)
    ensures RunTaken(cfg, s, steps, a, d) <= d + RunCutsOf(cfg, s, steps, a)
    ensures RunCutsOf(cfg, s, steps, a) == 0 ==>
              d - RunTaken(cfg, s, steps, a, d) == Less(d, RunOffsOf(cfg, s, steps, a))
    decreases |steps|
  {
    hide Do, Good, StepValid, CutsOf, StepOffs;
    if steps != [] {
      var step := steps[0];
      DoGood(cfg, s, step);
      var n := multiset(StepOffs(cfg, s, step))[a];
      if step.Stop? {
        StopCarriesNone(cfg, s, step);
        TakenIs(cfg, Do(cfg, s, step), steps[1..], a, d + CutsOf(s.notes, step.scope, a, 0));
      } else {
        TakenIs(cfg, Do(cfg, s, step), steps[1..], a, Less(d, n));
      }
    }
  }

  lemma StopCarriesNone(cfg: Config, s: Synth, step: Step)
    requires step.Stop?
    ensures StepOffs(cfg, s, step) == []
  {
  }

  /** Late note-offs, in any run from a reachable state whose stops each find free
      slots ahead for what they cut -- any number of stops, new notes, and offs of
      any key in any order. On each key the ring waits, at the end, for what it waited for
      at first plus what was cut there less the offs taken, and the offs taken are
      those that came while it waited. A key-named off that comes then is taken,
      and changes no note and no list, as long as the ring waits for one; the
      first after that is applied to the notes held. */
  lemma LateOffsOverRuns(cfg: Config, s: Synth, steps: seq<Step>, source: nat, e: Event)
    requires Reachable(cfg, s) && Good(cfg, s) && forall i :: 0 <= i < |steps| ==> StepValid(cfg, steps[i])
    requires Roomy(cfg, s, steps)
    requires cfg.HasPort(e.port) && e.kind.NoteOff? && e.noteId == -1
    ensures var a := Orphan(source, e.port, e.channel, e.key);
            var s' := Run(cfg, s, steps);
            var before := Owing(s.orphans, a, 0);
            var waiting := before + RunCutsOf(cfg, s, steps, a) - RunTaken(cfg, s, steps, a, before);
            var s'' := NoteEvent(cfg, s', source, e);
            && waiting == Owing(s'.orphans, a, 0)
            && (waiting > 0 ==>
                  && Owing(s''.orphans, a, 0) == waiting - 1
                  && s'' == s'.(orphans := s''.orphans, history := s'.history.(cuts := s''.history.cuts)))
            && (waiting == 0 ==> s'' == NoteLoop(cfg, s', source, e, 0))
  {
    hide Do, Good, StepValid, NoteLoop, FreeAhead, Reachable, Owing, RunTaken, RunCutsOf;
    var a := Orphan(source, e.port, e.channel, e.key);
    RunBalance(cfg, s, steps, a);
    var s' := Run(cfg, s, steps);
    hide Run;
    OwingNone(s'.orphans, source, e, 0);
    NoteEventPaid(cfg, s', source, e);
    assert multiset([a])[a] == 1;
  }

  // ---- whose off it is ----

  /** How many of the key-named notes cut on `a` had their off before the cut: a
      pedal kept them. */
  function ReleasedOf(notes: NoteTable, scope: Scope, a: Orphan, i: nat): (n: nat)
    ensures n <= CutsOf(notes, scope, a, i)
    decreases HELD_NOTES - i
  {
    if i >= HELD_NOTES then 0
    else
      (if CutsKeyNamed(notes[i], scope) && AddressOf(notes[i].value) == a && notes[i].value.released then 1 else 0)
      + ReleasedOf(notes, scope, a, i + 1)
  }

  lemma LessOffs(cfg: Config, s: Synth, steps: seq<Step>, a: Orphan, cut: nat, left: nat)
    requires Good(cfg, s) && forall i :: 0 <= i < |steps| ==> StepValid(cfg, steps[i])
    requires Roomy(cfg, s, steps)
    requires Owing(s.orphans, a, 0) == cut && left <= cut
    requires RunCutsOf(cfg, s, steps, a) == 0 && RunOffsOf(cfg, s, steps, a) == cut - left
    ensures Owing(Run(cfg, s, steps).orphans, a, 0) == left
  {
    hide Good, StepValid, FreeAhead, Owing, Run, RunCutsOf, RunOffsOf, RunTaken;
    RunBalance(cfg, s, steps, a);
    TakenIs(cfg, s, steps, a, cut);
  }

  /** After a stop, once the late off of every note it cut on a key has come, the
      ring still waits for one off for each note cut there that had had its own. */
  lemma WaitsForReleased(cfg: Config, s: Synth, scope: Scope, offset: nat, rest: seq<Step>, a: Orphan)
    requires Good(cfg, s) && forall i :: 0 <= i < |rest| ==> StepValid(cfg, rest[i])
    requires AllLateOffsCame(cfg, s, scope, offset, rest, a)
    ensures Owing(Run(cfg, Stopped(cfg, s, scope, offset), rest).orphans, a, 0) == ReleasedOf(s.notes, scope, a, 0)
  {
    hide Good, StepValid, FreeAhead, Owing, Cuts, CutsOf, ReleasedOf, Stopped, Run, RunCutsOf, RunOffsOf, RunTaken;
    var s1 := Stopped(cfg, s, scope, offset);
    StopCuts(cfg, s, scope, offset, a, 0);
    LessOffs(cfg, s1, rest, a, CutsOf(s.notes, scope, a, 0), ReleasedOf(s.notes, scope, a, 0));
  }

  /** The ring waited for nothing on the key before the stop, this stop and all
      later ones find room for what they cut, and after the stop none is on the key and as many offs of
      it came as the stop cut notes there that were still to have one. */
  ghost predicate AllLateOffsCame(cfg: Config, s: Synth, scope: Scope, offset: nat, rest: seq<Step>, a: Orphan)
    requires Good(cfg, s) && forall i :: 0 <= i < |rest| ==> StepValid(cfg, rest[i])
  {
    var s1 := Stopped(cfg, s, scope, offset);
    && Fits(s, scope) && Roomy(cfg, s1, rest)
    && Owing(s.orphans, a, 0) == 0
    && RunCutsOf(cfg, s1, rest, a) == 0
    && RunOffsOf(cfg, s1, rest, a) == CutsOf(s.notes, scope, a, 0) - ReleasedOf(s.notes, scope, a, 0)
  }

  /** Then a note held on that key, whatever else happened, is ended by its own off
      if and only if no note the stop cut on the key had had its off already. */
  lemma OwnOffExactly(cfg: Config, s: Synth, scope: Scope, offset: nat, rest: seq<Step>, source: nat, e: Event, k: nat)
    requires Reachable(cfg, s) && Good(cfg, s) && forall i :: 0 <= i < |rest| ==> StepValid(cfg, rest[i])
    requires AllLateOffsCame(cfg, s, scope, offset, rest, Orphan(source, e.port, e.channel, e.key))
    requires cfg.HasPort(e.port) && e.kind.NoteOff? && e.noteId == -1
    requires var s2 := Run(cfg, Stopped(cfg, s, scope, offset), rest);
             && k < HELD_NOTES && Takes(s2.notes[k], source, e) && !HeldDown(s2.pedals, s2.notes[k].value)
             && forall j :: 0 <= j < k ==> !Takes(s2.notes[j], source, e)
    ensures var s2 := Run(cfg, Stopped(cfg, s, scope, offset), rest);
            var a := Orphan(source, e.port, e.channel, e.key);
            && s2.notes[k].Some?
            && NoteEvent(cfg, s2, source, e).notes ==
               (if ReleasedOf(s.notes, scope, a, 0) == 0 then s2.notes[k := None] else s2.notes)
  {
    hide Good, StepValid, Reachable, Owing, Takes, HeldDown, Run, NoteEvent, ReleasedOf, AllLateOffsCame, Stopped;
    var a := Orphan(source, e.port, e.channel, e.key);
    WaitsForReleased(cfg, s, scope, offset, rest, a);
    WaitingOrApplied(cfg, Run(cfg, Stopped(cfg, s, scope, offset), rest), source, e, k);
  }

  lemma WaitingOrApplied(cfg: Config, s: Synth, source: nat, e: Event, k: nat)
    requires cfg.HasPort(e.port) && e.kind.NoteOff? && e.noteId == -1
    requires k < HELD_NOTES && Takes(s.notes[k], source, e) && !HeldDown(s.pedals, s.notes[k].value)
    requires forall j :: 0 <= j < k ==> !Takes(s.notes[j], source, e)
    ensures s.notes[k].Some?
    ensures NoteEvent(cfg, s, source, e).notes ==
            if Owing(s.orphans, Orphan(source, e.port, e.channel, e.key), 0) > 0 then s.notes else s.notes[k := None]
  {
    hide NoteLoop, Owing, HeldDown, InDialect;
    OwingNone(s.orphans, source, e, 0);
    if FirstOwing(s.orphans, source, e, 0) == ORPHANS { NoteOffExactly(cfg, s, source, e, k); }
  }
}
