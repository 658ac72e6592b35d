/** When first-in first-out delivery breaks: exactly when an event is put ahead of
    one that waits. */
module PluginOverflow {
  import opened Wrappers
  import opened PluginWire
  import opened PluginModel
  import opened PluginInvariants
  import opened PluginSteps
  import opened PluginRuns

  /** The list an event would go to refuses it, and it is not a full open job:
      a full pending list, or an offset before the list's last. */
  predicate Spills(s: Synth, e: Event) {
    if s.open then !Accepts(s.job, e) && |s.job| < EVENTS else !Accepts(s.pending, e)
  }

  lemma {:induction false} ReleasedNotAlive(t: Trace, k: nat)
    requires Lawful(t) && k < |Log(t)| && IsRelease(Log(t)[k])
    ensures Log(t)[k].noteId !in Alive(t)
  {
    match t
    case Then(past, Sent(e)) =>
      if k < |Log(past)| {
        ReleasedNotAlive(past, k);
        FreshUnstarted(past, k);
      }
    case Then(past, _) => ReleasedNotAlive(past, k);
  }

  /** What was released has an identity already handed out. */
  lemma {:induction false} FreshUnstarted(t: Trace, k: nat)
    requires Lawful(t) && k < |Log(t)| && IsRelease(Log(t)[k])
    ensures Log(t)[k].noteId <= Attacks(t)
  {
    match t
    case Then(past, Sent(e)) =>
      if k < |Log(past)| {
        FreshUnstarted(past, k);
      } else {
        FreshNative(past, e.noteId);
      }
    case Then(past, _) => FreshUnstarted(past, k);
  }

  lemma {:induction false} AttackNumbered(t: Trace, k: nat)
    requires Lawful(t) && k < |Log(t)| && IsAttack(Log(t)[k])
    ensures Log(t)[k].noteId <= Attacks(t)
  {
    match t
    case Then(past, Sent(e)) => if k < |Log(past)| { AttackNumbered(past, k); }
    case Then(past, _) => AttackNumbered(past, k);
  }

  /** A note's start or release comes once, so nothing sent before is like it. */
  lemma LoggedApart(t: Trace, e: Event, k: nat)
    requires Lawful(Then(t, Sent(e))) && (IsAttack(e) || IsRelease(e)) && k < |Log(t)|
    ensures AtZero(Log(t)[k]) != AtZero(e)
  {
    if AtZero(Log(t)[k]) == AtZero(e) {
      if IsRelease(e) { ReleasedNotAlive(t, k); } else { AttackNumbered(t, k); }
    }
  }

  /** What an accepted event is put ahead of: the deferred events when the open
      job takes it, the pending ones when it is itself deferred with no job open. */
  function Overtaken(s: Synth, e: Event): seq<Event> {
    if s.open then (if Accepts(s.job, e) then s.deferred else [])
    else if Accepts(s.pending, e) then []
    else s.pending
  }

  lemma {:induction false} Rotated<T>(x: T, list: seq<T>)
    ensures [x] + list == list + [x] <==> forall i :: 0 <= i < |list| ==> list[i] == x
    decreases |list|
  {
    if list != [] {
      assert ([x] + list)[0] == x && (list + [x])[0] == list[0];
      assert [x] + list == [x] + ([list[0]] + list[1..]);
      assert list + [x] == [list[0]] + (list[1..] + [x]);
      if list[0] == x {
        Rotated(x, list[1..]);
        assert ([x] + list)[1..] == [x] + list[1..] && (list + [x])[1..] == list[1..] + [x];
        assert forall i :: 1 <= i < |list| ==> list[i] == list[1..][i - 1];
      }
    }
  }

  /** An accepted event `e` stands before `behind` in the queue rather than after. */
  lemma PutAhead(s: Synth, s': Synth, e: Event, e': Event, ahead: seq<Event>, behind: seq<Event>)
    requires InOrder(s) && Queue(s) == ahead + behind && Queue(s') == ahead + [e'] + behind && AtZero(e') == AtZero(e)
    requires Log(s'.history.trace) == Log(s.history.trace) + [e]
    ensures InOrder(s') <==> forall i :: 0 <= i < |behind| ==> AtZero(behind[i]) == AtZero(e)
  {
    hide Queue, Log, Strip, AtZero;
    var z := AtZero(e);
    StripAppend(ahead, behind);
    StripAppend(ahead + [e'], behind);
    StripAppend(ahead, [e']);
    StripAppend(Log(s.history.trace), [e]);
    StripOne(e);
    StripOne(e');
    var a, b := Strip(ahead), Strip(behind);
    assert Strip(Queue(s')) == a + ([z] + b);
    assert Strip(Log(s'.history.trace)) == a + (b + [z]);
    assert InOrder(s') <==> [z] + b == b + [z] by {
      assert (a + ([z] + b))[|a|..] == [z] + b && (a + (b + [z]))[|a|..] == b + [z];
    }
    Rotated(z, b);
    StripEach(behind);
  }

  lemma StripOne(e: Event)
    ensures Strip([e]) == [AtZero(e)]
  {
  }

  lemma StripEach(list: seq<Event>)
    ensures |Strip(list)| == |list| && forall i :: 0 <= i < |list| ==> Strip(list)[i] == AtZero(list[i])
  {
  }

  /** An event accepted while all was in order leaves it in order if and only if
      everything it is put ahead of is the same event. */
  lemma EmitExactly(s: Synth, e: Event)
    requires InOrder(s) && (s.open ==> s.pending == []) && Healthy(Emit(s, e))
    ensures InOrder(Emit(s, e)) <==> forall d :: d in Overtaken(s, e) ==> AtZero(d) == AtZero(e)
  {
    hide InOrder, Strip, IsRelease, Valid;
    var s' := Emit(s, e);
    var behind := Overtaken(s, e);
    var before := s.history.delivered + (if s.open then s.job else []);
    if s.open && Accepts(s.job, e) {
      assert Queue(s) == before + behind && Queue(s') == before + [e] + behind;
      PutAhead(s, s', e, e, before, behind);
    } else if s.open || Accepts(s.pending, e) {
      assert Queue(s) == Queue(s) + [];
      var e' := if s.open then AtZero(e) else e;
      assert Queue(s') == Queue(s) + [e'] + [];
      PutAhead(s, s', e, e', Queue(s), []);
    } else {
      var ahead := before + s.deferred;
      assert Queue(s) == ahead + behind && Queue(s') == ahead + [AtZero(e)] + behind;
      PutAhead(s, s', e, AtZero(e), ahead, behind);
    }
  }

  /** The start or release of a note stays in order if and only if nothing waits
      behind where it is put. */
  lemma NoteExactly(s: Synth, e: Event)
    requires InOrder(s) && (s.open ==> s.pending == []) && Healthy(Emit(s, e))
    requires Lawful(Then(s.history.trace, Sent(e))) && (IsAttack(e) || IsRelease(e))
    ensures InOrder(Emit(s, e)) <==> Overtaken(s, e) == []
  {
    EmitExactly(s, e);
    hide Emit, IsAttack, IsRelease, Lawful, Accepts;
    var behind, log := Overtaken(s, e), Log(s.history.trace);
    if behind != [] {
      var d := behind[0];
      var n := |s.history.delivered| + if s.open then |s.job| else |s.deferred|;
      assert Queue(s)[n] == d;
      assert |Queue(s)| == |Strip(Queue(s))| == |Strip(log)| == |log|;
      assert AtZero(d) == Strip(Queue(s))[n] == Strip(log)[n] == AtZero(log[n]);
      LoggedApart(s.history.trace, e, n);
    }
  }

  /** So where nothing spilled before, order breaks only with no job open: a note's
      start or release keeps it if and only if a job is open or the pending list
      takes the event. A spill into the deferred events of an open job does not
      break it yet. */
  lemma UnspilledExactly(s: Synth, e: Event)
    requires Wire(s) && Healthy(s) && !s.history.spilled && Valid(e) && Healthy(Emit(s, e))
    requires Lawful(Then(s.history.trace, Sent(e))) && (IsAttack(e) || IsRelease(e))
    ensures InOrder(Emit(s, e)) <==> s.open || Accepts(s.pending, e)
    ensures Emit(s, e).history.spilled <==> Spills(s, e)
  {
    NoteExactly(s, e);
    hide InOrder, Lawful, IsAttack, IsRelease;
  }

  /** What breaks it then is the next start or release the open job takes. */
  lemma SpilledExactly(s: Synth, e: Event)
    requires InOrder(s) && s.open && s.pending == [] && Accepts(s.job, e) && Healthy(Emit(s, e))
    requires Lawful(Then(s.history.trace, Sent(e))) && (IsAttack(e) || IsRelease(e))
    ensures InOrder(Emit(s, e)) <==> s.deferred == []
  {
    NoteExactly(s, e);
  }

  // ---- a run that breaks it ----

  function NoteOnOf(id: int, key: int): Event {
    Event(0, NoteOn, Number(0), id, 0, 0, key, 0.5)
  }

  function NoteOffOf(id: int): Event { Event(0, NoteOff, Number(0), id, 0, -1, -1, 0.0) }

  function ProgramChange(): Event { Event(0, Midi, Message(0xc0, 0, 0), -1, 0, 0, -1, 0.0) }

  lemma StepsAppend(cfg: Config, a: seq<Step>, b: seq<Step>)
    requires forall i :: 0 <= i < |a| ==> StepValid(cfg, a[i])
    requires forall i :: 0 <= i < |b| ==> StepValid(cfg, b[i])
    ensures forall i :: 0 <= i < |a + b| ==> StepValid(cfg, (a + b)[i])
  {
    hide StepValid;
    forall i | 0 <= i < |a + b| ensures StepValid(cfg, (a + b)[i]) {
      assert (a + b)[i] == if i < |a| then a[i] else b[i - |a|];
    }
  }

  lemma RunFirst(cfg: Config, s: Synth, steps: seq<Step>)
    requires Good(cfg, s) && steps != [] && forall i :: 0 <= i < |steps| ==> StepValid(cfg, steps[i])
    ensures Good(cfg, Do(cfg, s, steps[0]))
    ensures Run(cfg, s, steps) == Run(cfg, Do(cfg, s, steps[0]), steps[1..])
  {
    hide Good, StepValid, Do;
    DoGood(cfg, s, steps[0]);
  }

  lemma {:induction false} RunAppend(cfg: Config, s: Synth, a: seq<Step>, b: seq<Step>)
    requires Good(cfg, s)
    requires forall i :: 0 <= i < |a| ==> StepValid(cfg, a[i])
    requires forall i :: 0 <= i < |b| ==> StepValid(cfg, b[i])
    ensures forall i :: 0 <= i < |a + b| ==> StepValid(cfg, (a + b)[i])
    ensures Run(cfg, s, a + b) == Run(cfg, Run(cfg, s, a), b)
    decreases |a|
  {
    hide Good, StepValid, Do;
    StepsAppend(cfg, a, b);
    if a == [] {
      assert a + b == b;
    } else {
      RunFirst(cfg, s, a);
      RunFirst(cfg, s, a + b);
      hide Run;
      RunAppend(cfg, Do(cfg, s, a[0]), a[1..], b);
      assert (a + b)[1..] == a[1..] + b;
    }
  }

  /** A port that plays native notes and takes raw MIDI. */
  ghost predicate FirstPortTakesBoth(cfg: Config) {
    cfg.Valid() && |cfg.notePorts| > 0 && cfg.dialects[cfg.notePorts[0]] == Dialect(true, true)
  }

  function Push(s: Synth, e: Event): Synth {
    s.(pending := s.pending + [e], history := s.history.(trace := Then(s.history.trace, Sent(e))))
  }

  function PushMany(s: Synth, e: Event, n: nat): Synth
    decreases n
  {
    if n == 0 then s else PushMany(Push(s, e), e, n - 1)
  }

  lemma {:induction false} PushManyAdds(s: Synth, e: Event, n: nat)
    ensures var s' := PushMany(s, e, n);
            && s' == s.(pending := s'.pending, history := s.history.(trace := s'.history.trace))
            && s'.pending == s.pending + seq(n, _ => e)
    decreases n
  {
    if n > 0 {
      PushManyAdds(Push(s, e), e, n - 1);
      assert (s.pending + [e]) + seq(n - 1, _ => e) == s.pending + seq(n, _ => e);
    }
  }

  /** Messages a closed instance passes through pile up in `pending`. */
  lemma {:induction false} PassThrough(cfg: Config, s: Synth, n: nat)
    requires FirstPortTakesBoth(cfg) && Good(cfg, s) && !s.open && |s.pending| + n <= EVENTS
    requires forall i :: 0 <= i < |s.pending| ==> s.pending[i].offset == 0
    ensures var steps := seq(n, _ => Client(0, ProgramChange()));
            && (forall i :: 0 <= i < n ==> StepValid(cfg, steps[i]))
            && Run(cfg, s, steps) == PushMany(s, ProgramChange().(port := cfg.notePorts[0]), n)
    decreases n
  {
    if n > 0 {
      var steps := seq(n, _ => Client(0, ProgramChange()));
      assert steps[1..] == seq(n - 1, _ => Client(0, ProgramChange()));
      var s' := Push(s, ProgramChange().(port := cfg.notePorts[0]));
      assert Do(cfg, s, steps[0]) == s';
      DoGood(cfg, s, steps[0]);
      PassThrough(cfg, s', n - 1);
    }
  }

  lemma RefillOnce(s: Synth)
    requires s.open && s.pending != [] && Accepts(s.job, s.pending[0])
    ensures Refill(s) == Refill(s.(job := s.job + [s.pending[0]], pending := s.pending[1..]))
  {
  }

  /** Pending events that fit enter the job in order. */
  lemma {:induction false} RefillPrefix(s: Synth, k: nat)
    requires s.open && k <= |s.pending| && |s.job| + k <= EVENTS
    requires forall i :: 0 <= i < |s.job| ==> s.job[i].offset == 0
    requires forall i :: 0 <= i < k ==> Valid(s.pending[i]) && s.pending[i].offset == 0
    ensures Refill(s) == Refill(s.(job := s.job + s.pending[..k], pending := s.pending[k..]))
    decreases k
  {
    hide Refill, Valid;
    if k == 0 {
      assert s.job + s.pending[..0] == s.job;
    } else {
      var s1 := s.(job := s.job + [s.pending[0]], pending := s.pending[1..]);
      RefillOnce(s);
      RefillPrefix(s1, k - 1);
      assert s1.job + s1.pending[..k - 1] == s.job + s.pending[..k];
      assert s1.pending[k - 1..] == s.pending[k..];
    }
  }

  lemma StartClosed(cfg: Config, s: Synth, id: int, key: int, slot: nat)
    requires FirstPortTakesBoth(cfg) && !s.open && |s.pending| < EVENTS && 0 <= id && 0 <= key <= 127
    requires forall i :: 0 <= i < |s.pending| ==> s.pending[i].offset == 0
    requires slot < HELD_NOTES && s.notes[slot].None? && s.nextNote == slot
    requires forall i :: 0 <= i < slot ==> s.notes[i].Some? && s.notes[i].value.id < id
    requires forall i :: slot <= i < HELD_NOTES ==> s.notes[i].None?
    ensures var np := cfg.notePorts[0];
            PluginEvent(cfg, s, 0, NoteOnOf(id, key)) ==
            Push(s.(notes := s.notes[slot := Some(HeldNote(0, id, slot + 1, np, 0, key, false))], nextNote := slot + 1),
                 NoteOnOf(id, key).(port := np, noteId := slot + 1))
  {
    assert FirstFree(s.notes, 0) == slot;
  }

  /** A note-off by identity reaches the slot that holds the note. */
  lemma {:induction false} OffReaches(cfg: Config, s: Synth, id: int, slot: nat, i: nat)
    requires FirstPortTakesBoth(cfg) && id >= 0
    requires i <= slot < HELD_NOTES && s.notes[slot].Some?
    requires s.notes[slot].value == HeldNote(0, id, s.notes[slot].value.native, cfg.notePorts[0], 0, s.notes[slot].value.key, false)
    requires forall j :: 0 <= j < slot && s.notes[j].Some? ==> s.notes[j].value.id != id
    requires forall p :: 0 <= p < PEDALS ==> s.pedals[p].None?
    ensures var off := NoteOffOf(id).(port := cfg.notePorts[0]);
            var own := ToOwned(off, s.notes[slot].value);
            NoteLoop(cfg, s, 0, off, i) == Emit(s.(notes := s.notes[slot := None]), own)
    decreases slot - i
  {
    hide Emit;
    if i < slot {
      OffReaches(cfg, s, id, slot, i + 1);
    }
  }

  ghost function DoTwo(cfg: Config, s: Synth, a: Step, b: Step): Synth
    requires Good(cfg, s) && StepValid(cfg, a) && StepValid(cfg, b)
  {
    DoGood(cfg, s, a);
    Do(cfg, Do(cfg, s, a), b)
  }

  lemma RunTwo(cfg: Config, s: Synth, a: Step, b: Step)
    requires Good(cfg, s) && StepValid(cfg, a) && StepValid(cfg, b)
    ensures forall i :: 0 <= i < 2 ==> StepValid(cfg, [a, b][i])
    ensures Run(cfg, s, [a, b]) == DoTwo(cfg, s, a, b)
  {
    hide Good, StepValid, Do;
    DoGood(cfg, s, a);
    var s1 := Do(cfg, s, a);
    DoGood(cfg, s1, b);
    assert [a, b][1..] == [b] && [b][1..] == [];
    assert Run(cfg, s1, [b]) == Run(cfg, Do(cfg, s1, b), []);
  }

  /** Two notes start while no job is open. */
  lemma TwoStarted(cfg: Config, s: Synth)
    requires FirstPortTakesBoth(cfg) && Good(cfg, s)
    requires !s.open && s.pending == [] && s.nextNote == 0 && s.notes == seq(HELD_NOTES, _ => None)
    ensures var np := cfg.notePorts[0];
            var s' := DoTwo(cfg, s, Client(0, NoteOnOf(1, 60)), Client(0, NoteOnOf(2, 61)));
            && s'.notes == s.notes[0 := Some(HeldNote(0, 1, 1, np, 0, 60, false))][1 := Some(HeldNote(0, 2, 2, np, 0, 61, false))]
            && s'.pending == [NoteOnOf(1, 60).(port := np, noteId := 1), NoteOnOf(2, 61).(port := np, noteId := 2)]
            && s' == s.(notes := s'.notes, nextNote := 2, pending := s'.pending,
                        history := s.history.(trace := s'.history.trace))
  {
    hide Good, PluginEvent;
    var s1 := PluginEvent(cfg, s, 0, NoteOnOf(1, 60));
    StartClosed(cfg, s, 1, 60, 0);
    StartClosed(cfg, s1, 2, 61, 1);
  }

  /** With the pending list full, the first note's release is deferred. */
  lemma TwoReleased(cfg: Config, s: Synth)
    requires FirstPortTakesBoth(cfg) && Good(cfg, s)
    requires !s.open && |s.pending| == EVENTS - 1 && s.deferred == [] && Healthy(s)
    requires forall i :: 0 <= i < |s.pending| ==> s.pending[i].offset == 0
    requires s.orphans == seq(ORPHANS, _ => None) && s.pedals == seq(PEDALS, _ => None)
    requires s.notes[0] == Some(HeldNote(0, 1, 1, cfg.notePorts[0], 0, 60, false))
    requires s.notes[1] == Some(HeldNote(0, 2, 2, cfg.notePorts[0], 0, 61, false))
    ensures var np := cfg.notePorts[0];
            var s' := DoTwo(cfg, s, Client(0, NoteOffOf(2)), Client(0, NoteOffOf(1)));
            var b := Event(0, NoteOff, Number(0), 2, np, 0, 61, 0.0);
            var a := Event(0, NoteOff, Number(0), 1, np, 0, 60, 0.0);
            && s'.pending == s.pending + [b]
            && s'.deferred == [a]
            && s' == s.(notes := s'.notes, pending := s'.pending, deferred := s'.deferred, history := s'.history)
            && s'.history.delivered == s.history.delivered
  {
    hide Good, NoteLoop;
    OffReaches(cfg, s, 2, 1, 0);
    var s1 := PluginEvent(cfg, s, 0, NoteOffOf(2));
    OffReaches(cfg, s1, 1, 0, 0);
  }

  const WHOLE_BLOCK := Slice(0, FRAMES, true, true, 0, [], [])

  /** The next block sends the deferred release before the pending note-on. */
  lemma BlockSends(cfg: Config, s: Synth, off: Event, first: seq<Event>, last: Event)
    requires FirstPortTakesBoth(cfg) && Good(cfg, s) && Healthy(s) && !s.open && s.tempo == 120.0
    requires s.deferred == [off] && s.pending == first + [last] && |first| == EVENTS - 1
    requires IsRelease(last) && s.history.delivered == []
    requires Valid(off) && off.offset == 0 && Valid(last) && last.offset == 0
    requires forall i :: 0 <= i < |first| ==> Valid(first[i]) && first[i].offset == 0
    ensures var s' := DoTwo(cfg, s, RunSlice(WHOLE_BLOCK, false, None), Close(true, false));
            Healthy(s') && s'.history.delivered == [off] + first
  {
    hide Valid, IsRelease, Refill;
    var s0 := s.(open := true, job := [], spans := []);
    var s1 := s0.(job := [off], deferred := []);
    DrainOne(s0, off);
    assert s1.pending[..EVENTS - 1] == first && s1.pending[EVENTS - 1..] == [last];
    RefillPrefix(s1, EVENTS - 1);
    var s2 := s1.(job := [off] + first, pending := [last]);
    LastDeferred(s2, last);
    var s3 := s2.(pending := [], deferred := [AtZero(last)], input := Zeros(|s2.input|));
    assert OpenJob(cfg, s, WHOLE_BLOCK) == s3;
    var span := SpanOf(s3, WHOLE_BLOCK);
    var s4 := s3.(spans := [span]);
    assert Prepare(cfg, s, WHOLE_BLOCK, false) == s4;
    assert [span][1..] == [];
    assert Tiles([span], 0, FRAMES);
    assert Finish(s4, true, false).history.delivered == [off] + first;
  }

  lemma DrainOne(s: Synth, off: Event)
    requires s.job == [] && s.deferred == [off] && Valid(off)
    ensures Drain(s) == s.(job := [off], deferred := [])
  {
  }

  lemma LastDeferred(s: Synth, last: Event)
    requires s.open && |s.job| == EVENTS && s.pending == [last] && s.deferred == [] && IsRelease(last)
    ensures Refill(s) == s.(pending := [], deferred := [AtZero(last)])
  {
    assert s.pending[1..] == [];
  }

  /** Two note-ons, messages up to one short of a full pending list, the second
      note's off and then the first's, all while no job is open; then one block. */
  function OvertakingSteps(): seq<Step> {
    [Client(0, NoteOnOf(1, 60)), Client(0, NoteOnOf(2, 61))]
    + seq(EVENTS - 3, _ => Client(0, ProgramChange()))
    + [Client(0, NoteOffOf(2)), Client(0, NoteOffOf(1))]
    + [RunSlice(WHOLE_BLOCK, false, None), Close(true, false)]
  }

  /** A run that never fails hands the plugin a note-off before its note-on. */
  lemma OvertakenRelease(cfg: Config, defaults: seq<Float>) returns (s: Synth)
    requires FirstPortTakesBoth(cfg) && |defaults| == cfg.Controls()
    ensures ReachedBy(cfg, s, defaults, OvertakingSteps())
    ensures Reachable(cfg, s) && Healthy(s) && s.history.spilled
    ensures |s.history.delivered| > 1
    ensures IsRelease(s.history.delivered[0]) && IsAttack(s.history.delivered[1])
    ensures s.history.delivered[0].noteId == s.history.delivered[1].noteId
  {
    hide Good, StepValid, Do, PluginEvent, Run, DoTwo, Push, PushMany, Reachable, HighNibble;
    var np := cfg.notePorts[0];
    var s0 := Fresh(cfg, defaults);
    FreshGood(cfg, defaults);
    var a1, a2 := Client(0, NoteOnOf(1, 60)), Client(0, NoteOnOf(2, 61));
    var b := seq(EVENTS - 3, _ => Client(0, ProgramChange()));
    var c1, c2 := Client(0, NoteOffOf(2)), Client(0, NoteOffOf(1));
    var d1, d2 := RunSlice(WHOLE_BLOCK, false, None), Close(true, false);
    StepsValid(cfg);
    RunTwo(cfg, s0, a1, a2);
    TwoStarted(cfg, s0);
    var s1 := Run(cfg, s0, [a1, a2]);
    PassThrough(cfg, s1, EVENTS - 3);
    var raw := ProgramChange().(port := np);
    PushManyAdds(s1, raw, EVENTS - 3);
    var s2 := Run(cfg, s1, b);
    RunTwo(cfg, s2, c1, c2);
    TwoReleased(cfg, s2);
    var s3 := Run(cfg, s2, [c1, c2]);
    RunTwo(cfg, s3, d1, d2);
    var off := Event(0, NoteOff, Number(0), 1, np, 0, 60, 0.0);
    BlockSends(cfg, s3, off, s2.pending, s3.pending[EVENTS - 1]);
    s := Run(cfg, s3, [d1, d2]);
    RunAppend(cfg, s0, [a1, a2], b);
    RunAppend(cfg, s0, [a1, a2] + b, [c1, c2]);
    RunAppend(cfg, s0, [a1, a2] + b + [c1, c2], [d1, d2]);
    assert OvertakingSteps() == [a1, a2] + b + [c1, c2] + [d1, d2];
    assert ReachedBy(cfg, s, defaults, OvertakingSteps());
    ReachedIs(cfg, s, defaults, OvertakingSteps());
    if !s.history.spilled {
      var j := UnspilledReleases(cfg, s, 0);
    }
  }

  lemma ReachedIs(cfg: Config, s: Synth, defaults: seq<Float>, steps: seq<Step>)
    requires ReachedBy(cfg, s, defaults, steps)
    ensures Reachable(cfg, s)
  {
    hide ReachedBy;
  }

  lemma StepsValid(cfg: Config)
    requires cfg.Valid()
    requires |cfg.notePorts| > 0 && cfg.dialects[cfg.notePorts[0]].native
    ensures StepValid(cfg, Client(0, NoteOnOf(1, 60))) && StepValid(cfg, Client(0, NoteOnOf(2, 61)))
    ensures StepValid(cfg, Client(0, NoteOffOf(1))) && StepValid(cfg, Client(0, NoteOffOf(2)))
    ensures StepValid(cfg, RunSlice(WHOLE_BLOCK, false, None)) && StepValid(cfg, Close(true, false))
  {
  }
}
