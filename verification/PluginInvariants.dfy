/** The invariants of a plugin instance: what its note table, its wire lists and
    its memory of cut notes say about each other and about everything sent. */
module PluginInvariants {
  import opened Wrappers
  import opened PluginWire
  import opened PluginModel

  // ---- the voice ledger ----

  /** How many notes were started. */
  function Attacks(t: Trace): nat {
    match t
    case Start => 0
    case Then(past, last) => Attacks(past) + (if last.Sent? && IsAttack(last.event) then 1 else 0)
  }

  /** The notes started and neither released nor ended by the plugin. */
  function Alive(t: Trace): set<int> {
    match t
    case Start => {}
    case Then(past, Sent(e)) =>
      if IsAttack(e) then Alive(past) + {e.noteId}
      else if IsRelease(e) then Alive(past) - {e.noteId}
      else Alive(past)
    case Then(past, Ended(n)) => Alive(past) - {n}
    case Then(past, Reported(_, _, _)) => Alive(past)
  }

  /** Every attack takes the next identity; only what is alive is released or ended. */
  ghost predicate Lawful(t: Trace) {
    match t
    case Start => true
    case Then(past, Sent(e)) =>
      && Lawful(past)
      && (IsAttack(e) ==> e.noteId == Attacks(past) + 1)
      && (IsRelease(e) ==> e.noteId in Alive(past))
    case Then(past, Ended(n)) => Lawful(past) && n in Alive(past)
    case Then(past, Reported(_, _, _)) => Lawful(past)
  }

  function Natives(notes: seq<Option<HeldNote>>): set<int> {
    set i | 0 <= i < |notes| && notes[i].Some? :: notes[i].value.native
  }

  ghost predicate Distinct(notes: seq<Option<HeldNote>>) {
    forall i, j :: 0 <= i < j < |notes| && notes[i].Some? && notes[j].Some? ==>
      notes[i].value.native != notes[j].value.native
  }

  /** The table holds exactly what is alive and not lost, once each, and
      identities are handed out in order. */
  ghost predicate Ledger(t: Trace, nextNote: int, notes: seq<Option<HeldNote>>, lost: set<int>) {
    && Lawful(t)
    && Attacks(t) == nextNote
    && Natives(notes) == Alive(t) - lost
    && lost <= Alive(t)
    && Distinct(notes)
  }

  // ---- first in, first out ----

  function Log(t: Trace): seq<Event> {
    match t
    case Start => []
    case Then(past, Sent(e)) => Log(past) + [e]
    case Then(past, _) => Log(past)
  }

  /** What passed about parameters: values sent and values reported, in order. */
  function Told(t: Trace): seq<Action> {
    match t
    case Start => []
    case Then(past, last) =>
      if last.Reported? || (last.Sent? && last.event.kind.Parameter?) then Told(past) + [last] else Told(past)
  }

  function AtZero(e: Event): Event { e.(offset := 0) }

  function Strip(es: seq<Event>): seq<Event> {
    seq(|es|, i requires 0 <= i < |es| => AtZero(es[i]))
  }

  /** Everything accepted, in the order the plugin is to get it. */
  function Queue(s: Synth): seq<Event> {
    s.history.delivered + (if s.open then s.job else []) + s.deferred + s.pending
  }

  ghost predicate InOrder(s: Synth) {
    Strip(Queue(s)) == Strip(Log(s.history.trace))
  }

  /** A deferred event waits only behind a full job. */
  ghost predicate WaitsBehindFull(s: Synth) {
    s.open && s.deferred != [] ==> |s.job| == EVENTS
  }

  ghost predicate Sound(s: Synth) { InOrder(s) && WaitsBehindFull(s) }

  /** The lists are ones pushes can build, and deferred events could be pushed. */
  ghost predicate ListsValid(s: Synth) {
    && IsList(s.job)
    && IsList(s.pending)
    && |s.deferred| <= HELD_NOTES
    && (forall i :: 0 <= i < |s.deferred| ==> Valid(s.deferred[i]) && s.deferred[i].offset == 0)
  }

  // ---- the note table ----

  ghost predicate NoteValid(cfg: Config, n: HeldNote) {
    && cfg.HasPort(n.port)
    && -1 <= n.channel <= 15
    && -1 <= n.key <= 127
    && n.native >= 1
    && (!cfg.Native(n.port) ==> n.channel >= 0)
  }

  ghost predicate NotesValid(cfg: Config, notes: seq<Option<HeldNote>>) {
    forall i :: 0 <= i < |notes| && notes[i].Some? ==> NoteValid(cfg, notes[i].value)
  }

  predicate SameKey(a: HeldNote, b: HeldNote) {
    a.port == b.port && a.channel == b.channel && a.key == b.key
  }

  /** On a port that takes only MIDI, no two held notes share a channel and key. */
  ghost predicate UniqueKeys(cfg: Config, notes: seq<Option<HeldNote>>)
    requires NotesValid(cfg, notes)
  {
    forall i, j :: 0 <= i < j < |notes| && notes[i].Some? && notes[j].Some? && SameKey(notes[i].value, notes[j].value) ==>
      cfg.Native(notes[i].value.port)
  }

  // ---- the ring of cut notes ----

  function Remembered(cuts: seq<Owed>, j: nat): Option<Orphan>
    requires j < ORPHANS
  {
    if j < |cuts| && cuts[CutOf(|cuts|, j)].open then Some(cuts[CutOf(|cuts|, j)].note) else None
  }

  /** The ring holds exactly the cuts among the last `ORPHANS` whose note-off is
      still owed, each at its number modulo the ring's length. */
  ghost predicate Ring(orphans: OrphanTable, nextOrphan: nat, cuts: seq<Owed>) {
    && nextOrphan == |cuts| % ORPHANS
    && (forall j :: 0 <= j < ORPHANS ==> orphans[j] == Remembered(cuts, j))
  }

  // ---- all of it ----

  /** What the wire lists say, whatever the notes are. */
  ghost predicate Wire(s: Synth) {
    && ListsValid(s)
    && (s.open ==> s.pending == [])
    && (Healthy(s) && !s.history.spilled ==> Sound(s))
  }

  /** What the note table says, whatever was sent. */
  ghost predicate Table(cfg: Config, notes: seq<Option<HeldNote>>) {
    NotesValid(cfg, notes) && UniqueKeys(cfg, notes)
  }

  ghost predicate Inv(cfg: Config, s: Synth) {
    && Wire(s)
    && Table(cfg, s.notes)
    && s.nextNote >= 0
    && (Healthy(s) ==> Ledger(s.history.trace, s.nextNote, s.notes, s.history.lost))
    && Ring(s.orphans, s.nextOrphan, s.history.cuts)
  }

  // ---- primitive steps ----

  lemma StripAppend(a: seq<Event>, b: seq<Event>)
    ensures Strip(a + b) == Strip(a) + Strip(b)
  {
  }

  lemma ListPush(list: seq<Event>, e: Event)
    requires IsList(list) && Accepts(list, e)
    ensures IsList(list + [e])
  {
    assert forall i :: 0 <= i < |list| ==> list[i].offset <= list[|list| - 1].offset;
  }

  predicate ValidAtZero(e: Event) { Valid(e.(offset := 0)) }

  lemma PlaceLists(s: Synth, e: Event)
    requires ListsValid(s) && ValidAtZero(e)
    ensures ListsValid(Place(s, e).0)
  {
    if Accepts(s.job, e) { ListPush(s.job, e); }
    if Accepts(s.pending, e) { ListPush(s.pending, e); }
  }

  lemma QueueGrows(s: Synth, s': Synth, e: Event, e': Event)
    requires InOrder(s) && Queue(s') == Queue(s) + [e'] && AtZero(e') == AtZero(e)
    requires Log(s'.history.trace) == Log(s.history.trace) + [e]
    ensures InOrder(s')
  {
    hide Queue, Log;
    StripAppend(Queue(s), [e']);
    StripAppend(Log(s.history.trace), [e]);
    assert Strip([e']) == Strip([e]);
  }

  /** An accepted event that does not spill takes the last place in the queue. */
  lemma EmitQueue(s: Synth, e: Event)
    requires (s.open ==> s.pending == [] && |s.job| <= EVENTS) && Sound(s) && Healthy(Emit(s, e)) && !Emit(s, e).history.spilled
    ensures Sound(Emit(s, e))
  {
    hide IsRelease, Valid, InOrder, Strip;
    var s' := Emit(s, e);
    if if s.open then Accepts(s.job, e) else Accepts(s.pending, e) {
      assert Queue(s') == Queue(s) + [e];
      QueueGrows(s, s', e, e);
    } else {
      assert Queue(s') == Queue(s) + [AtZero(e)];
      QueueGrows(s, s', e, AtZero(e));
    }
  }

  lemma EmitWire(s: Synth, e: Event)
    requires Wire(s) && ValidAtZero(e)
    ensures Wire(Emit(s, e))
  {
    assert |s.job| <= EVENTS;
    hide Sound, ListsValid, IsRelease, Valid;
    PlaceLists(s, e);
    var s' := Emit(s, e);
    ListsSame(Place(s, e).0, s');
    if Healthy(s') && !s'.history.spilled {
      EmitQueue(s, e);
    }
  }

  lemma ListsSame(s: Synth, s': Synth)
    requires ListsValid(s) && s'.job == s.job && s'.pending == s.pending && s'.deferred == s.deferred
    ensures ListsValid(s')
  {
  }

  /** What emitting does to everything but the lists. */
  lemma EmitEffect(s: Synth, e: Event)
    ensures var s' := Emit(s, e);
            && s'.notes == s.notes
            && s'.pedals == s.pedals
            && s'.orphans == s.orphans
            && s'.nextOrphan == s.nextOrphan
            && s'.nextNote == s.nextNote
            && s'.history.cuts == s.history.cuts
            && s'.history.lost == s.history.lost
            && (Healthy(s') ==> Healthy(s) && s'.history.trace == Then(s.history.trace, Sent(e)))
  {
  }

  /** An event that neither starts nor releases a note. */
  lemma EmitInv(cfg: Config, s: Synth, e: Event)
    requires Inv(cfg, s) && ValidAtZero(e)
    requires !IsAttack(e) && !IsRelease(e)
    ensures Inv(cfg, Emit(s, e))
  {
    EmitWire(s, e);
    EmitEffect(s, e);
  }

  lemma NativesWithout(notes: seq<Option<HeldNote>>, i: nat)
    requires i < |notes| && notes[i].Some? && Distinct(notes)
    ensures Natives(notes[i := None]) == Natives(notes) - {notes[i].value.native}
    ensures Distinct(notes[i := None])
  {
    var notes' := notes[i := None];
    forall n | n in Natives(notes) - {notes[i].value.native} ensures n in Natives(notes') {
      var j :| 0 <= j < |notes| && notes[j].Some? && notes[j].value.native == n;
      assert notes'[j].Some?;
    }
  }

  lemma NativesWith(notes: seq<Option<HeldNote>>, i: nat, n: HeldNote)
    requires i < |notes| && notes[i].None? && Distinct(notes) && n.native !in Natives(notes)
    ensures Natives(notes[i := Some(n)]) == Natives(notes) + {n.native}
    ensures Distinct(notes[i := Some(n)])
  {
    var notes' := notes[i := Some(n)];
    assert notes'[i].Some?;
    forall m | m in Natives(notes) ensures m in Natives(notes') {
      var j :| 0 <= j < |notes| && notes[j].Some? && notes[j].value.native == m;
      assert notes'[j].Some?;
    }
  }

  /** A note-off or choke spelled for its port is a release of the same note. */
  lemma SpelledRelease(cfg: Config, e: Event)
    requires cfg.HasPort(e.port) && (e.kind.NoteOff? || e.kind.NoteChoke?)
    requires !cfg.Native(e.port) ==> 0 <= e.channel <= 15
    ensures IsRelease(InDialect(cfg, e)) && !IsAttack(InDialect(cfg, e))
  {
    if !cfg.Native(e.port) { SpellsStatus(8, e); }
  }

  lemma AllOnes()
    ensures BitOr(0x80, 255) == 255
  {
    assert BitOr(1, 1) == 1 && BitOr(0, 127) == 127;
    assert BitOr(64, 127) == 127 by {
      assert BitOr(8, 15) == 15 by { assert BitOr(2, 3) == 3; }
      assert BitOr(32, 63) == 63 by { assert BitOr(16, 31) == 31; }
    }
  }

  /** A note-off of every channel is no release to a port that takes only MIDI. */
  lemma EveryChannelIsNoRelease(cfg: Config, e: Event)
    requires cfg.HasPort(e.port) && !cfg.Native(e.port) && e.channel == -1
    requires e.kind.NoteOff? || e.kind.NoteChoke?
    ensures !IsRelease(InDialect(cfg, e)) && !IsAttack(InDialect(cfg, e))
  {
    hide BitOr;
    AllOnes();
    assert ByteOf(-1, 0) == 255;
  }

  lemma SpelledKind(cfg: Config, e: Event)
    requires cfg.HasPort(e.port) && !e.kind.Parameter?
    ensures !InDialect(cfg, e).kind.Parameter?
  {
  }

  lemma SpelledAttack(cfg: Config, e: Event)
    requires cfg.HasPort(e.port) && e.kind.NoteOn?
    requires !cfg.Native(e.port) ==> 0 <= e.channel <= 15
    ensures IsAttack(InDialect(cfg, e)) && !IsRelease(InDialect(cfg, e))
  {
    if !cfg.Native(e.port) { SpellsStatus(9, e); }
  }

  lemma CutLedger(t: Trace, nextNote: int, notes: seq<Option<HeldNote>>, lost: set<int>, i: nat, d: Event)
    requires Ledger(t, nextNote, notes, lost) && i < |notes| && notes[i].Some?
    requires IsRelease(d) && !IsAttack(d) && d.noteId == notes[i].value.native
    ensures Ledger(Then(t, Sent(d)), nextNote, notes[i := None], lost)
  {
    NativesWithout(notes, i);
    assert notes[i].value.native in Natives(notes);
  }

  /** A held note leaves the table with its release `d`. */
  lemma CutWith(cfg: Config, s: Synth, i: nat, d: Event)
    requires Inv(cfg, s) && i < HELD_NOTES && s.notes[i].Some?
    requires IsRelease(d) && !IsAttack(d)
    requires d.noteId == s.notes[i].value.native && ValidAtZero(d)
    ensures Inv(cfg, Emit(s.(notes := s.notes[i := None]), d))
  {
    var s1 := s.(notes := s.notes[i := None]);
    EmitWire(s1, d);
    EmitEffect(s1, d);
    if Healthy(Emit(s1, d)) {
      CutLedger(s.history.trace, s.nextNote, s.notes, s.history.lost, i, d);
    }
  }

  lemma CutInv(cfg: Config, s: Synth, i: nat, e: Event)
    requires Inv(cfg, s) && i < HELD_NOTES && s.notes[i].Some?
    requires cfg.HasPort(e.port) && (e.kind.NoteOff? || e.kind.NoteChoke?)
    requires !cfg.Native(e.port) ==> 0 <= e.channel <= 15
    requires e.noteId == s.notes[i].value.native && ValidAtZero(e)
    ensures Inv(cfg, NativeNote(cfg, s.(notes := s.notes[i := None]), e))
  {
    SpelledRelease(cfg, e);
    CutWith(cfg, s, i, InDialect(cfg, e));
  }

  lemma LostLedger(t: Trace, nextNote: int, notes: seq<Option<HeldNote>>, lost: set<int>, i: nat, d: Event)
    requires Ledger(t, nextNote, notes, lost) && i < |notes| && notes[i].Some? && !IsRelease(d) && !IsAttack(d)
    ensures Ledger(Then(t, Sent(d)), nextNote, notes[i := None], lost + {notes[i].value.native})
  {
    NativesWithout(notes, i);
    assert notes[i].value.native in Natives(notes);
  }

  /** A held note leaves the table with an event that is no release: it is lost. */
  lemma LostInv(cfg: Config, s: Synth, address: Event, i: nat, e: Event)
    requires Inv(cfg, s) && i < HELD_NOTES && s.notes[i].Some? && cfg.HasPort(address.port) && !Spellable(cfg, address)
    requires e.port == address.port && e.channel == address.channel && e.kind.NoteOff? && ValidAtZero(e)
    ensures Inv(cfg, NativeNote(cfg, LiftOut(cfg, s, address, i), e))
  {
    hide InDialect, Spell;
    EveryChannelIsNoRelease(cfg, e);
    SpelledFrame(cfg, e);
    var s1, d := LiftOut(cfg, s, address, i), InDialect(cfg, e);
    EmitWire(s1, d);
    EmitEffect(s1, d);
    if Healthy(Emit(s1, d)) {
      LostLedger(s.history.trace, s.nextNote, s.notes, s.history.lost, i, d);
    }
  }

  lemma FreshNative(t: Trace, n: int)
    requires Lawful(t) && n in Alive(t)
    ensures 1 <= n <= Attacks(t)
  {
  }

  lemma StartLedger(t: Trace, nextNote: int, notes: seq<Option<HeldNote>>, lost: set<int>, slot: nat, note: HeldNote, d: Event)
    requires Ledger(t, nextNote, notes, lost) && slot < |notes| && notes[slot].None?
    requires IsAttack(d) && !IsRelease(d) && d.noteId == note.native == nextNote + 1
    ensures Ledger(Then(t, Sent(d)), note.native, notes[slot := Some(note)], lost)
  {
    if note.native in Alive(t) {
      FreshNative(t, note.native);
    }
    NativesWith(notes, slot, note);
  }

  ghost predicate NewKey(cfg: Config, notes: seq<Option<HeldNote>>, note: HeldNote) {
    && NoteValid(cfg, note)
    && forall i :: 0 <= i < |notes| && notes[i].Some? && SameKey(notes[i].value, note) ==> cfg.Native(note.port)
  }

  /** A note starts in a free slot under the next identity, with its attack `d`. */
  lemma StartWith(cfg: Config, s: Synth, slot: nat, note: HeldNote, d: Event)
    requires Inv(cfg, s) && slot < HELD_NOTES && s.notes[slot].None?
    requires note.native == s.nextNote + 1 && NewKey(cfg, s.notes, note)
    requires IsAttack(d) && !IsRelease(d) && d.noteId == note.native && ValidAtZero(d)
    ensures Inv(cfg, Emit(s.(nextNote := note.native, notes := s.notes[slot := Some(note)]), d))
  {
    var s1 := s.(nextNote := note.native, notes := s.notes[slot := Some(note)]);
    EmitWire(s1, d);
    EmitEffect(s1, d);
    if Healthy(Emit(s1, d)) {
      StartLedger(s.history.trace, s.nextNote, s.notes, s.history.lost, slot, note, d);
    }
  }

  /** Spelling a note for its port changes only its kind and its number. */
  lemma SpelledFrame(cfg: Config, e: Event)
    requires cfg.HasPort(e.port)
    ensures InDialect(cfg, e) == e.(kind := InDialect(cfg, e).kind, id := InDialect(cfg, e).id)
  {
  }

  /** A note-on that clashes with nothing takes a key that is free where keys
      must be. */
  lemma NewNoteKey(cfg: Config, s: Synth, source: nat, e: Event)
    requires Inv(cfg, s) && cfg.HasPort(e.port) && !Clashes(cfg, s.notes, source, e)
    requires 0 <= e.channel <= 15 && 0 <= e.key <= 127
    ensures NewKey(cfg, s.notes, HeldNote(source, e.noteId, s.nextNote + 1, e.port, e.channel, e.key, false))
  {
    hide Wire, Table, Ring, Ledger;
    var note := HeldNote(source, e.noteId, s.nextNote + 1, e.port, e.channel, e.key, false);
    forall i | 0 <= i < HELD_NOTES && s.notes[i].Some? && SameKey(s.notes[i].value, note)
      ensures cfg.Native(note.port)
    {
      assert !Clash(cfg, s.notes[i].value, source, e);
    }
  }

  lemma FailKeeps(cfg: Config, s: Synth, f: Failure)
    requires Inv(cfg, s) && !f.Running?
    ensures Inv(cfg, Fail(s, f))
  {
  }

  /** A note-on spelled for its port starts a note. */
  lemma StartAttack(cfg: Config, s: Synth, slot: nat, note: HeldNote, e: Event)
    requires Inv(cfg, s) && slot < HELD_NOTES && s.notes[slot].None?
    requires note.native == s.nextNote + 1 && NewKey(cfg, s.notes, note)
    requires cfg.HasPort(e.port) && e.kind.NoteOn? && e.noteId == note.native
    requires 0 <= e.channel <= 15 && 0 <= e.key <= 127 && s.nextNote >= 0
    ensures Inv(cfg, NativeNote(cfg, s.(nextNote := note.native, notes := s.notes[slot := Some(note)]), e))
  {
    hide InDialect, Inv, NewKey, IsAttack, IsRelease, Emit;
    SpelledAttack(cfg, e);
    SpelledFrame(cfg, e);
    StartWith(cfg, s, slot, note, InDialect(cfg, e));
  }

  lemma Counted(cfg: Config, s: Synth)
    requires Inv(cfg, s)
    ensures s.nextNote >= 0
  {
  }

  lemma AttackInv(cfg: Config, s: Synth, source: nat, e: Event)
    requires Inv(cfg, s) && cfg.HasPort(e.port) && e.kind.NoteOn?
    requires 0 <= e.channel <= 15 && 0 <= e.key <= 127 && e.offset >= 0
    ensures Inv(cfg, Attack(cfg, s, source, e))
  {
    hide NativeNote, Inv, NewKey, Clashes;
    Counted(cfg, s);
    FailKeeps(cfg, s, Protocol);
    FailKeeps(cfg, s, Capacity);
    var slot := FirstFree(s.notes, 0);
    if !Clashes(cfg, s.notes, source, e) && slot < HELD_NOTES && s.nextNote < MAX_NOTE {
      var next := s.nextNote + 1;
      var note := HeldNote(source, e.noteId, next, e.port, e.channel, e.key, false);
      NewNoteKey(cfg, s, source, e);
      StartAttack(cfg, s, slot, note, e.(noteId := next));
    }
  }
}
