/** The ring of cut notes: which note-offs it takes, what a release adds to it and
    what it forgets. PluginDebts.dfy follows it over whole runs. */
module PluginOrphans {
  import opened Wrappers
  import opened PluginWire
  import opened PluginModel
  import opened PluginInvariants
  import opened PluginSteps
  import opened PluginRuns
  import opened PluginPedals

  /** How many late note-offs of `a` the slots from `i` on remember. */
  function Owing(orphans: OrphanTable, a: Orphan, i: nat): nat
    decreases ORPHANS - i
  {
    if i >= ORPHANS then 0 else (if orphans[i] == Some(a) then 1 else 0) + Owing(orphans, a, i + 1)
  }

  function One(o: Option<Orphan>, a: Orphan): int { if o == Some(a) then 1 else 0 }

  lemma {:induction false} OwingUpdate(orphans: OrphanTable, a: Orphan, j: nat, o: Option<Orphan>, i: nat)
    requires j < ORPHANS
    ensures Owing(orphans[j := o], a, i) ==
            Owing(orphans, a, i) + if i <= j then One(o, a) - One(orphans[j], a) else 0
    decreases ORPHANS - i
  {
    if i < ORPHANS {
      OwingUpdate(orphans, a, j, o, i + 1);
    }
  }

  lemma OwingNone(orphans: OrphanTable, source: nat, e: Event, i: nat)
    requires i <= ORPHANS
    ensures FirstOwing(orphans, source, e, i) == ORPHANS <==>
            Owing(orphans, Orphan(source, e.port, e.channel, e.key), i) == 0
    decreases ORPHANS - i
  {
  }

  // ---- what the ring remembers ----

  /** Whether the cut was of `a` and no note-off was taken for it yet. */
  predicate Waits(o: Owed, a: Orphan) { o.note == a && o.open }

  /** A key-named note-off is taken for the late off of a cut note if and only if
      one of the last `ORPHANS` cuts was of its source, port, channel and key and
      had no off taken for it yet -- even if its off came before the cut; then it
      does nothing else. */
  lemma SwallowsExactly(cfg: Config, s: Synth, source: nat, e: Event)
    requires Inv(cfg, s) && cfg.HasPort(e.port) && e.kind.NoteOff? && e.noteId == -1
    ensures var a := Orphan(source, e.port, e.channel, e.key);
            var cuts := s.history.cuts;
            var s' := NoteEvent(cfg, s, source, e);
            if exists c :: 0 <= c < |cuts| && |cuts| - ORPHANS <= c && Waits(cuts[c], a) then
              && s' == s.(orphans := s'.orphans, history := s.history.(cuts := s'.history.cuts))
              && (forall b: Orphan :: Owing(s'.orphans, b, 0) == Owing(s.orphans, b, 0) - if b == a then 1 else 0)
            else s' == NoteLoop(cfg, s, source, e, 0)
  {
    hide NoteLoop;
    var a := Orphan(source, e.port, e.channel, e.key);
    var cuts := s.history.cuts;
    var j := FirstOwing(s.orphans, source, e, 0);
    forall c | 0 <= c < |cuts| && |cuts| - ORPHANS <= c && Waits(cuts[c], a) ensures j < ORPHANS {
      OwedIsRemembered(s, c);
    }
    if j < ORPHANS {
      CutOfPlace(|cuts|, j);
      assert Waits(cuts[CutOf(|cuts|, j)], a);
      forall b: Orphan ensures Owing(s.orphans[j := None], b, 0) == Owing(s.orphans, b, 0) - if b == a then 1 else 0 {
        OwingUpdate(s.orphans, b, j, None, 0);
      }
    }
  }

  /** A cut among the last `ORPHANS` still owed its off is in its slot of the ring. */
  lemma OwedIsRemembered(s: Synth, c: nat)
    requires Ring(s.orphans, s.nextOrphan, s.history.cuts)
    requires c < |s.history.cuts| && |s.history.cuts| - ORPHANS <= c && s.history.cuts[c].open
    ensures s.orphans[c % ORPHANS] == Some(s.history.cuts[c].note)
  {
    CutOfAt(|s.history.cuts|, c);
  }

  /** `n` key-named note-offs for the same key, one after the other. */
  function Offs(cfg: Config, s: Synth, source: nat, e: Event, n: nat): Synth
    requires cfg.HasPort(e.port)
    decreases n
  {
    if n == 0 then s else Offs(cfg, NoteEvent(cfg, s, source, e), source, e, n - 1)
  }

  /** The offs the ring waits for on a key are swallowed one by one and change no note and
      no list; the next off after them is applied to the held notes. */
  lemma LateOffs(cfg: Config, s: Synth, source: nat, e: Event, n: nat)
    requires Inv(cfg, s) && cfg.HasPort(e.port) && e.kind.NoteOff? && e.noteId == -1
    requires n <= Owing(s.orphans, Orphan(source, e.port, e.channel, e.key), 0)
    ensures var s' := Offs(cfg, s, source, e, n);
            && Inv(cfg, s')
            && s' == s.(orphans := s'.orphans, history := s.history.(cuts := s'.history.cuts))
            && (n == Owing(s.orphans, Orphan(source, e.port, e.channel, e.key), 0) ==>
                  NoteEvent(cfg, s', source, e) == NoteLoop(cfg, s', source, e, 0))
    decreases n
  {
    hide NoteLoop, Inv;
    OwingNone(s.orphans, source, e, 0);
    if n > 0 {
      var s1 := NoteEvent(cfg, s, source, e);
      NoteEventInv(cfg, s, source, e);
      SwallowsExactly(cfg, s, source, e);
      OwingUpdate(s.orphans, Orphan(source, e.port, e.channel, e.key), FirstOwing(s.orphans, source, e, 0), None, 0);
      LateOffs(cfg, s1, source, e, n - 1);
    }
  }

  // ---- what a release records ----

  function AddressOf(note: HeldNote): Orphan { Orphan(note.source, note.port, note.channel, note.key) }

  predicate CutsKeyNamed(n: Option<HeldNote>, scope: Scope) {
    n.Some? && Governs(scope, n.value.source) && n.value.id == -1
  }

  /** How many key-named notes a release cuts from slot `i` on. */
  function Cuts(notes: NoteTable, scope: Scope, i: nat): nat
    decreases HELD_NOTES - i
  {
    if i >= HELD_NOTES then 0 else (if CutsKeyNamed(notes[i], scope) then 1 else 0) + Cuts(notes, scope, i + 1)
  }

  /** How many of those are on the key `a`. */
  function CutsOf(notes: NoteTable, scope: Scope, a: Orphan, i: nat): nat
    decreases HELD_NOTES - i
  {
    if i >= HELD_NOTES then 0
    else (if CutsKeyNamed(notes[i], scope) && AddressOf(notes[i].value) == a then 1 else 0) + CutsOf(notes, scope, a, i + 1)
  }

  /** The slot the ring writes `t` writes from now. */
  function Ahead(next: nat, t: nat): (j: nat)
    ensures j < ORPHANS
  {
    (next + t) % ORPHANS
  }

  /** The next `n` slots the ring will write are free. */
  ghost predicate FreeAhead(orphans: OrphanTable, next: nat, n: nat) {
    forall t :: 0 <= t < n ==> orphans[Ahead(next, t)].None?
  }

  lemma AheadNext(next: nat, t: nat)
    requires next < ORPHANS && t < ORPHANS - 1
    ensures Ahead(next, 0) == next
    ensures Ahead((next + 1) % ORPHANS, t) == Ahead(next, t + 1) != next
  {
  }

  lemma FreeAheadStep(orphans: OrphanTable, next: nat, n: nat, o: Option<Orphan>)
    requires next < ORPHANS && 0 < n <= ORPHANS && FreeAhead(orphans, next, n)
    ensures orphans[next].None?
    ensures FreeAhead(orphans[next := o], (next + 1) % ORPHANS, n - 1)
  {
    AheadNext(next, 0);
    hide Ahead;
    var orphans', next' := orphans[next := o], (next + 1) % ORPHANS;
    forall t: nat | t < n - 1 ensures orphans'[Ahead(next', t)].None? {
      AheadNext(next, t);
    }
  }

  lemma {:induction false} CutsSame(notes: NoteTable, notes': NoteTable, scope: Scope, i: nat)
    requires forall k :: i <= k < HELD_NOTES ==> notes[k] == notes'[k]
    ensures Cuts(notes, scope, i) == Cuts(notes', scope, i)
    ensures forall a: Orphan :: CutsOf(notes, scope, a, i) == CutsOf(notes', scope, a, i)
    decreases HELD_NOTES - i
  {
    hide Governs;
    if i < HELD_NOTES {
      CutsSame(notes, notes', scope, i + 1);
      forall a: Orphan ensures CutsOf(notes, scope, a, i) == CutsOf(notes', scope, a, i) {
        assert CutsOf(notes, scope, a, i + 1) == CutsOf(notes', scope, a, i + 1);
      }
    }
  }

  /** A release of no more key-named notes than the ring has free slots ahead adds,
      for each key, one off to wait for and one for each note it cut there; `more`
      slots ahead are still free if they were. */
  lemma {:induction false} ReleaseRemembers(cfg: Config, s: Synth, scope: Scope, offset: nat, a: Orphan, i: nat, more: nat)
    requires PortsKnown(cfg, s.notes) && s.nextOrphan < ORPHANS
    requires Cuts(s.notes, scope, i) + more <= ORPHANS
    requires FreeAhead(s.orphans, s.nextOrphan, Cuts(s.notes, scope, i) + more)
    ensures var s' := ReleaseLoop(cfg, s, scope, offset, i);
            && Owing(s'.orphans, a, 0) == Owing(s.orphans, a, 0) + CutsOf(s.notes, scope, a, i)
            && s'.nextOrphan < ORPHANS && FreeAhead(s'.orphans, s'.nextOrphan, more)
    decreases HELD_NOTES - i
  {
    hide ChokeSlot, Governs, FreeAhead, Owing;
    if i < HELD_NOTES {
      if s.notes[i].Some? && Governs(scope, s.notes[i].value.source) {
        var s' := ChokeSlot(cfg, s, offset, i);
        ChokeRemembers(cfg, s, offset, i, a, Cuts(s.notes, scope, i) + more);
        CutsSame(s.notes, s'.notes, scope, i + 1);
        ReleaseRemembers(cfg, s', scope, offset, a, i + 1, more);
      } else {
        ReleaseRemembers(cfg, s, scope, offset, a, i + 1, more);
      }
    }
  }

  /** What the history records of a release, in slot order. */
  function CutList(notes: NoteTable, scope: Scope, i: nat): seq<Owed>
    decreases HELD_NOTES - i
  {
    if i >= HELD_NOTES then []
    else
      (if CutsKeyNamed(notes[i], scope) then [Owed(AddressOf(notes[i].value), true, notes[i].value.released)] else [])
      + CutList(notes, scope, i + 1)
  }

  lemma {:induction false} CutListSame(notes: NoteTable, notes': NoteTable, scope: Scope, i: nat)
    requires forall k :: i <= k < HELD_NOTES ==> notes[k] == notes'[k]
    ensures CutList(notes, scope, i) == CutList(notes', scope, i)
    decreases HELD_NOTES - i
  {
    hide Governs;
    if i < HELD_NOTES { CutListSame(notes, notes', scope, i + 1); }
  }

  lemma {:induction false} CutListLength(notes: NoteTable, scope: Scope, i: nat)
    ensures |CutList(notes, scope, i)| == Cuts(notes, scope, i)
    decreases HELD_NOTES - i
  {
    hide Governs;
    if i < HELD_NOTES { CutListLength(notes, scope, i + 1); }
  }

  lemma ChokeRecords(cfg: Config, s: Synth, offset: nat, i: nat)
    requires PortsKnown(cfg, s.notes) && s.nextOrphan < ORPHANS && i < HELD_NOTES && s.notes[i].Some?
    ensures var s', note := ChokeSlot(cfg, s, offset, i), s.notes[i].value;
            && s'.notes == s.notes[i := None] && s'.nextOrphan < ORPHANS
            && s'.history.cuts ==
               s.history.cuts + if note.id == -1 then [Owed(AddressOf(note), true, note.released)] else []
  {
    hide Emit, InDialect;
    var note := s.notes[i].value;
    var s1 := if note.id == -1 then RecordCut(s, AddressOf(note), note.released) else s;
    EmitEffect(s1.(notes := s1.notes[i := None]), InDialect(cfg, ChokeOf(note, offset)));
  }

  /** A release records exactly the key-named notes it cuts, each with whether its
      off had come before. */
  lemma {:induction false} ReleaseRecords(cfg: Config, s: Synth, scope: Scope, offset: nat, i: nat)
    requires PortsKnown(cfg, s.notes) && s.nextOrphan < ORPHANS
    ensures ReleaseLoop(cfg, s, scope, offset, i).history.cuts == s.history.cuts + CutList(s.notes, scope, i)
    decreases HELD_NOTES - i
  {
    hide ChokeSlot, Governs;
    if i < HELD_NOTES {
      if s.notes[i].Some? && Governs(scope, s.notes[i].value.source) {
        ChokeRecords(cfg, s, offset, i);
        var s' := ChokeSlot(cfg, s, offset, i);
        ReleaseRecords(cfg, s', scope, offset, i + 1);
        CutListSame(s.notes, s'.notes, scope, i + 1);
      } else {
        ReleaseRecords(cfg, s, scope, offset, i + 1);
      }
    }
  }

  lemma ChokeRemembers(cfg: Config, s: Synth, offset: nat, i: nat, a: Orphan, n: nat)
    requires PortsKnown(cfg, s.notes) && s.nextOrphan < ORPHANS && i < HELD_NOTES && s.notes[i].Some?
    requires s.notes[i].value.id == -1 ==> 0 < n
    requires n <= ORPHANS && FreeAhead(s.orphans, s.nextOrphan, n)
    ensures var s' := ChokeSlot(cfg, s, offset, i);
            var keyNamed := s.notes[i].value.id == -1;
            && PortsKnown(cfg, s'.notes) && s'.nextOrphan < ORPHANS
            && (forall k :: 0 <= k < HELD_NOTES && k != i ==> s'.notes[k] == s.notes[k])
            && FreeAhead(s'.orphans, s'.nextOrphan, if keyNamed then n - 1 else n)
            && Owing(s'.orphans, a, 0) == Owing(s.orphans, a, 0) + if keyNamed && AddressOf(s.notes[i].value) == a then 1 else 0
  {
    hide Emit, InDialect, FreeAhead, Owing;
    var note := s.notes[i].value;
    var s1 := if note.id == -1 then RecordCut(s, AddressOf(note), note.released) else s;
    EmitEffect(s1.(notes := s1.notes[i := None]), InDialect(cfg, ChokeOf(note, offset)));
    if note.id == -1 {
      FreeAheadStep(s.orphans, s.nextOrphan, n, Some(AddressOf(note)));
      OwingUpdate(s.orphans, a, s.nextOrphan, Some(AddressOf(note)), 0);
    }
  }

  /** The ring has free slots ahead for every key-named note a stop cuts. */
  ghost predicate Fits(s: Synth, scope: Scope) {
    Cuts(s.notes, scope, 0) <= ORPHANS && FreeAhead(s.orphans, s.nextOrphan, Cuts(s.notes, scope, 0))
  }

  /** However full the ring, a cut makes it wait for one more off of its key at most. */
  lemma ChokeAdds(cfg: Config, s: Synth, offset: nat, i: nat, a: Orphan)
    requires PortsKnown(cfg, s.notes) && s.nextOrphan < ORPHANS && i < HELD_NOTES && s.notes[i].Some?
    ensures var s', note := ChokeSlot(cfg, s, offset, i), s.notes[i].value;
            && PortsKnown(cfg, s'.notes) && s'.nextOrphan < ORPHANS
            && (forall k :: 0 <= k < HELD_NOTES && k != i ==> s'.notes[k] == s.notes[k])
            && (if note.id == -1
                then && s'.orphans == s.orphans[s.nextOrphan := Some(AddressOf(note))]
                     && s'.nextOrphan == (s.nextOrphan + 1) % ORPHANS
                     && Owing(s'.orphans, a, 0) ==
                        Owing(s.orphans, a, 0) + One(Some(AddressOf(note)), a) - One(s.orphans[s.nextOrphan], a)
                else s'.orphans == s.orphans && s'.nextOrphan == s.nextOrphan)
  {
    hide Emit, InDialect, Owing;
    var note := s.notes[i].value;
    var s1 := if note.id == -1 then RecordCut(s, AddressOf(note), note.released) else s;
    EmitEffect(s1.(notes := s1.notes[i := None]), InDialect(cfg, ChokeOf(note, offset)));
    OwingUpdate(s.orphans, a, s.nextOrphan, Some(AddressOf(note)), 0);
  }

  lemma {:induction false} ReleaseAdds(cfg: Config, s: Synth, scope: Scope, offset: nat, a: Orphan, i: nat)
    requires PortsKnown(cfg, s.notes) && s.nextOrphan < ORPHANS
    ensures Owing(ReleaseLoop(cfg, s, scope, offset, i).orphans, a, 0) <= Owing(s.orphans, a, 0) + CutsOf(s.notes, scope, a, i)
    decreases HELD_NOTES - i
  {
    hide ChokeSlot, Governs, Owing;
    if i < HELD_NOTES {
      if s.notes[i].Some? && Governs(scope, s.notes[i].value.source) {
        var s' := ChokeSlot(cfg, s, offset, i);
        ChokeAdds(cfg, s, offset, i, a);
        CutsSame(s.notes, s'.notes, scope, i + 1);
        ReleaseAdds(cfg, s', scope, offset, a, i + 1);
      } else {
        ReleaseAdds(cfg, s, scope, offset, a, i + 1);
      }
    }
  }

  /** A free slot taken by one cut leaves room for no more than there was for one
      cut more. */
  lemma FreeAheadBack(orphans: OrphanTable, next: nat, n: nat, o: Orphan)
    requires next < ORPHANS && orphans[next].None? && n <= ORPHANS
    requires FreeAhead(orphans[next := Some(o)], (next + 1) % ORPHANS, n)
    ensures n < ORPHANS && FreeAhead(orphans, next, n + 1)
  {
    var orphans', next' := orphans[next := Some(o)], (next + 1) % ORPHANS;
    assert Ahead(next', ORPHANS - 1) == next;
    AheadNext(next, 0);
    forall t: nat | t < n + 1 ensures orphans[Ahead(next, t)].None? {
      if t > 0 { AheadNext(next, t - 1); }
    }
  }

  /** A release with more cuts than free slots ahead makes the ring forget: on some
      key it then waits for fewer offs than it waited for and cuts were made. */
  lemma {:induction false} ReleaseForgets(cfg: Config, s: Synth, scope: Scope, offset: nat, i: nat) returns (a: Orphan)
    requires PortsKnown(cfg, s.notes) && s.nextOrphan < ORPHANS
    requires Cuts(s.notes, scope, i) > ORPHANS || !FreeAhead(s.orphans, s.nextOrphan, Cuts(s.notes, scope, i))
    ensures Owing(ReleaseLoop(cfg, s, scope, offset, i).orphans, a, 0) < Owing(s.orphans, a, 0) + CutsOf(s.notes, scope, a, i)
    decreases HELD_NOTES - i
  {
    hide ChokeSlot, Governs, Owing, FreeAhead;
    NoneAhead(s.orphans, s.nextOrphan);
    if i >= HELD_NOTES {
      assert false;
    } else if s.notes[i].Some? && Governs(scope, s.notes[i].value.source) {
      var s', note := ChokeSlot(cfg, s, offset, i), s.notes[i].value;
      ChokeAdds(cfg, s, offset, i, AddressOf(note));
      CutsSame(s.notes, s'.notes, scope, i + 1);
      if note.id == -1 && s.orphans[s.nextOrphan].Some? {
        a := s.orphans[s.nextOrphan].value;
        ChokeAdds(cfg, s, offset, i, a);
        ReleaseAdds(cfg, s', scope, offset, a, i + 1);
      } else {
        if note.id == -1 && Cuts(s'.notes, scope, i + 1) <= ORPHANS
           && FreeAhead(s'.orphans, s'.nextOrphan, Cuts(s'.notes, scope, i + 1)) {
          FreeAheadBack(s.orphans, s.nextOrphan, Cuts(s'.notes, scope, i + 1), AddressOf(note));
        }
        a := ReleaseForgets(cfg, s', scope, offset, i + 1);
        ChokeAdds(cfg, s, offset, i, a);
      }
    } else {
      a := ReleaseForgets(cfg, s, scope, offset, i + 1);
    }
  }

  lemma NoneAhead(orphans: OrphanTable, next: nat)
    ensures FreeAhead(orphans, next, 0)
  {
  }

  lemma NoneOwing(orphans: OrphanTable, a: Orphan, i: nat)
    requires forall j :: 0 <= j < ORPHANS ==> orphans[j].None?
    ensures Owing(orphans, a, i) == 0
    decreases ORPHANS - i
  {
  }

  // ---- what the ring forgets ----

  /** One more cut makes the ring forget the oldest it remembers, whether or not
      its off has come: here `a` is forgotten though only two offs are owed. */
  lemma ForgetsTheOldest(cfg: Config, s: Synth, a: Orphan, b: Orphan, released: bool)
    requires Inv(cfg, s) && a != b && |s.history.cuts| >= ORPHANS
    requires var oldest := |s.history.cuts| - ORPHANS;
             forall c :: 0 <= c < |s.history.cuts| ==>
               if c == oldest then Waits(s.history.cuts[c], a) else !s.history.cuts[c].open
    ensures s.nextOrphan < ORPHANS && Owing(s.orphans, a, 0) == 1
    ensures var s' := RecordCut(s, b, released);
            && Owing(s'.orphans, a, 0) == 0
            && (forall c :: 0 <= c < |s'.history.cuts| && s'.history.cuts[c].open ==>
                 s'.history.cuts[c].note == (if c == |s.history.cuts| then b else a))
            && Waits(s'.history.cuts[|s.history.cuts| - ORPHANS], a)
  {
    hide Wire, Table, Ledger, Owing;
    var cuts := s.history.cuts;
    var oldest := |cuts| - ORPHANS;
    CutOfAt(|cuts|, oldest);
    assert oldest % ORPHANS == |cuts| % ORPHANS == s.nextOrphan;
    OwingUpdate(s.orphans, a, s.nextOrphan, Some(b), 0);
    OwingUpdate(s.orphans, a, s.nextOrphan, None, 0);
    var others := s.orphans[s.nextOrphan := None];
    forall j | 0 <= j < ORPHANS ensures others[j].None? {
      if j != s.nextOrphan { CutOfPlace(|cuts|, j); }
    }
    NoneOwing(others, a, 0);
  }
}
