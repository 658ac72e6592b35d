/** What the note events that address held notes do to them, slot by slot, and
    which of several matching notes a note-off ends. */
module PluginNotes {
  import opened Wrappers
  import opened PluginWire
  import opened PluginModel
  import opened PluginInvariants
  import opened PluginSteps
  import opened PluginRuns
  import opened PluginPedals

  /** Whether slot `n` holds a note that the event addresses -- its own source's, on
      its port, and of the channel, key and identity it names where it names one --
      and, for a note-off, that no earlier note-off was for. */
  predicate Takes(n: Option<HeldNote>, source: nat, e: Event) {
    && n.Some?
    && n.value.source == source
    && n.value.port == e.port
    && (e.channel == -1 || n.value.channel == e.channel)
    && (e.key == -1 || n.value.key == e.key)
    && (e.noteId == -1 || n.value.id == e.noteId)
    && !(e.kind.NoteOff? && n.value.released)
  }

  /** The event as the plugin gets it for one note: under the note's identity, on
      its channel and key. */
  function Own(e: Event, n: HeldNote): Event {
    Event(e.offset, e.kind, e.id, n.native, e.port, n.channel, n.key, e.value)
  }

  /** Whether a note-off is one a cut note's writer still owed. */
  predicate OwedElsewhere(s: Synth, source: nat, e: Event) {
    e.kind.NoteOff? && e.noteId == -1 && FirstOwing(s.orphans, source, e, 0) < ORPHANS
  }

  /** The notes left by a choke applied from slot `i` on. */
  function Unheld(notes: NoteTable, source: nat, e: Event, i: nat): NoteTable {
    seq(HELD_NOTES, k requires 0 <= k < HELD_NOTES =>
      if i <= k && Takes(notes[k], source, e) then None else notes[k])
  }

  /** What the event becomes for each note it takes from slot `i` on. */
  function ForEach(cfg: Config, notes: NoteTable, source: nat, e: Event, i: nat): seq<Event>
    requires cfg.HasPort(e.port)
    decreases HELD_NOTES - i
  {
    if i >= HELD_NOTES then []
    else
      (if Takes(notes[i], source, e) then
        [if e.kind.Expression? then Own(e, notes[i].value) else InDialect(cfg, Own(e, notes[i].value))]
      else []) + ForEach(cfg, notes, source, e, i + 1)
  }

  lemma {:induction false} OffLoop(cfg: Config, s: Synth, source: nat, e: Event, i: nat, k: nat)
    requires cfg.HasPort(e.port) && e.kind.NoteOff? && i <= k <= HELD_NOTES
    requires forall j :: i <= j < k ==> !Takes(s.notes[j], source, e)
    requires k < HELD_NOTES ==> Takes(s.notes[k], source, e)
    ensures NoteLoop(cfg, s, source, e, i) ==
            if k == HELD_NOTES then s
            else if HeldDown(s.pedals, s.notes[k].value) then
              s.(notes := s.notes[k := Some(s.notes[k].value.(released := true))])
            else NativeNote(cfg, s.(notes := s.notes[k := None]), Own(e, s.notes[k].value))
    decreases k - i
  {
    hide NativeNote, Sustained, HeldDown;
    if i < k {
      OffLoop(cfg, s, source, e, i + 1, k);
    } else if k < HELD_NOTES {
      SustainedIs(s.pedals, s.notes[k].value);
    }
  }

  /** A note-off acts on the lowest slot that holds a note of its source it
      addresses and that still sounds, and on no other: under a pedal the note is
      only marked, and nothing is sent; else it leaves the table with its release. */
  lemma NoteOffExactly(cfg: Config, s: Synth, source: nat, e: Event, k: nat)
    requires cfg.HasPort(e.port) && e.kind.NoteOff? && !OwedElsewhere(s, source, e)
    requires k < HELD_NOTES && Takes(s.notes[k], source, e)
    requires forall j :: 0 <= j < k ==> !Takes(s.notes[j], source, e)
    ensures var s', note := NoteEvent(cfg, s, source, e), s.notes[k].value;
            if HeldDown(s.pedals, note) then
              s' == s.(notes := s.notes[k := Some(note.(released := true))])
            else
              && s'.notes == s.notes[k := None] && s'.pedals == s.pedals
              && (Healthy(s') ==>
                   Log(s'.history.trace) == Log(s.history.trace) + [InDialect(cfg, Own(e, note))])
  {
    hide NoteLoop, InDialect, HeldDown;
    OffLoop(cfg, s, source, e, 0, k);
    EmitEffect(s.(notes := s.notes[k := None]), InDialect(cfg, Own(e, s.notes[k].value)));
  }

  /** A note-off that nothing held answers, and no cut note owes, does nothing. */
  lemma StrayOff(cfg: Config, s: Synth, source: nat, e: Event)
    requires cfg.HasPort(e.port) && e.kind.NoteOff? && !OwedElsewhere(s, source, e)
    requires forall j :: 0 <= j < HELD_NOTES ==> !Takes(s.notes[j], source, e)
    ensures NoteEvent(cfg, s, source, e) == s
  {
    hide NoteLoop, Takes;
    OffLoop(cfg, s, source, e, 0, HELD_NOTES);
  }

  lemma {:induction false} ForEachSame(cfg: Config, notes: NoteTable, notes': NoteTable, source: nat, e: Event, i: nat)
    requires cfg.HasPort(e.port) && forall k :: i <= k < HELD_NOTES ==> notes[k] == notes'[k]
    ensures ForEach(cfg, notes, source, e, i) == ForEach(cfg, notes', source, e, i)
    decreases HELD_NOTES - i
  {
    hide InDialect, Takes;
    if i < HELD_NOTES { ForEachSame(cfg, notes, notes', source, e, i + 1); }
  }

  /** What a choke or an expression did, from slot `i` on. */
  ghost predicate Applied(cfg: Config, s: Synth, s': Synth, source: nat, e: Event, i: nat)
    requires cfg.HasPort(e.port)
  {
    && s'.notes == (if e.kind.Expression? then s.notes else Unheld(s.notes, source, e, i))
    && s'.pedals == s.pedals
    && (Healthy(s') ==> Healthy(s) && Log(s'.history.trace) == Log(s.history.trace) + ForEach(cfg, s.notes, source, e, i))
  }

  lemma ForEachFirst(cfg: Config, notes: NoteTable, notes': NoteTable, source: nat, e: Event, i: nat)
    requires cfg.HasPort(e.port) && i < HELD_NOTES && Takes(notes[i], source, e)
    requires forall k :: i < k < HELD_NOTES ==> notes[k] == notes'[k]
    ensures ForEach(cfg, notes, source, e, i) ==
            [if e.kind.Expression? then Own(e, notes[i].value) else InDialect(cfg, Own(e, notes[i].value))]
            + ForEach(cfg, notes', source, e, i + 1)
  {
    hide InDialect, Takes;
    ForEachSame(cfg, notes, notes', source, e, i + 1);
  }

  lemma UnheldFirst(notes: NoteTable, source: nat, e: Event, i: nat)
    requires i < HELD_NOTES && Takes(notes[i], source, e)
    ensures Unheld(notes[i := None], source, e, i + 1) == Unheld(notes, source, e, i)
  {
    hide Takes;
  }

  lemma AppliedOne(cfg: Config, s: Synth, s1: Synth, s': Synth, source: nat, e: Event, i: nat, sent: Event)
    requires cfg.HasPort(e.port) && i < HELD_NOTES && Takes(s.notes[i], source, e)
    requires s1.notes == (if e.kind.Expression? then s.notes else s.notes[i := None]) && s1.pedals == s.pedals
    requires sent == if e.kind.Expression? then Own(e, s.notes[i].value) else InDialect(cfg, Own(e, s.notes[i].value))
    requires Healthy(s1) ==> Healthy(s) && Log(s1.history.trace) == Log(s.history.trace) + [sent]
    requires Applied(cfg, s1, s', source, e, i + 1)
    ensures Applied(cfg, s, s', source, e, i)
  {
    hide InDialect, Takes, ForEach, Unheld, Log;
    ForEachFirst(cfg, s.notes, s1.notes, source, e, i);
    UnheldFirst(s.notes, source, e, i);
  }

  lemma AppliedNone(cfg: Config, s: Synth, s': Synth, source: nat, e: Event, i: nat)
    requires cfg.HasPort(e.port) && (i < HELD_NOTES ==> !Takes(s.notes[i], source, e))
    requires if i < HELD_NOTES then Applied(cfg, s, s', source, e, i + 1) else s' == s
    ensures Applied(cfg, s, s', source, e, i)
  {
    hide InDialect, Takes;
    assert i < HELD_NOTES ==> ForEach(cfg, s.notes, source, e, i) == ForEach(cfg, s.notes, source, e, i + 1);
    assert i < HELD_NOTES ==> Unheld(s.notes, source, e, i + 1) == Unheld(s.notes, source, e, i);
    assert i >= HELD_NOTES ==> Unheld(s.notes, source, e, i) == s.notes;
  }

  lemma {:induction false} EachLoop(cfg: Config, s: Synth, source: nat, e: Event, i: nat)
    requires cfg.HasPort(e.port) && (e.kind.NoteChoke? || e.kind.Expression?)
    ensures Applied(cfg, s, NoteLoop(cfg, s, source, e, i), source, e, i)
    decreases HELD_NOTES - i
  {
    hide Emit, InDialect, Applied, Sustained;
    if i < HELD_NOTES && Takes(s.notes[i], source, e) {
      var own := Own(e, s.notes[i].value);
      var sent := if e.kind.Expression? then own else InDialect(cfg, own);
      var s0 := if e.kind.Expression? then s else s.(notes := s.notes[i := None]);
      EmitEffect(s0, sent);
      var s1 := Emit(s0, sent);
      EachLoop(cfg, s1, source, e, i + 1);
      AppliedOne(cfg, s, s1, NoteLoop(cfg, s, source, e, i), source, e, i, sent);
    } else {
      if i < HELD_NOTES { EachLoop(cfg, s, source, e, i + 1); }
      AppliedNone(cfg, s, NoteLoop(cfg, s, source, e, i), source, e, i);
    }
  }

  /** A choke ends every held note of its source it addresses and no other,
      pedals or not, and an expression changes no note; either sends one event
      for each note it addresses, in slot order, and nothing else. */
  lemma EachExactly(cfg: Config, s: Synth, source: nat, e: Event)
    requires cfg.HasPort(e.port) && (e.kind.NoteChoke? || e.kind.Expression?)
    ensures var s' := NoteEvent(cfg, s, source, e);
            && (forall k :: 0 <= k < HELD_NOTES ==>
                 s'.notes[k] == if e.kind.NoteChoke? && Takes(s.notes[k], source, e) then None else s.notes[k])
            && (Healthy(s') ==> Log(s'.history.trace) == Log(s.history.trace) + ForEach(cfg, s.notes, source, e, 0))
  {
    hide NoteLoop, Takes, ForEach;
    EachLoop(cfg, s, source, e, 0);
  }

  /** Every event sent is under the identity of a note taken. */
  lemma {:induction false} ForEachNames(cfg: Config, notes: NoteTable, source: nat, e: Event, i: nat, k: nat)
    requires cfg.HasPort(e.port) && k < |ForEach(cfg, notes, source, e, i)|
    ensures exists j :: i <= j < HELD_NOTES && Takes(notes[j], source, e)
                        && ForEach(cfg, notes, source, e, i)[k].noteId == notes[j].value.native
    decreases HELD_NOTES - i
  {
    hide Takes;
    if i < HELD_NOTES {
      var rest := ForEach(cfg, notes, source, e, i + 1);
      if !Takes(notes[i], source, e) {
        ForEachNames(cfg, notes, source, e, i + 1, k);
      } else if k > 0 {
        ForEachNames(cfg, notes, source, e, i + 1, k - 1);
      }
    }
  }

  /** Whatever note event comes for a source, a note of another source stays as it
      is, and nothing is sent under its identity. */
  lemma OthersUntouched(cfg: Config, s: Synth, source: nat, e: Event, k: nat)
    requires Inv(cfg, s) && Healthy(s) && cfg.HasPort(e.port) && NoteEventValid(e)
    requires k < HELD_NOTES && s.notes[k].Some? && s.notes[k].value.source != source
    ensures var s', before := NoteEvent(cfg, s, source, e), Log(s.history.trace);
            && s'.notes[k] == s.notes[k]
            && (Healthy(s') ==>
                  var after := Log(s'.history.trace);
                  before <= after && forall j :: |before| <= j < |after| ==> after[j].noteId != s.notes[k].value.native)
  {
    hide NoteEvent, Wire, Table, Ring, ForEach, HeldDown, InDialect, Log;
    if e.kind.NoteOn? {
      StartsApart(cfg, s, source, e, k);
    } else if e.kind.NoteOff? {
      OffApart(cfg, s, source, e, k);
    } else {
      EachExactly(cfg, s, source, e);
      var sent := ForEach(cfg, s.notes, source, e, 0);
      forall j | 0 <= j < |sent| ensures sent[j].noteId != s.notes[k].value.native {
        ForEachNames(cfg, s.notes, source, e, 0, j);
      }
    }
  }

  lemma StartsApart(cfg: Config, s: Synth, source: nat, e: Event, k: nat)
    requires Inv(cfg, s) && Healthy(s) && cfg.HasPort(e.port) && e.kind.NoteOn? && k < HELD_NOTES && s.notes[k].Some?
    ensures var s', before := NoteEvent(cfg, s, source, e), Log(s.history.trace);
            && s'.notes[k] == s.notes[k]
            && (Healthy(s') ==>
                  var after := Log(s'.history.trace);
                  before <= after && forall j :: |before| <= j < |after| ==> after[j].noteId != s.notes[k].value.native)
  {
    hide Emit, Clashes, Wire, Table, Ring;
    var slot := FirstFree(s.notes, 0);
    assert s.notes[k].value.native in Natives(s.notes);
    FreshNative(s.history.trace, s.notes[k].value.native);
    if slot < HELD_NOTES {
      var next := s.nextNote + 1;
      var note := HeldNote(source, e.noteId, next, e.port, e.channel, e.key, false);
      EmitEffect(s.(nextNote := next, notes := s.notes[slot := Some(note)]), InDialect(cfg, e.(noteId := next)));
    }
  }

  lemma OffApart(cfg: Config, s: Synth, source: nat, e: Event, k: nat)
    requires Inv(cfg, s) && Healthy(s) && cfg.HasPort(e.port) && e.kind.NoteOff?
    requires k < HELD_NOTES && s.notes[k].Some? && s.notes[k].value.source != source
    ensures var s', before := NoteEvent(cfg, s, source, e), Log(s.history.trace);
            && s'.notes[k] == s.notes[k]
            && (Healthy(s') ==>
                  var after := Log(s'.history.trace);
                  before <= after && forall j :: |before| <= j < |after| ==> after[j].noteId != s.notes[k].value.native)
  {
    hide NoteLoop, Wire, Table, Ring, HeldDown, Log;
    if !OwedElsewhere(s, source, e) {
      if exists j :: 0 <= j < HELD_NOTES && Takes(s.notes[j], source, e) {
        var low := FirstTaken(s.notes, source, e, 0);
        hide Takes, NoteEvent;
        NoteOffExactly(cfg, s, source, e, low);
        assert low != k by { TakesOwn(s.notes[low], source, e); }
      } else {
        StrayOff(cfg, s, source, e);
      }
    }
  }

  lemma TakesOwn(n: Option<HeldNote>, source: nat, e: Event)
    requires Takes(n, source, e)
    ensures n.Some? && n.value.source == source
  {
  }

  // ---- notes the plugin ends ----

  /** Whether a note-end names a note: by its identity, or without one by the port,
      channel and key it names where it names one. */
  predicate NamedEnd(e: Event, n: HeldNote) {
    || n.native == e.noteId
    || (&& e.noteId == -1
        && (e.port == -1 || e.port == n.port)
        && (e.channel == -1 || e.channel == n.channel)
        && (e.key == -1 || e.key == n.key))
  }

  /** What the notes a note-end of the plugin names leave in the table. */
  function Survivors(notes: NoteTable, e: Event, i: nat): NoteTable {
    seq(HELD_NOTES, k requires 0 <= k < HELD_NOTES =>
      if i <= k && notes[k].Some? && NamedEnd(e, notes[k].value) then None else notes[k])
  }

  /** The tokens to report: the identities below -1 among the notes named. */
  function Tokens(notes: NoteTable, e: Event, i: nat): seq<int>
    decreases HELD_NOTES - i
  {
    if i >= HELD_NOTES then []
    else
      (if notes[i].Some? && NamedEnd(e, notes[i].value) && notes[i].value.id < -1 then [notes[i].value.id] else [])
      + Tokens(notes, e, i + 1)
  }

  lemma {:induction false} TokensSame(notes: NoteTable, notes': NoteTable, e: Event, i: nat)
    requires forall k :: i <= k < HELD_NOTES ==> notes[k] == notes'[k]
    ensures Tokens(notes, e, i) == Tokens(notes', e, i)
    decreases HELD_NOTES - i
  {
    hide NamedEnd;
    if i < HELD_NOTES { TokensSame(notes, notes', e, i + 1); }
  }

  /** What a note-end did, from slot `i` on. */
  ghost predicate EndedFrom(s: Synth, s': Synth, e: Event, i: nat) {
    && s'.notes == Survivors(s.notes, e, i)
    && Log(s'.history.trace) == Log(s.history.trace)
    && (Healthy(s') <==> Healthy(s) && |s.ended| + |Tokens(s.notes, e, i)| <= EVENTS)
    && (Healthy(s') ==> s'.ended == s.ended + Tokens(s.notes, e, i))
  }

  lemma EndNoteDoes(s: Synth, i: nat)
    requires i < HELD_NOTES && s.notes[i].Some?
    ensures var s1 := EndNote(s, i);
            var token := if s.notes[i].value.id < -1 then [s.notes[i].value.id] else [];
            && s1.notes == s.notes[i := None]
            && Log(s1.history.trace) == Log(s.history.trace)
            && (|s.ended| <= EVENTS ==> (Healthy(s1) <==> Healthy(s) && |s.ended| + |token| <= EVENTS))
            && (Healthy(s1) ==> s1.ended == s.ended + token)
            && |s.ended| <= |s1.ended| && (|s.ended| <= EVENTS ==> |s1.ended| <= EVENTS)
  {
  }

  lemma TokensFirst(notes: NoteTable, e: Event, i: nat)
    requires i < HELD_NOTES && notes[i].Some? && NamedEnd(e, notes[i].value)
    ensures Tokens(notes, e, i) ==
            (if notes[i].value.id < -1 then [notes[i].value.id] else []) + Tokens(notes[i := None], e, i + 1)
    ensures Survivors(notes[i := None], e, i + 1) == Survivors(notes, e, i)
  {
    hide NamedEnd;
    TokensSame(notes, notes[i := None], e, i + 1);
  }

  lemma EndedOne(s: Synth, s': Synth, e: Event, i: nat)
    requires i < HELD_NOTES && s.notes[i].Some? && NamedEnd(e, s.notes[i].value) && |s.ended| <= EVENTS
    requires EndedFrom(EndNote(s, i), s', e, i + 1)
    ensures EndedFrom(s, s', e, i)
  {
    hide NamedEnd, EndNote, Tokens, Survivors, Log;
    EndNoteDoes(s, i);
    TokensFirst(s.notes, e, i);
  }

  lemma {:induction false} EndedLoop(s: Synth, e: Event, i: nat)
    requires |s.ended| <= EVENTS
    ensures EndedFrom(s, EndLoop(s, e, i), e, i)
    decreases HELD_NOTES - i
  {
    hide EndedFrom;
    if i >= HELD_NOTES {
      EndedNone(s, s, e, i);
    } else if s.notes[i].Some? && NamedEnd(e, s.notes[i].value) {
      EndNoteDoes(s, i);
      EndedLoop(EndNote(s, i), e, i + 1);
      EndedOne(s, EndLoop(s, e, i), e, i);
    } else {
      EndedLoop(s, e, i + 1);
      EndedNone(s, EndLoop(s, e, i), e, i);
    }
  }

  lemma EndedNone(s: Synth, s': Synth, e: Event, i: nat)
    requires i < HELD_NOTES ==> s.notes[i].None? || !NamedEnd(e, s.notes[i].value)
    requires if i < HELD_NOTES then EndedFrom(s, s', e, i + 1) else s' == s && |s.ended| <= EVENTS
    ensures EndedFrom(s, s', e, i)
  {
    hide NamedEnd;
    assert Survivors(s.notes, e, i) == if i < HELD_NOTES then Survivors(s.notes, e, i + 1) else s.notes;
  }

  /** A note-end of the plugin takes out of the table exactly the notes it names,
      sends nothing, and reports the token of each that has one, in slot order;
      it fails if and only if the reports do not fit. */
  lemma EndExactly(s: Synth, e: Event)
    requires |s.ended| <= EVENTS && Healthy(s)
    ensures var s' := EndLoop(s, e, 0);
            && (forall k :: 0 <= k < HELD_NOTES ==>
                 s'.notes[k] == if s.notes[k].Some? && NamedEnd(e, s.notes[k].value) then None else s.notes[k])
            && Log(s'.history.trace) == Log(s.history.trace)
            && (Healthy(s') <==> |s.ended| + |Tokens(s.notes, e, 0)| <= EVENTS)
            && (Healthy(s') ==> s'.ended == s.ended + Tokens(s.notes, e, 0))
  {
    hide EndLoop, NamedEnd;
    EndedLoop(s, e, 0);
  }

  // ---- which of several matching notes ----

  /** Among the notes a note-off addresses, the one that started first. */
  predicate Oldest(notes: NoteTable, source: nat, e: Event, k: nat) {
    && k < HELD_NOTES && Takes(notes[k], source, e)
    && forall j :: 0 <= j < HELD_NOTES && Takes(notes[j], source, e) ==> notes[k].value.native <= notes[j].value.native
  }

  /** A note-off ends or holds over the oldest note it addresses if and only if no
      younger one sits in a lower slot. */
  lemma EndsOldestExactly(cfg: Config, s: Synth, source: nat, e: Event, k: nat)
    requires cfg.HasPort(e.port) && e.kind.NoteOff? && !OwedElsewhere(s, source, e)
    requires Distinct(s.notes) && Oldest(s.notes, source, e, k)
    ensures NoteEvent(cfg, s, source, e).notes[k] != s.notes[k] <==>
            forall j :: 0 <= j < k && Takes(s.notes[j], source, e) ==> s.notes[j].value.native <= s.notes[k].value.native
  {
    hide NoteEvent;
    var low := FirstTaken(s.notes, source, e, 0);
    NoteOffExactly(cfg, s, source, e, low);
    if low < k {
      assert s.notes[low].value.native != s.notes[k].value.native;
    }
  }

  function FirstTaken(notes: NoteTable, source: nat, e: Event, i: nat): (k: nat)
    requires exists j :: i <= j < HELD_NOTES && Takes(notes[j], source, e)
    ensures i <= k < HELD_NOTES && Takes(notes[k], source, e)
    ensures forall j :: i <= j < k ==> !Takes(notes[j], source, e)
    decreases HELD_NOTES - i
  {
    if Takes(notes[i], source, e) then i else FirstTaken(notes, source, e, i + 1)
  }
}
