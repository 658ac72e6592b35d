/** What a stop leaves in the open job and what it leaves waiting, and how much of
    what waits the next job takes. PluginDrain.dfy follows it to the last release. */
module PluginStop {
  import opened Wrappers
  import opened PluginWire
  import opened PluginModel
  import opened PluginInvariants
  import opened PluginSteps
  import opened PluginRuns
  import opened PluginPedals

  function Min(a: nat, b: nat): nat { if a < b then a else b }

  /** The chokes of the notes held from slot `i` on, in slot order. */
  /** A note's choke: under its identity, on its port, channel and key. */
  function Choke(n: HeldNote, offset: nat): Event {
    Event(offset, NoteChoke, Number(0), n.native, n.port, n.channel, n.key, 0.0)
  }

  function Chokes(cfg: Config, notes: NoteTable, offset: nat, i: nat): (es: seq<Event>)
    requires PortsKnown(cfg, notes)
    ensures i <= HELD_NOTES ==> |es| <= HELD_NOTES - i
    decreases HELD_NOTES - i
  {
    if i >= HELD_NOTES then []
    else if notes[i].Some? then [InDialect(cfg, Choke(notes[i].value, offset))] + Chokes(cfg, notes, offset, i + 1)
    else Chokes(cfg, notes, offset, i + 1)
  }

  /** How many events at `offset` an open job still takes. */
  function Room(job: seq<Event>, offset: nat): nat {
    if offset < FRAMES && |job| <= EVENTS && (job == [] || job[|job| - 1].offset <= offset) then EVENTS - |job| else 0
  }

  /** A release always finds a place while the deferred list has one. */
  lemma EmitRelease(s: Synth, d: Event)
    requires s.open && Healthy(s) && IsList(s.job) && IsRelease(d) && ValidAtZero(d) && |s.deferred| < HELD_NOTES
    ensures var s' := Emit(s, d);
            && Healthy(s') && s'.open && IsList(s'.job)
            && (if Room(s.job, d.offset) > 0
                then s'.job == s.job + [d] && s'.deferred == s.deferred && Room(s'.job, d.offset) == Room(s.job, d.offset) - 1
                else s'.job == s.job && s'.deferred == s.deferred + [AtZero(d)])
  {
    if Accepts(s.job, d) { ListPush(s.job, d); }
  }

  /** `s'` is `s` once `es` chokes the notes from slot `i` on: as many of them as
      fit are in the job and the rest wait, in order. */
  ghost predicate Stopped(s: Synth, s': Synth, es: seq<Event>, offset: nat, i: nat) {
    var m := Min(Room(s.job, offset), |es|);
    && Healthy(s')
    && s'.open
    && s'.job == s.job + es[..m]
    && s'.deferred == s.deferred + Strip(es[m..])
    && (forall k :: i <= k < HELD_NOTES ==> s'.notes[k].None?)
  }

  lemma {:induction false} StopLoop(cfg: Config, s: Synth, offset: nat, i: nat)
    requires s.open && Healthy(s) && IsList(s.job) && i <= HELD_NOTES && s.nextOrphan < ORPHANS
    requires NotesValid(cfg, s.notes)
    requires |s.deferred| + |Chokes(cfg, s.notes, offset, i)| <= HELD_NOTES
    ensures PortsKnown(cfg, s.notes)
    ensures Stopped(s, ReleaseLoop(cfg, s, Everything, offset, i), Chokes(cfg, s.notes, offset, i), offset, i)
    decreases HELD_NOTES - i
  {
    assert PortsKnown(cfg, s.notes);
    hide ReleaseLoop, Chokes, InDialect, NoteValid, IsList, Room, Strip, Stopped, ChokeSlot;
    StopUnfold(cfg, s, offset, i);
    if i == HELD_NOTES {
      StoppedNow(s, offset);
    } else if s.notes[i].None? {
      StopLoop(cfg, s, offset, i + 1);
      LoopKeepsEmpty(cfg, s, offset, i);
      StoppedSkip(s, ReleaseLoop(cfg, s, Everything, offset, i), Chokes(cfg, s.notes, offset, i), offset, i);
    } else {
      StopOne(cfg, s, offset, i);
      var d := InDialect(cfg, ChokeOf(s.notes[i].value, offset));
      var s3 := ChokeSlot(cfg, s, offset, i);
      ChokesSame(cfg, s.notes, s3.notes, offset, i + 1);
      StopLoop(cfg, s3, offset, i + 1);
      LoopKeepsEmpty(cfg, s3, offset, i);
      StoppedStep(s, s3, ReleaseLoop(cfg, s3, Everything, offset, i + 1), d, Chokes(cfg, s.notes, offset, i + 1), offset, i);
    }
  }

  lemma StoppedNow(s: Synth, offset: nat)
    requires Healthy(s) && s.open
    ensures Stopped(s, s, [], offset, HELD_NOTES)
  {
    assert s.job + [] == s.job && s.deferred + Strip([]) == s.deferred;
  }

  lemma StoppedSkip(s: Synth, s': Synth, es: seq<Event>, offset: nat, i: nat)
    requires Stopped(s, s', es, offset, i + 1) && i < HELD_NOTES && s'.notes[i].None?
    ensures Stopped(s, s', es, offset, i)
  {
  }

  lemma StoppedStep(s: Synth, s1: Synth, s': Synth, d: Event, rest: seq<Event>, offset: nat, i: nat)
    requires Stopped(s1, s', rest, offset, i + 1) && i < HELD_NOTES && s'.notes[i].None?
    requires if Room(s.job, offset) > 0
             then s1.job == s.job + [d] && s1.deferred == s.deferred && Room(s1.job, offset) == Room(s.job, offset) - 1
             else s1.job == s.job && s1.deferred == s.deferred + [AtZero(d)]
    ensures Stopped(s, s', [d] + rest, offset, i)
  {
    hide Room, Strip;
    StopJoin(s.job, s.deferred, d, rest, Room(s.job, offset));
  }

  /** A release never fills a slot. */
  lemma LoopKeepsEmpty(cfg: Config, s: Synth, offset: nat, k: nat)
    requires PortsKnown(cfg, s.notes) && s.nextOrphan < ORPHANS && k < HELD_NOTES && s.notes[k].None?
    ensures ReleaseLoop(cfg, s, Everything, offset, k + 1).notes[k].None?
    ensures ReleaseLoop(cfg, s, Everything, offset, k).notes[k].None?
  {
    hide ReleaseLoop;
    ReleaseLoopNotes(cfg, s, Everything, offset, k + 1);
    ReleaseLoopNotes(cfg, s, Everything, offset, k);
  }

  lemma StopUnfold(cfg: Config, s: Synth, offset: nat, i: nat)
    requires PortsKnown(cfg, s.notes) && s.nextOrphan < ORPHANS && i <= HELD_NOTES
    ensures i == HELD_NOTES ==>
              Chokes(cfg, s.notes, offset, i) == [] && ReleaseLoop(cfg, s, Everything, offset, i) == s
    ensures i < HELD_NOTES && s.notes[i].None? ==>
              && Chokes(cfg, s.notes, offset, i) == Chokes(cfg, s.notes, offset, i + 1)
              && ReleaseLoop(cfg, s, Everything, offset, i) == ReleaseLoop(cfg, s, Everything, offset, i + 1)
    ensures i < HELD_NOTES && s.notes[i].Some? ==>
              Chokes(cfg, s.notes, offset, i) ==
              [InDialect(cfg, ChokeOf(s.notes[i].value, offset))] + Chokes(cfg, s.notes, offset, i + 1)
  {
    hide InDialect;
  }

  lemma StopOne(cfg: Config, s: Synth, offset: nat, i: nat)
    requires s.open && Healthy(s) && IsList(s.job) && i < HELD_NOTES && s.nextOrphan < ORPHANS
    requires NotesValid(cfg, s.notes) && s.notes[i].Some? && |s.deferred| < HELD_NOTES
    ensures cfg.HasPort(s.notes[i].value.port) && PortsKnown(cfg, s.notes)
    ensures var s' := ChokeSlot(cfg, s, offset, i);
            var d := InDialect(cfg, ChokeOf(s.notes[i].value, offset));
            && Healthy(s') && s'.open && IsList(s'.job) && s'.nextOrphan < ORPHANS
            && s'.notes == s.notes[i := None] && NotesValid(cfg, s'.notes)
            && ReleaseLoop(cfg, s, Everything, offset, i) == ReleaseLoop(cfg, s', Everything, offset, i + 1)
            && (if Room(s.job, offset) > 0
                then s'.job == s.job + [d] && s'.deferred == s.deferred && Room(s'.job, offset) == Room(s.job, offset) - 1
                else s'.job == s.job && s'.deferred == s.deferred + [AtZero(d)])
  {
    hide Emit, InDialect, IsList, IsRelease, Room;
    var note := s.notes[i].value;
    var s1 := if note.id == -1 then RecordCut(s, Orphan(note.source, note.port, note.channel, note.key), note.released) else s;
    var d := InDialect(cfg, ChokeOf(note, offset));
    ChokeValid(cfg, note, offset);
    EmitRelease(s1.(notes := s1.notes[i := None]), d);
    EmitEffect(s1.(notes := s1.notes[i := None]), d);
  }

  lemma ChokeValid(cfg: Config, note: HeldNote, offset: nat)
    requires NoteValid(cfg, note)
    ensures var d := InDialect(cfg, ChokeOf(note, offset)); IsRelease(d) && ValidAtZero(d) && d.offset == offset
  {
    SpelledRelease(cfg, ChokeOf(note, offset));
  }

  lemma ChokesSame(cfg: Config, notes: NoteTable, notes': NoteTable, offset: nat, i: nat)
    requires PortsKnown(cfg, notes) && PortsKnown(cfg, notes')
    requires forall k :: i <= k < HELD_NOTES ==> notes[k] == notes'[k]
    ensures Chokes(cfg, notes, offset, i) == Chokes(cfg, notes', offset, i)
    decreases HELD_NOTES - i
  {
    hide InDialect;
  }

  /** One event and then the rest, split where the room ends. */
  lemma StopJoin(job: seq<Event>, deferred: seq<Event>, d: Event, rest: seq<Event>, room: nat)
    ensures var es := [d] + rest;
            var m := Min(room, |es|);
            if room > 0 then
              && job + es[..m] == (job + [d]) + rest[..Min(room - 1, |rest|)]
              && deferred + Strip(es[m..]) == deferred + Strip(rest[Min(room - 1, |rest|)..])
            else
              && job + es[..m] == job + rest[..Min(0, |rest|)]
              && deferred + Strip(es[m..]) == (deferred + [AtZero(d)]) + Strip(rest[Min(0, |rest|)..])
  {
    var es := [d] + rest;
    if room > 0 {
      assert es[Min(room, |es|)..] == rest[Min(room - 1, |rest|)..];
    } else {
      assert es[0..] == es && rest[0..] == rest;
      assert Strip(es) == [AtZero(d)] + Strip(rest);
    }
  }

  // ---- what the next job takes ----

  lemma DrainOnce(s: Synth)
    requires s.deferred != [] && Accepts(s.job, s.deferred[0])
    ensures Drain(s) == Drain(s.(job := s.job + [s.deferred[0]], deferred := s.deferred[1..]))
  {
  }

  lemma {:induction false} DrainTakes(s: Synth)
    requires s.open && |s.job| <= EVENTS
    requires forall i :: 0 <= i < |s.job| ==> s.job[i].offset == 0
    requires forall i :: 0 <= i < |s.deferred| ==> Valid(s.deferred[i]) && s.deferred[i].offset == 0
    ensures var m := Min(EVENTS - |s.job|, |s.deferred|);
            Drain(s) == s.(job := s.job + s.deferred[..m], deferred := s.deferred[m..])
    decreases |s.deferred|
  {
    hide Drain, Valid;
    var m := Min(EVENTS - |s.job|, |s.deferred|);
    if m == 0 {
      DrainNone(s);
      assert s.job + s.deferred[..0] == s.job && s.deferred[0..] == s.deferred;
    } else {
      DrainOnce(s);
      DrainTakes(s.(job := s.job + [s.deferred[0]], deferred := s.deferred[1..]));
      SplitHead(s.job, s.deferred, m);
    }
  }

  lemma SplitHead(a: seq<Event>, b: seq<Event>, m: nat)
    requires 0 < m <= |b|
    ensures (a + [b[0]]) + b[1..][..m - 1] == a + b[..m]
    ensures b[1..][m - 1..] == b[m..]
  {
  }

  lemma DrainNone(s: Synth)
    requires s.deferred == [] || |s.job| == EVENTS
    ensures Drain(s) == s
  {
  }
}
