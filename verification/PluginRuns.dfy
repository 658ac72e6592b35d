/** Whole runs of a plugin instance: what holds in every state one can reach. */
module PluginRuns {
  import opened Wrappers
  import opened PluginWire
  import opened PluginModel
  import opened PluginInvariants
  import opened PluginSteps

  /** What a slice that is not frozen hands to `process`. */
  datatype Sounding = Sounding(readings: seq<Float>, audio: seq<seq<real>>, quiet: bool)

  /** One call of the engine. */
  datatype Step =
    | Client(source: nat, event: Event)
    | Addressed(busEvent: BusEvent)
    | Stop(scope: Scope, offset: nat)
    | RunSlice(slice: Slice, quiet: bool, sounding: Option<Sounding>)
    | Close(slotFree: bool, aborted: bool)
    | Set(index: nat, value: Float)
    | Map(index: nat, to: ControlMap)
    | Tempo(bpm: real)
    | Reply

  ghost predicate StepValid(cfg: Config, step: Step) {
    match step
    case Client(_, e) => ClientEvent(e)
    case Addressed(e) => BusValid(e)
    case RunSlice(slice, quiet, sounding) =>
      && SliceValid(slice)
      && (sounding.Some? ==>
            && slice.offset + slice.frames <= FRAMES
            && |sounding.value.readings| == cfg.Controls()
            && (forall b :: 0 <= b < |sounding.value.audio| ==> |sounding.value.audio[b]| == FRAMES)
            && (quiet ==> sounding.value.quiet))
    case _ => true
  }

  ghost predicate Good(cfg: Config, s: Synth) {
    cfg.Valid() && Inv(cfg, s) && Shaped(cfg, s)
  }

  ghost function Do(cfg: Config, s: Synth, step: Step): Synth
    requires Good(cfg, s) && StepValid(cfg, step)
  {
    match step
    case Client(source, e) => PluginEvent(cfg, s, source, e)
    case Addressed(e) => if cfg.notePorts == [] then s else ReadBus(cfg, s, 0, e)
    case Stop(scope, offset) => ReleaseInv(cfg, s, scope, offset); Release(cfg, s, scope, offset)
    case RunSlice(slice, quiet, sounding) =>
      PrepareInv(cfg, s, slice, quiet);
      var s1 := Prepare(cfg, s, slice, quiet);
      if sounding.None? then s1
      else Process(cfg, s1, slice.offset, slice.frames, sounding.value.readings, sounding.value.audio, sounding.value.quiet)
    case Close(slotFree, aborted) => Finish(s, slotFree, aborted)
    case Set(i, v) => SetControl(cfg, s, i, v)
    case Map(i, to) => MapControl(cfg, s, i, to)
    case Tempo(bpm) => s.(tempo := bpm)
    case Reply => DrainReplies(s)
  }

  lemma DoGood(cfg: Config, s: Synth, step: Step)
    requires Good(cfg, s) && StepValid(cfg, step)
    ensures Good(cfg, Do(cfg, s, step))
  {
    hide Inv, PluginEvent, ReadBus, Release, Prepare, Process, Finish, SetControl, MapControl, Shaped;
    match step
    case Client(source, e) => PluginEventInv(cfg, s, source, e); BesideShaped(cfg, s, PluginEvent(cfg, s, source, e));
    case Addressed(e) =>
      if cfg.notePorts != [] {
        ReadBusInv(cfg, s, 0, e);
        BesideShaped(cfg, s, ReadBus(cfg, s, 0, e));
      }
    case Stop(scope, offset) =>
      ReleaseInv(cfg, s, scope, offset);
      BesideShaped(cfg, s, Release(cfg, s, scope, offset));
    case RunSlice(slice, quiet, sounding) => SliceGood(cfg, s, slice, quiet, sounding);
    case Close(slotFree, aborted) =>
      FinishInv(cfg, s, slotFree, aborted);
      FinishShape(cfg, s, slotFree, aborted);
    case Set(i, v) => ControlGood(cfg, s, step);
    case Map(i, to) => ControlGood(cfg, s, step);
    case Tempo(bpm) => ControlGood(cfg, s, step);
    case Reply => ControlGood(cfg, s, step);
  }

  lemma BesideShaped(cfg: Config, s: Synth, s': Synth)
    requires Shaped(cfg, s) && Beside(s, s')
    ensures Shaped(cfg, s')
  {
  }

  lemma FinishShape(cfg: Config, s: Synth, slotFree: bool, aborted: bool)
    requires Shaped(cfg, s)
    ensures Shaped(cfg, Finish(s, slotFree, aborted))
  {
    hide SpansValid;
  }

  lemma SliceGood(cfg: Config, s: Synth, slice: Slice, quiet: bool, sounding: Option<Sounding>)
    requires Good(cfg, s) && StepValid(cfg, RunSlice(slice, quiet, sounding))
    ensures Good(cfg, Do(cfg, s, RunSlice(slice, quiet, sounding)))
  {
    hide Inv, Prepare, Process;
    PrepareInv(cfg, s, slice, quiet);
    var s1 := Prepare(cfg, s, slice, quiet);
    if sounding.Some? {
      var p := sounding.value;
      if quiet {
        QuietProcess(cfg, s1, slice, p);
      } else {
        ProcessInv(cfg, s1, slice.offset, slice.frames, p.readings, p.audio, p.quiet);
      }
    }
  }

  /** The steps that touch neither the notes nor the lists. */
  lemma ControlGood(cfg: Config, s: Synth, step: Step)
    requires Good(cfg, s) && (step.Set? || step.Map? || step.Tempo? || step.Reply?)
    ensures Good(cfg, Do(cfg, s, step))
  {
    hide Wire, Ledger, Ring, Table;
    WireSame(s, Do(cfg, s, step));
  }

  lemma QuietProcess(cfg: Config, s: Synth, slice: Slice, p: Sounding)
    requires Shaped(cfg, s) && p.quiet && |p.readings| == |s.values|
    requires forall b :: 0 <= b < |p.audio| ==> |p.audio[b]| == FRAMES
    ensures Process(cfg, s, slice.offset, slice.frames, p.readings, p.audio, p.quiet) == s
  {
  }

  /** A new instance: nothing held, nothing waiting. */
  function Fresh(cfg: Config, defaults: seq<Float>): Synth
    requires |defaults| == cfg.Controls()
  {
    Synth(
      seq(HELD_NOTES, _ => None),
      seq(PEDALS, _ => None),
      seq(ORPHANS, _ => None),
      0, 0, false, [], [],
      Zeros(FRAMES * Channels(cfg.inputs)),
      [], [], false, Running,
      defaults,
      defaults[..|cfg.parameters|],
      seq(|defaults|, _ => UNMAPPED),
      [], [], 120.0,
      History(Start, [], 0, [], {}, false))
  }

  lemma FreshGood(cfg: Config, defaults: seq<Float>)
    requires cfg.Valid() && |defaults| == cfg.Controls()
    ensures Good(cfg, Fresh(cfg, defaults))
  {
    assert Natives(Fresh(cfg, defaults).notes) == {};
  }

  ghost function Run(cfg: Config, s: Synth, steps: seq<Step>): (r: Synth)
    requires Good(cfg, s) && forall i :: 0 <= i < |steps| ==> StepValid(cfg, steps[i])
    ensures Good(cfg, r)
    decreases |steps|
  {
    if steps == [] then s
    else
      DoGood(cfg, s, steps[0]);
      Run(cfg, Do(cfg, s, steps[0]), steps[1..])
  }

  /** What any run of valid steps from a new instance reaches. */
  ghost predicate Reachable(cfg: Config, s: Synth) {
    exists defaults: seq<Float>, steps: seq<Step> :: ReachedBy(cfg, s, defaults, steps)
  }

  ghost predicate ReachedBy(cfg: Config, s: Synth, defaults: seq<Float>, steps: seq<Step>) {
    && cfg.Valid()
    && |defaults| == cfg.Controls()
    && (forall i :: 0 <= i < |steps| ==> StepValid(cfg, steps[i]))
    && (FreshGood(cfg, defaults); s == Run(cfg, Fresh(cfg, defaults), steps))
  }

  lemma ReachableGood(cfg: Config, s: Synth)
    requires Reachable(cfg, s)
    ensures Good(cfg, s)
  {
    hide Good, StepValid;
    var defaults, steps :| ReachedBy(cfg, s, defaults, steps);
    FreshGood(cfg, defaults);
  }

  // ---- the voice ledger ----

  /** How often a note was started. */
  function Starts(t: Trace, n: int): nat {
    match t
    case Start => 0
    case Then(past, last) => Starts(past, n) + (if last.Sent? && IsAttack(last.event) && last.event.noteId == n then 1 else 0)
  }

  /** How often a note was released by us or ended by the plugin. */
  function Stops(t: Trace, n: int): nat {
    match t
    case Start => 0
    case Then(past, Sent(e)) => Stops(past, n) + (if !IsAttack(e) && IsRelease(e) && e.noteId == n then 1 else 0)
    case Then(past, Ended(m)) => Stops(past, n) + (if m == n then 1 else 0)
    case Then(past, Reported(_, _, _)) => Stops(past, n)
  }

  lemma {:induction false} Once(t: Trace, n: int)
    requires Lawful(t)
    ensures Starts(t, n) == (if 1 <= n <= Attacks(t) then 1 else 0)
    ensures Stops(t, n) <= Starts(t, n)
    ensures n in Alive(t) <==> Starts(t, n) == 1 && Stops(t, n) == 0
  {
    match t
    case Start =>
    case Then(past, _) => Once(past, n);
  }

  /** In every reachable state that has not failed, the identities in the note
      table are those started and never stopped, but for the lost ones, each once;
      identities are 1..nextNote, each started exactly once and stopped at most
      once. PluginLosses.dfy says what is lost. */
  lemma VoiceLedger(cfg: Config, s: Synth)
    requires Reachable(cfg, s) && Healthy(s)
    ensures Natives(s.notes) == (set n | 1 <= n <= s.nextNote && Stops(s.history.trace, n) == 0) - s.history.lost
    ensures forall n :: n in s.history.lost ==> 1 <= n <= s.nextNote && Stops(s.history.trace, n) == 0
    ensures Distinct(s.notes)
    ensures forall n :: Starts(s.history.trace, n) == (if 1 <= n <= s.nextNote then 1 else 0)
    ensures forall n :: Stops(s.history.trace, n) <= Starts(s.history.trace, n)
  {
    ReachableGood(cfg, s);
    var t := s.history.trace;
    forall n ensures Starts(t, n) == (if 1 <= n <= s.nextNote then 1 else 0) && Stops(t, n) <= Starts(t, n)
      ensures n in Alive(t) <==> 1 <= n <= s.nextNote && Stops(t, n) == 0
    {
      Once(t, n);
    }
  }

  /** On a port that takes only MIDI, at most one note is ever held on a key of a channel. */
  lemma OneNotePerKey(cfg: Config, s: Synth, i: nat, j: nat)
    requires Reachable(cfg, s)
    requires i < j < HELD_NOTES && s.notes[i].Some? && s.notes[j].Some?
    requires SameKey(s.notes[i].value, s.notes[j].value)
    ensures cfg.HasPort(s.notes[i].value.port) && cfg.Native(s.notes[i].value.port)
  {
    ReachableGood(cfg, s);
  }

  // ---- first in, first out ----

  lemma {:induction false} AliveWasStarted(t: Trace, n: int) returns (j: nat)
    requires n in Alive(t)
    ensures j < |Log(t)| && IsAttack(Log(t)[j]) && Log(t)[j].noteId == n
  {
    match t
    case Then(past, Sent(e)) =>
      if IsAttack(e) && e.noteId == n {
        j := |Log(past)|;
      } else {
        j := AliveWasStarted(past, n);
      }
    case Then(past, _) => j := AliveWasStarted(past, n);
  }

  /** In the log of what was accepted, every release follows its note-on. */
  lemma {:induction false} ReleaseFollows(t: Trace, k: nat) returns (j: nat)
    requires Lawful(t) && k < |Log(t)| && IsRelease(Log(t)[k])
    ensures j < |Log(t)| && IsAttack(Log(t)[j]) && Log(t)[j].noteId == Log(t)[k].noteId
    ensures j <= k
  {
    match t
    case Then(past, Sent(e)) =>
      if k < |Log(past)| {
        j := ReleaseFollows(past, k);
      } else {
        j := AliveWasStarted(past, e.noteId);
      }
    case Then(past, _) => j := ReleaseFollows(past, k);
  }

  /** In every reachable state that neither failed nor spilled, what was
      delivered, the open job, the deferred events and the pending ones are, in
      that order, everything ever accepted in the order it was accepted. */
  lemma UnspilledInOrder(cfg: Config, s: Synth)
    requires Reachable(cfg, s) && Healthy(s) && !s.history.spilled
    ensures Strip(s.history.delivered + (if s.open then s.job else []) + s.deferred + s.pending)
         == Strip(Log(s.history.trace))
  {
    ReachableGood(cfg, s);
  }

  /** So no release reaches the plugin before its note-on. */
  lemma UnspilledReleases(cfg: Config, s: Synth, k: nat) returns (j: nat)
    requires Reachable(cfg, s) && Healthy(s) && !s.history.spilled
    requires k < |s.history.delivered| && IsRelease(s.history.delivered[k])
    ensures j < k && IsAttack(s.history.delivered[j])
    ensures s.history.delivered[j].noteId == s.history.delivered[k].noteId
  {
    UnspilledInOrder(cfg, s);
    ReachableGood(cfg, s);
    var delivered, log := s.history.delivered, Log(s.history.trace);
    assert forall i :: 0 <= i < |delivered| ==> AtZero(delivered[i]) == Strip(Queue(s))[i] == Strip(log)[i] == AtZero(log[i]);
    assert AtZero(delivered[k]) == AtZero(log[k]);
    j := ReleaseFollows(s.history.trace, k);
    assert AtZero(delivered[j]) == AtZero(log[j]);
  }
}
