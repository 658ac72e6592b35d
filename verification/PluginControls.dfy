/** The controls of an instance: what setting, mapping, reports of the plugin and
    the processing of a slice do to the values, what was sent and the bus maps. */
module PluginControls {
  import opened Wrappers
  import opened PluginWire
  import opened PluginModel
  import opened PluginInvariants
  import opened PluginSteps
  import opened PluginRuns
  import opened PluginBlock
  import opened PluginCursor

  /** A new instance holds nothing, has failed at nothing, plays at 120, has its def's
      defaults for values -- those of its parameters for what the plugin has -- and no
      control on a bus. */
  lemma StartsExactly(cfg: Config, defaults: seq<Float>)
    requires |defaults| == cfg.Controls()
    ensures var s := Fresh(cfg, defaults);
            && (forall i :: 0 <= i < 256 ==> s.notes[i].None?)
            && (forall i :: 0 <= i < 64 ==> s.pedals[i].None? && s.orphans[i].None?)
            && s.job == s.pending == s.deferred == s.controlEvents == [] && s.ended == [] && s.spans == []
            && !s.open && !s.spreading && s.failure == Running && s.tempo == 120.0 && s.nextNote == 0
            && s.values == defaults && s.sent == defaults[..|cfg.parameters|]
            && |s.maps| == |defaults| && (forall i :: 0 <= i < |s.maps| ==> s.maps[i].bus == -1)
            && Log(s.history.trace) == [] && s.history.delivered == []
            && (forall k :: 0 <= k < |s.input| ==> s.input[k] == 0.0)
  {
  }

  /** Setting a control gives it its value and takes it off its bus, and mapping one
      puts it on its bus with its value as it is; a parameter the plugin alone writes
      refuses both, and a control the def does not have is ignored. Nothing else
      changes. */
  lemma EditsExactly(cfg: Config, s: Synth, i: nat, v: Float, to: ControlMap, bpm: real)
    requires Good(cfg, s)
    ensures var refused := i < |cfg.parameters| && cfg.parameters[i].readOnly;
            && Do(cfg, s, Set(i, v)) ==
               (if refused then Fail(s, Protocol)
                else if i < |s.values| then s.(values := s.values[i := v], maps := s.maps[i := ControlMap(-1, false)])
                else s)
            && Do(cfg, s, Map(i, to)) ==
               (if refused then Fail(s, Protocol)
                else if i < |s.values| then s.(maps := s.maps[i := to])
                else s)
            && Do(cfg, s, Tempo(bpm)) == s.(tempo := bpm)
            && Do(cfg, s, Reply) == s.(controlEvents := [], ended := [])
  {
    hide Inv;
  }

  /** What the plugin may report of a control: its value, a modulation or the ends of
      a gesture, of no note in particular. */
  predicate ReportsControl(e: Event) {
    && (e.kind == Parameter || e.kind == ParameterMod || e.kind == GestureBegin || e.kind == GestureEnd)
    && e.noteId == -1 && e.port == -1 && e.channel == -1 && e.key == -1
  }

  /** The parameter a report is of: the first with its number. */
  ghost predicate ReportOf(cfg: Config, id: nat, i: nat) {
    i < |cfg.parameters| && cfg.parameters[i].id == id && forall j :: 0 <= j < i ==> cfg.parameters[j].id != id
  }

  /** A report is a fault if no parameter has its number, or a value is out of its
      parameter's range. Else a value of a parameter on no bus becomes its value and
      is what the plugin has, and of one on a bus makes what the plugin has unknown,
      the value staying the bus's; and the report goes on to the client, or fails the
      instance for want of room. After a failure no later report is read. */
  lemma ReportExactly(cfg: Config, s: Synth, n: nat, e: Event, i: nat)
    requires Shaped(cfg, s) && ReportsControl(e) && e.id == Number(n)
    ensures (forall j :: 0 <= j < |cfg.parameters| ==> cfg.parameters[j].id != n) ==>
              ReceiveControl(cfg, s, e) == (Fail(s, Protocol), false)
    ensures ReportOf(cfg, n, i) ==>
              var p, r := cfg.parameters[i], ReceiveControl(cfg, s, e);
              var valued, mapped, s' := e.kind.Parameter?, s.maps[i].bus >= 0, r.0;
              if valued && (e.value < p.min || e.value > p.max) then r == (Fail(s, Protocol), false)
              else
                && s'.values == (if valued && !mapped then s.values[i := Finite(e.value)] else s.values)
                && s'.sent == (if valued then s.sent[i := if mapped then NotANumber else Finite(e.value)] else s.sent)
                && s'.maps == s.maps && s'.notes == s.notes
                && r.1 == Accepts(s.controlEvents, e)
                && s'.controlEvents == (if r.1 then s.controlEvents + [e] else s.controlEvents)
                && (if r.1 then s'.failure == s.failure else !Healthy(s'))
  {
    hide Accepts;
    var index := ParameterIndex(cfg.parameters, n, 0);
    if ReportOf(cfg, n, i) { assert index == i; }
  }

  /** The reports are read in order: a control's, and then the rest unless it failed;
      any other report ends the notes it names if it is a note-end, and is nothing
      else. */
  lemma ReportsInOrder(cfg: Config, s: Synth, e: Event, rest: seq<Event>)
    requires Shaped(cfg, s)
    ensures ReportsControl(e) ==>
              var (s1, more) := ReceiveControl(cfg, s, e);
              Shaped(cfg, s1) && Receive(cfg, s, [e] + rest) == if more then Receive(cfg, s1, rest) else s1
    ensures !ReportsControl(e) ==>
              var s1 := if e.kind.NoteEnd? then EndLoop(s, e, 0) else s;
              Shaped(cfg, s1) && Receive(cfg, s, [e] + rest) == Receive(cfg, s1, rest)
  {
    hide ReceiveControl, EndLoop;
    assert ([e] + rest)[1..] == rest;
    ReceiveEffect(cfg, s, e);
    EndLoopShape(cfg, s, e, 0);
  }

  /** When a slice is processed, a control on a bus takes its reading and any other
      keeps its value; the parameters are sent after that. */
  lemma ProcessFollows(cfg: Config, s: Synth, slice: Slice, p: Sounding, i: nat)
    requires Shaped(cfg, s) && |p.readings| == |s.values| && i < |s.values|
    requires forall b :: 0 <= b < |p.audio| ==> |p.audio[b]| == FRAMES
    ensures var s' := Process(cfg, s, slice.offset, slice.frames, p.readings, p.audio, p.quiet);
            && |s'.values| == |s.values|
            && s'.values[i] == if !p.quiet && s.maps[i].bus >= 0 then p.readings[i] else s.values[i]
  {
    hide SendParameters, Stage;
    if !p.quiet { ParametersBlock(cfg, s.(values := FollowMaps(s, p.readings)), slice.offset, 0); }
  }

  /** A parameter is sent unless the plugin has its value or writes it alone: at the
      slice's frame, under its number and no note's address, while the list is below
      three quarters; a value out of its range is a fault. What was sent is then what
      the plugin has. */
  lemma SendExactly(cfg: Config, s: Synth, i: nat, offset: nat)
    requires Shaped(cfg, s) && Healthy(s) && i < |cfg.parameters| && offset < FRAMES && Behind(s.job, offset)
    ensures var s', p, v := SendParameter(cfg, s, i, offset), cfg.parameters[i], s.values[i];
            if p.readOnly || (!v.NotANumber? && s.sent[i] == v) then s' == s
            else if !v.Finite? || v.v < p.min || v.v > p.max then s' == Fail(s, Protocol)
            else if |s.job| >= 48 then s' == s
            else
              && s'.job == s.job + [Event(offset, Parameter, Number(p.id), -1, -1, -1, -1, v.v)]
              && s'.sent == s.sent[i := v]
              && s' == s.(job := s'.job, sent := s'.sent, history := s'.history)
              && Log(s'.history.trace) == Log(s.history.trace) + [s'.job[|s.job|]]
  {
  }
}
