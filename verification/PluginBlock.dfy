/** A block is handed over whole: its spans tile it and its staged input is what
    its processed slices read. */
module PluginBlock {
  import opened Wrappers
  import opened PluginWire
  import opened PluginModel
  import opened PluginInvariants
  import opened PluginSteps
  import opened PluginRuns

  /** What the engine calls between two closes: its slices follow one another
      from `from` to `to`, whatever happens between them. */
  ghost predicate Consecutive(steps: seq<Step>, from: nat, to: nat)
    decreases |steps|
  {
    if steps == [] then from == to
    else
      match steps[0]
      case Close(_, _) => false
      case RunSlice(slice, quiet, sounding) =>
        && !quiet
        && (sounding.Some? ==> !sounding.value.quiet)
        && slice.offset == from
        && slice.frames > 0
        && Consecutive(steps[1..], from + slice.frames, to)
      case Tempo(bpm) => bpm > 0.0 && Consecutive(steps[1..], from, to)
      case _ => Consecutive(steps[1..], from, to)
  }

  /** The number of slices among the steps. */
  function Slices(steps: seq<Step>): nat
    decreases |steps|
  {
    if steps == [] then 0 else (if steps[0].RunSlice? then 1 else 0) + Slices(steps[1..])
  }

  lemma {:induction false} EndsLater(steps: seq<Step>, from: nat, to: nat)
    requires Consecutive(steps, from, to)
    ensures from <= to
    ensures Slices(steps) == 0 ==> from == to
    decreases |steps|
  {
    if steps != [] {
      match steps[0]
      case RunSlice(slice, _, _) => EndsLater(steps[1..], from + slice.frames, to);
      case Close(_, _) =>
      case _ => EndsLater(steps[1..], from, to);
    }
  }

  /** Steps other than slices and closes leave the block as it is. */
  lemma OthersBeside(cfg: Config, s: Synth, step: Step)
    requires Good(cfg, s) && StepValid(cfg, step) && !step.RunSlice? && !step.Close?
    ensures var s' := Do(cfg, s, step);
            && s'.open == s.open && s'.spans == s.spans && s'.input == s.input
            && s'.tempo == (if step.Tempo? then step.bpm else s.tempo)
            && (Healthy(s') ==> Healthy(s))
  {
    hide Inv, PluginEvent, ReadBus, Release;
    match step
    case Client(source, e) => PluginEventInv(cfg, s, source, e);
    case Addressed(e) => if cfg.notePorts != [] { ReadBusInv(cfg, s, 0, e); }
    case Stop(scope, offset) => ReleaseInv(cfg, s, scope, offset);
    case _ =>
  }

  /** The state a slice is processed in. */
  function Prepared(cfg: Config, s: Synth, slice: Slice): Synth
    requires cfg.Valid() && Shaped(cfg, s)
  {
    Prepare(cfg, s, slice, false)
  }

  /** What opening a job for its first slice leaves of the block. */
  function FirstSpans(slice: Slice): seq<Span> {
    if slice.offset == 0 then [] else [Span(0, slice.offset, false, false, 0, 120.0)]
  }

  lemma OpenJobBlock(cfg: Config, s: Synth, slice: Slice)
    requires Good(cfg, s) && !s.open
    ensures var s' := OpenJob(cfg, s, slice);
            && Inv(cfg, s') && Shaped(cfg, s') && s'.open && s'.tempo == s.tempo
            && s'.spans == FirstSpans(slice) && s'.input == Zeros(|s.input|)
            && (Healthy(s') ==> Healthy(s))
  {
    OpenInv(cfg, s);
    OpenJobInv(cfg, s, slice);
    var s0 := s.(open := true, job := [], spans := []);
    DrainShape(cfg, s0);
    RefillShape(cfg, Drain(s0));
    DrainWire(s0);
    RefillWire(Drain(s0));
    hide Receive, Drain, Refill, Inv;
    var s1 := Refill(Drain(s0));
    StagingInv(cfg, s1, Zeros(|s1.input|), []);
    ReceiveInv(cfg, s1.(input := Zeros(|s1.input|)), slice.received);
  }

  /** A position as a signed 64-bit number holds it. */
  function Clipped(position: nat): nat {
    if position >= 0x8000_0000_0000_0000 then 0x7FFF_FFFF_FFFF_FFFF else position
  }

  lemma SpanIs(s: Synth, slice: Slice)
    ensures SpanOf(s, slice) ==
            Span(slice.offset, slice.frames, slice.active, slice.playing, Clipped(slice.position), s.tempo)
  {
  }

  lemma PreparedBlock(cfg: Config, s: Synth, slice: Slice)
    requires Good(cfg, s) && SliceValid(slice)
    ensures var s' := Prepared(cfg, s, slice);
            var spans := if s.open then s.spans else FirstSpans(slice);
            && Good(cfg, s') && s'.open && s'.tempo == s.tempo
            && s'.input == (if s.open then s.input else Zeros(|s.input|))
            && (s.open && |s.spans| == 8 ==> s' == s.(failure := if Healthy(s) then Capacity else s.failure))
            && (Healthy(s') ==>
                  && Healthy(s)
                  && |spans| != SPANS
                  && |s'.spans| == |spans| + 1
                  && s'.spans == spans + [Span(slice.offset, slice.frames, slice.active, slice.playing,
                                               Clipped(slice.position), s.tempo)])
  {
    hide OpenJob, ReadPorts, Inv, SpanOf, Clipped;
    PrepareInv(cfg, s, slice, false);
    if !s.open { OpenJobBlock(cfg, s, slice); }
    var s1 := if s.open then s else OpenJob(cfg, s, slice);
    SpanIs(s1, slice);
    if |s1.spans| != SPANS {
      var s2 := s1.(spans := s1.spans + [SpanOf(s1, slice)]);
      StagingInv(cfg, s1, [], s2.spans);
      ReadPortsInv(cfg, s2, slice.heard, 0);
    }
  }

  lemma {:induction false} ParametersBlock(cfg: Config, s: Synth, offset: nat, i: nat)
    requires Shaped(cfg, s)
    ensures var s' := SendParameters(cfg, s, offset, i);
            && s'.open == s.open && s'.spans == s.spans && s'.tempo == s.tempo && s'.input == s.input
            && s'.values == s.values && (Healthy(s') ==> Healthy(s))
    decreases |cfg.parameters| - i
  {
    if i < |cfg.parameters| {
      ParametersBlock(cfg, SendParameter(cfg, s, i, offset), offset, i + 1);
    }
  }

  lemma ProcessBlock(cfg: Config, s: Synth, slice: Slice, p: Sounding)
    requires Shaped(cfg, s) && !p.quiet && |p.readings| == |s.values|
    requires forall b :: 0 <= b < |p.audio| ==> |p.audio[b]| == FRAMES
    ensures var s' := Process(cfg, s, slice.offset, slice.frames, p.readings, p.audio, p.quiet);
            && s'.open == s.open && s'.spans == s.spans && s'.tempo == s.tempo && |s'.input| == |s.input|
            && (Healthy(s') ==> Healthy(s))
            && (forall k :: 0 <= k < |s.input| ==>
                 s'.input[k] ==
                 if slice.offset <= k % FRAMES < slice.offset + slice.frames
                 then StagedSample(cfg, FollowMaps(s, p.readings), p.audio, k / FRAMES, k % FRAMES)
                 else s.input[k])
  {
    hide SendParameters, StagedSample;
    ParametersBlock(cfg, s.(values := FollowMaps(s, p.readings)), slice.offset, 0);
  }

  // ---- tiling ----

  /** The spans of the block so far: they cover [0, from) once, and hold a tempo. */
  ghost predicate Tiled(s: Synth, from: nat) {
    && s.open
    && |s.spans| <= SPANS
    && Tiles(s.spans, 0, from)
    && (forall i :: 0 <= i < |s.spans| ==> s.spans[i].tempo > 0.0)
  }

  lemma SliceTiles(cfg: Config, s: Synth, step: Step, from: nat)
    requires Good(cfg, s) && StepValid(cfg, step) && s.tempo > 0.0
    requires step.RunSlice? && !step.quiet && (step.sounding.Some? ==> !step.sounding.value.quiet)
    requires step.slice.offset == from && step.slice.frames > 0
    requires s.open ==> (Healthy(s) ==> Tiled(s, from))
    ensures var s' := Do(cfg, s, step);
            && s'.tempo == s.tempo && s'.open
            && (Healthy(s') ==> Healthy(s) && Tiled(s', from + step.slice.frames))
            && (Healthy(s') ==> |s'.spans| == 1 + if s.open then |s.spans| else if from == 0 then 0 else 1)
  {
    hide Prepare, Process, Inv;
    var slice := step.slice;
    PreparedBlock(cfg, s, slice);
    var s1 := Prepared(cfg, s, slice);
    if step.sounding.Some? {
      ProcessBlock(cfg, s1, slice, step.sounding.value);
    }
    if Healthy(s1) {
      var spans := if s.open then s.spans else FirstSpans(slice);
      if !s.open && from > 0 {
        assert FirstSpans(slice)[1..] == [];
      }
      TilesSnoc(spans, s1.spans[|spans|], 0, from);
    }
  }

  /** For any division of a block into consecutive slices, starting anywhere in
      it and with any events between them: unless something failed, the spans of
      the open job cover the block from its first frame to the last slice's end
      exactly once, and there is one for each slice and one for the frames
      before the first. */
  lemma {:induction false} BlockTiles(cfg: Config, s: Synth, steps: seq<Step>, from: nat, to: nat)
    requires Good(cfg, s) && (forall i :: 0 <= i < |steps| ==> StepValid(cfg, steps[i]))
    requires s.tempo > 0.0 && Consecutive(steps, from, to)
    requires s.open ==> (Healthy(s) ==> Tiled(s, from))
    ensures var s' := Run(cfg, s, steps);
            && s'.tempo > 0.0
            && s'.open == (s.open || Slices(steps) > 0)
            && (Healthy(s') ==> Healthy(s))
            && (Healthy(s') && s'.open ==>
                  && Tiled(s', to)
                  && |s'.spans| == Slices(steps) + if s.open then |s.spans| else if from == 0 then 0 else 1)
    decreases |steps|
  {
    hide Do, Good, StepValid, Tiled;
    if steps != [] {
      var s1 := Do(cfg, s, steps[0]);
      DoGood(cfg, s, steps[0]);
      match steps[0] {
        case RunSlice(slice, quiet, sounding) =>
          SliceTiles(cfg, s, steps[0], from);
          BlockTiles(cfg, s1, steps[1..], from + slice.frames, to);
        case Close(_, _) =>
        case _ =>
          OthersBeside(cfg, s, steps[0]);
          StillTiled(s, s1, from);
          BlockTiles(cfg, s1, steps[1..], from, to);
      }
    }
  }

  lemma StillTiled(s: Synth, s': Synth, from: nat)
    requires s'.open == s.open && s'.spans == s.spans
    ensures Tiled(s, from) ==> Tiled(s', from)
  {
  }

  /** So a block whose slices reach its end is handed over: closing it fails
      only if no slot is free or the instance was aborted. */
  lemma WholeBlockIsValid(cfg: Config, s: Synth, steps: seq<Step>, from: nat, slotFree: bool)
    requires Good(cfg, s) && (forall i :: 0 <= i < |steps| ==> StepValid(cfg, steps[i]))
    requires s.tempo > 0.0 && !s.open && from < FRAMES && Consecutive(steps, from, FRAMES)
    ensures var s' := Run(cfg, s, steps);
            Healthy(s') ==>
              && SpansValid(s'.spans)
              && (Healthy(Finish(s', slotFree, false)) <==> slotFree)
              && (slotFree ==> Finish(s', slotFree, false).history.delivered == s'.history.delivered + s'.job)
  {
    hide Do, Good, StepValid;
    BlockTiles(cfg, s, steps, from, FRAMES);
    EndsLater(steps, from, FRAMES);
  }

  // ---- staged input ----

  /** The place of channel `c` of input port `p` among all input channels. */
  function ChannelAt(cfg: Config, p: nat, c: nat): nat
    requires p < |cfg.inputs|
  {
    Channels(cfg.inputs[..p]) + c
  }

  /** The control of input port `p` when a slice is processed: its bus map's reading,
      if it has one. */
  function PortControl(cfg: Config, s: Synth, readings: seq<Float>, p: nat): Float
    requires Shaped(cfg, s) && |readings| == cfg.Controls() && p < |cfg.inputs|
  {
    var i := |cfg.parameters| + p;
    if s.maps[i].bus >= 0 then readings[i] else s.values[i]
  }

  /** What channel `c` of a port hears: the sample of the `c`-th bus from the one its
      control names, and silence when it names none or there is no such bus. */
  function PortSample(control: Float, audio: seq<seq<real>>, c: nat, frame: nat): real
    requires frame < FRAMES && forall b :: 0 <= b < |audio| ==> |audio[b]| == FRAMES
  {
    if control.Finite? && control.v >= 0.0 && control.v.Floor + c < |audio| then audio[control.v.Floor + c][frame] else 0.0
  }

  /** Walking the ports finds a channel's port and its place in it. */
  lemma {:induction false} BusOfPort(cfg: Config, values: seq<Float>, from: nat, p: nat, c: nat)
    requires |values| == cfg.Controls() && from <= p < |cfg.inputs| && c < cfg.inputs[p]
    ensures BusOf(cfg, values, from, Channels(cfg.inputs[from..p]) + c) ==
            match values[|cfg.parameters| + p]
            case Finite(v) => if v >= 0.0 then Some(v.Floor + c) else None
            case _ => None
    decreases p - from
  {
    if from < p {
      assert cfg.inputs[from..p][0] == cfg.inputs[from] && cfg.inputs[from..p][1..] == cfg.inputs[from + 1..p];
      BusOfPort(cfg, values, from + 1, p, c);
    } else {
      assert cfg.inputs[from..p] == [];
    }
  }

  /** A port's channel is one of all. */
  lemma {:induction false} ChannelFits(inputs: seq<nat>, p: nat, c: nat)
    requires p < |inputs| && c < inputs[p]
    ensures Channels(inputs[..p]) + c < Channels(inputs)
    decreases p
  {
    if p > 0 {
      assert inputs[..p][0] == inputs[0] && inputs[..p][1..] == inputs[1..][..p - 1];
      ChannelFits(inputs[1..], p - 1, c);
    }
  }

  lemma SampleIs(cfg: Config, s: Synth, p: nat, c: nat, readings: seq<Float>, audio: seq<seq<real>>, frame: nat)
    requires Shaped(cfg, s) && |readings| == cfg.Controls() && p < |cfg.inputs| && c < cfg.inputs[p]
    requires frame < FRAMES && forall b :: 0 <= b < |audio| ==> |audio[b]| == FRAMES
    ensures StagedSample(cfg, FollowMaps(s, readings), audio, ChannelAt(cfg, p, c), frame) ==
            PortSample(PortControl(cfg, s, readings, p), audio, c, frame)
  {
    hide BusOf;
    BusOfPort(cfg, FollowMaps(s, readings), 0, p, c);
    assert cfg.inputs[0..p] == cfg.inputs[..p];
  }

  /** The sample staged for one channel of a port and one frame: what the slice over
      the frame read when it was processed, and silence when it was frozen or no
      slice was over it. */
  ghost function Expected(cfg: Config, s: Synth, steps: seq<Step>, p: nat, c: nat, frame: nat): real
    requires Good(cfg, s) && forall i :: 0 <= i < |steps| ==> StepValid(cfg, steps[i])
    requires frame < FRAMES && p < |cfg.inputs|
    decreases |steps|
  {
    if steps == [] then 0.0
    else
      var step := steps[0];
      DoGood(cfg, s, step);
      if step.RunSlice? && step.slice.offset <= frame < step.slice.offset + step.slice.frames then
        if step.sounding.None? then 0.0
        else
          PrepareInv(cfg, s, step.slice, step.quiet);
          PortSample(PortControl(cfg, Prepare(cfg, s, step.slice, step.quiet), step.sounding.value.readings, p),
                     step.sounding.value.audio, c, frame)
      else Expected(cfg, Do(cfg, s, step), steps[1..], p, c, frame)
  }

  lemma SliceInput(cfg: Config, s: Synth, step: Step, p: nat, c: nat, frame: nat)
    requires Good(cfg, s) && StepValid(cfg, step) && step.RunSlice?
    requires !step.quiet && (step.sounding.Some? ==> !step.sounding.value.quiet)
    requires p < |cfg.inputs| && c < cfg.inputs[p] && frame < FRAMES && FRAMES * ChannelAt(cfg, p, c) + frame < |s.input|
    ensures Shaped(cfg, Prepared(cfg, s, step.slice))
    ensures var s' := Do(cfg, s, step);
            var k := FRAMES * ChannelAt(cfg, p, c) + frame;
            var before := if s.open then s.input[k] else 0.0;
            && s'.open && |s'.input| == |s.input|
            && s'.input[k] ==
               if step.slice.offset <= frame < step.slice.offset + step.slice.frames && step.sounding.Some?
               then PortSample(PortControl(cfg, Prepared(cfg, s, step.slice), step.sounding.value.readings, p),
                               step.sounding.value.audio, c, frame)
               else before
  {
    hide Prepare, Process, Inv, StagedSample, PortSample, PortControl;
    var channel := ChannelAt(cfg, p, c);
    var k := FRAMES * channel + frame;
    assert k % FRAMES == frame && k / FRAMES == channel;
    PreparedBlock(cfg, s, step.slice);
    if step.sounding.Some? {
      ProcessBlock(cfg, Prepared(cfg, s, step.slice), step.slice, step.sounding.value);
      SampleIs(cfg, Prepared(cfg, s, step.slice), p, c, step.sounding.value.readings, step.sounding.value.audio, frame);
    }
  }

  lemma GoodCells(cfg: Config, s: Synth, p: nat, c: nat, frame: nat)
    requires Good(cfg, s) && p < |cfg.inputs| && c < cfg.inputs[p] && frame < FRAMES
    ensures FRAMES * ChannelAt(cfg, p, c) + frame < |s.input|
  {
    ChannelFits(cfg.inputs, p, c);
  }

  /** For any division of a block into slices, every channel of every input port and
      every frame: the staged input is the sample of that channel's own bus where a
      processed slice covers the frame, and silence on frozen frames and on those
      before the node was introduced. */
  lemma {:induction false} BlockInput(cfg: Config, s: Synth, steps: seq<Step>, from: nat, to: nat,
                                      p: nat, c: nat, frame: nat)
    requires Good(cfg, s) && (forall i :: 0 <= i < |steps| ==> StepValid(cfg, steps[i]))
    requires Consecutive(steps, from, to) && p < |cfg.inputs| && c < cfg.inputs[p] && frame < FRAMES
    ensures FRAMES * ChannelAt(cfg, p, c) + frame < |s.input|
    ensures var s' := Run(cfg, s, steps);
            var k := FRAMES * ChannelAt(cfg, p, c) + frame;
            && |s'.input| == |s.input|
            && (s'.open && frame < from ==> s'.input[k] == if s.open then s.input[k] else 0.0)
            && (s'.open && (s.open ==> s.input[k] == 0.0) && frame >= from ==>
                  s'.input[k] == Expected(cfg, s, steps, p, c, frame))
    decreases |steps|
  {
    hide Do, Good, StepValid, PortSample, PortControl, Prepare, Shaped, ChannelAt;
    GoodCells(cfg, s, p, c, frame);
    var k := FRAMES * ChannelAt(cfg, p, c) + frame;
    if steps != [] {
      var s1 := Do(cfg, s, steps[0]);
      DoGood(cfg, s, steps[0]);
      match steps[0] {
        case RunSlice(slice, quiet, sounding) =>
          SliceInput(cfg, s, steps[0], p, c, frame);
          BlockInput(cfg, s1, steps[1..], from + slice.frames, to, p, c, frame);
        case Close(_, _) =>
        case _ =>
          OthersBeside(cfg, s, steps[0]);
          BlockInput(cfg, s1, steps[1..], from, to, p, c, frame);
      }
    }
  }
}
