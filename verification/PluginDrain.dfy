/** After a stop, every release leaves within a bounded number of blocks. */
module PluginDrain {
  import opened Wrappers
  import opened PluginWire
  import opened PluginModel
  import opened PluginInvariants
  import opened PluginSteps
  import opened PluginRuns
  import opened PluginPedals
  import opened PluginOverflow
  import opened PluginStop
  import opened PluginBlock

  // ---- blocks with no other traffic ----

  /** The plugin has every parameter's value, and no control follows a bus. */
  ghost predicate Settled(cfg: Config, s: Synth)
    requires Shaped(cfg, s)
  {
    && (forall i :: 0 <= i < |s.maps| ==> s.maps[i].bus < 0)
    && (forall i :: 0 <= i < |cfg.parameters| ==> FloatEqual(s.sent[i], s.values[i]) || cfg.parameters[i].readOnly)
  }

  /** A slice in which no bus holds an event and the plugin reports nothing but the
      ends of notes. It may be processed or frozen. */
  ghost predicate Silent(step: Step) {
    && step.RunSlice? && !step.quiet
    && (step.sounding.Some? ==> !step.sounding.value.quiet)
    && (forall p :: 0 <= p < |step.slice.heard| ==> step.slice.heard[p] == [])
    && (forall e :: e in step.slice.received ==> !IsControl(e))
  }

  /** Nothing is held and nothing waits but what is deferred. */
  ghost predicate Winding(cfg: Config, s: Synth) {
    && cfg.Valid() && Shaped(cfg, s) && Healthy(s) && s.pending == [] && s.tempo > 0.0
    && s.notes == seq(HELD_NOTES, _ => None)
    && Settled(cfg, s)
  }

  lemma {:induction false} ReadNothing(cfg: Config, s: Synth, heard: seq<seq<BusEvent>>, port: nat)
    requires cfg.Valid() && forall p :: 0 <= p < |heard| ==> heard[p] == []
    ensures ReadPorts(cfg, s, heard, port) == s
    decreases |heard| - port
  {
    if port < |heard| { ReadNothing(cfg, s, heard, port + 1); }
  }

  lemma {:induction false} EndNothing(s: Synth, e: Event, i: nat)
    requires s.notes == seq(HELD_NOTES, _ => None)
    ensures EndLoop(s, e, i) == s
    decreases HELD_NOTES - i
  {
    if i < HELD_NOTES { EndNothing(s, e, i + 1); }
  }

  lemma {:induction false} ReceiveNothing(cfg: Config, s: Synth, events: seq<Event>)
    requires Shaped(cfg, s) && s.notes == seq(HELD_NOTES, _ => None) && forall e :: e in events ==> !IsControl(e)
    ensures Receive(cfg, s, events) == s
    decreases |events|
  {
    hide IsControl, ReceiveControl, EndLoop;
    if events != [] {
      EndNothing(s, events[0], 0);
      EndLoopShape(cfg, s, events[0], 0);
      ReceiveNothing(cfg, s, events[1..]);
    }
  }

  lemma {:induction false} SendNothing(cfg: Config, s: Synth, offset: nat, i: nat)
    requires Shaped(cfg, s) && Settled(cfg, s)
    ensures SendParameters(cfg, s, offset, i) == s
    decreases |cfg.parameters| - i
  {
    hide FloatEqual, OutOfRange, Accepts;
    if i < |cfg.parameters| { SendNothing(cfg, s, offset, i + 1); }
  }

  lemma ProcessNothing(cfg: Config, s: Synth, slice: Slice, p: Sounding)
    requires Winding(cfg, s) && |p.readings| == |s.values|
    requires forall b :: 0 <= b < |p.audio| ==> |p.audio[b]| == FRAMES
    ensures var s' := Process(cfg, s, slice.offset, slice.frames, p.readings, p.audio, p.quiet);
            s' == s.(input := s'.input)
  {
    hide SendParameters, Stage, FloatEqual;
    assert FollowMaps(s, p.readings) == s.values;
    assert s.(values := s.values) == s;
    SendNothing(cfg, s, slice.offset, 0);
  }

  /** In an open job a silent slice adds its span and stages its input. */
  lemma SliceAdds(cfg: Config, s: Synth, step: Step)
    requires Good(cfg, s) && StepValid(cfg, step) && Silent(step)
    requires Winding(cfg, s) && s.open && |s.spans| < SPANS
    ensures var s' := Do(cfg, s, step);
            s' == s.(spans := s'.spans, input := s'.input) && |s'.spans| == |s.spans| + 1
  {
    hide Inv, ReadPorts, Process, Settled;
    var slice := step.slice;
    var s1 := s.(spans := s.spans + [SpanOf(s, slice)]);
    ReadNothing(cfg, s1, slice.heard, 0);
    SettledSame(cfg, s, s1);
    if step.sounding.Some? { ProcessNothing(cfg, s1, slice, step.sounding.value); }
  }

  lemma SettledSame(cfg: Config, s: Synth, s': Synth)
    requires Shaped(cfg, s) && Shaped(cfg, s') && Settled(cfg, s)
    requires s'.values == s.values && s'.sent == s.sent && s'.maps == s.maps
    ensures Settled(cfg, s')
  {
  }

  /** With none open, the first takes what waits into a new job, as far as it goes. */
  lemma SliceOpens(cfg: Config, s: Synth, step: Step)
    requires Good(cfg, s) && StepValid(cfg, step) && Silent(step) && step.slice.offset == 0
    requires Winding(cfg, s) && !s.open
    ensures var s' := Do(cfg, s, step);
            var m := Min(EVENTS, |s.deferred|);
            && s' == s.(open := true, job := s.deferred[..m], deferred := s.deferred[m..],
                        spans := s'.spans, input := s'.input)
            && |s'.spans| == 1
  {
    hide Ledger, Table, Ring, ReadPorts, Process, Settled, Receive, Drain, Valid, InOrder;
    var slice := step.slice;
    var s0 := s.(open := true, job := [], spans := []);
    DrainTakes(s0);
    var s1 := Drain(s0);
    assert Refill(s1) == s1;
    var s2 := s1.(input := Zeros(|s1.input|));
    ReceiveNothing(cfg, s2, slice.received);
    assert OpenJob(cfg, s, slice) == s2;
    assert s2.spans == [] && [] + [SpanOf(s2, slice)] == [SpanOf(s2, slice)];
    var s3 := s2.(spans := [SpanOf(s2, slice)]);
    ReadNothing(cfg, s3, slice.heard, 0);
    assert Prepare(cfg, s, slice, false) == s3;
    SettledSame(cfg, s, s3);
    if step.sounding.Some? { ProcessNothing(cfg, s3, slice, step.sounding.value); }
  }

  lemma {:induction false} SlicesAdd(cfg: Config, s: Synth, steps: seq<Step>)
    requires Good(cfg, s) && (forall i :: 0 <= i < |steps| ==> StepValid(cfg, steps[i]) && Silent(steps[i]))
    requires Winding(cfg, s) && s.open && |s.spans| + |steps| <= SPANS
    ensures var s' := Run(cfg, s, steps); s' == s.(spans := s'.spans, input := s'.input)
    decreases |steps|
  {
    hide Good, StepValid, Silent, Do, Settled;
    if steps != [] {
      DoGood(cfg, s, steps[0]);
      SliceAdds(cfg, s, steps[0]);
      var s1 := Do(cfg, s, steps[0]);
      WindingSame(cfg, s, s1);
      SlicesAdd(cfg, s1, steps[1..]);
    }
  }

  lemma WindingSame(cfg: Config, s: Synth, s': Synth)
    requires Winding(cfg, s) && Good(cfg, s')
    requires s' == s.(open := s'.open, job := s'.job, deferred := s'.deferred, spans := s'.spans, input := s'.input,
                      history := s'.history)
    ensures Winding(cfg, s')
  {
    hide Inv, FloatEqual;
  }

  /** A close hands the block over once its spans tile it. */
  lemma CloseSends(cfg: Config, s: Synth)
    requires Good(cfg, s) && Winding(cfg, s) && Tiled(s, FRAMES) && |s.spans| > 0
    ensures var s' := Do(cfg, s, Close(true, false));
            && s' == s.(open := false, history := s'.history) && Winding(cfg, s')
            && s'.history.delivered == s.history.delivered + s.job
            && s'.history.jobs == s.history.jobs + 1
  {
    hide Inv, Settled, Tiles;
    SettledSame(cfg, s, Do(cfg, s, Close(true, false)));
  }

  /** The steps of one block and its close. */
  function Closed(block: seq<Step>): seq<Step> { block + [Close(true, false)] }

  /** A block of silent slices. */
  ghost predicate SilentBlock(cfg: Config, block: seq<Step>, from: nat) {
    && Consecutive(block, from, FRAMES)
    && (forall i :: 0 <= i < |block| ==> StepValid(cfg, block[i]) && Silent(block[i]))
  }

  lemma ClosedValid(cfg: Config, block: seq<Step>, from: nat)
    requires SilentBlock(cfg, block, from)
    ensures forall i :: 0 <= i < |Closed(block)| ==> StepValid(cfg, Closed(block)[i])
    ensures forall i :: 0 <= i < 1 ==> StepValid(cfg, [Close(true, false)][i])
    ensures forall i :: 0 <= i < |block| ==> StepValid(cfg, block[i])
  {
    hide Silent;
  }

  lemma {:induction false} SilentAreSlices(block: seq<Step>)
    requires forall i :: 0 <= i < |block| ==> Silent(block[i])
    ensures Slices(block) == |block|
    decreases |block|
  {
    if block != [] { SilentAreSlices(block[1..]); }
  }

  /** The rest of an open block, to its close: the job goes out as it is. */
  lemma RestSends(cfg: Config, s: Synth, rest: seq<Step>, from: nat)
    requires Good(cfg, s) && Winding(cfg, s) && Tiled(s, from) && SilentBlock(cfg, rest, from)
    requires |s.spans| + |rest| <= SPANS
    ensures forall i :: 0 <= i < |Closed(rest)| ==> StepValid(cfg, Closed(rest)[i])
    ensures var s' := Run(cfg, s, Closed(rest));
            && s' == s.(open := false, spans := s'.spans, input := s'.input, history := s'.history) && Winding(cfg, s')
            && s'.history.delivered == s.history.delivered + s.job
            && s'.history.jobs == s.history.jobs + 1
  {
    hide Good, StepValid, Silent, Do, Settled, Tiles;
    ClosedValid(cfg, rest, from);
    SlicesAdd(cfg, s, rest);
    var s1 := Run(cfg, s, rest);
    BlockTiles(cfg, s, rest, from, FRAMES);
    WindingSame(cfg, s, s1);
    hide Tiled;
    NotEmpty(s1);
    CloseSends(cfg, s1);
    RunLast(cfg, s1);
    RunAppend(cfg, s, rest, [Close(true, false)]);
  }

  lemma NotEmpty(s: Synth)
    requires Tiled(s, FRAMES)
    ensures |s.spans| > 0
  {
  }

  lemma RunLast(cfg: Config, s: Synth)
    requires Good(cfg, s)
    ensures forall i :: 0 <= i < 1 ==> StepValid(cfg, [Close(true, false)][i])
    ensures Run(cfg, s, [Close(true, false)]) == Do(cfg, s, Close(true, false))
  {
    hide Good, Do;
    DoGood(cfg, s, Close(true, false));
    assert [Close(true, false)][1..] == [];
  }

  /** A whole silent block takes one list's worth of what waits. */
  lemma BlockTakes(cfg: Config, s: Synth, block: seq<Step>)
    requires Good(cfg, s) && Winding(cfg, s) && !s.open && SilentBlock(cfg, block, 0) && |block| <= SPANS
    ensures forall i :: 0 <= i < |Closed(block)| ==> StepValid(cfg, Closed(block)[i])
    ensures var s' := Run(cfg, s, Closed(block));
            var m := Min(EVENTS, |s.deferred|);
            && Good(cfg, s') && Winding(cfg, s') && !s'.open
            && s'.deferred == s.deferred[m..]
            && s'.history.delivered == s.history.delivered + s.deferred[..m]
            && s'.history.jobs == s.history.jobs + 1
  {
    hide Good, StepValid, Do, Settled, Tiles, Min, Tiled;
    ClosedValid(cfg, block, 0);
    var first, rest := block[0], block[1..];
    assert Silent(first);
    hide Silent;
    BlockFirst(cfg, block);
    SliceOpens(cfg, s, first);
    DoGood(cfg, s, first);
    var s1 := Do(cfg, s, first);
    WindingSame(cfg, s, s1);
    FirstTiles(cfg, s, first);
    RunFirst(cfg, s, Closed(block));
    RestSends(cfg, s1, rest, first.slice.frames);
    assert Closed(block)[1..] == Closed(rest);
  }

  lemma BlockFirst(cfg: Config, block: seq<Step>)
    requires SilentBlock(cfg, block, 0)
    ensures block != [] && block[0].RunSlice? && block[0].slice.offset == 0
    ensures SilentBlock(cfg, block[1..], block[0].slice.frames)
  {
    hide StepValid;
  }

  lemma FirstTiles(cfg: Config, s: Synth, step: Step)
    requires Good(cfg, s) && StepValid(cfg, step) && Silent(step) && step.slice.offset == 0 && step.slice.frames > 0
    requires !s.open && s.tempo > 0.0 && Healthy(Do(cfg, s, step))
    ensures Tiled(Do(cfg, s, step), step.slice.frames)
  {
    hide Good, StepValid, Do, Tiled;
    SliceTiles(cfg, s, step, 0);
  }

  // ---- any number of blocks ----

  /** The steps of some blocks, each with its close. */
  function Blocks(blocks: seq<seq<Step>>): seq<Step>
    decreases |blocks|
  {
    if blocks == [] then [] else Closed(blocks[0]) + Blocks(blocks[1..])
  }

  ghost predicate SilentBlocks(cfg: Config, blocks: seq<seq<Step>>) {
    forall i :: 0 <= i < |blocks| ==> SilentBlock(cfg, blocks[i], 0) && |blocks[i]| <= SPANS
  }

  lemma {:induction false} BlocksValid(cfg: Config, blocks: seq<seq<Step>>)
    requires SilentBlocks(cfg, blocks)
    ensures forall i :: 0 <= i < |Blocks(blocks)| ==> StepValid(cfg, Blocks(blocks)[i])
    decreases |blocks|
  {
    hide StepValid, SilentBlock;
    if blocks != [] {
      BlocksValid(cfg, blocks[1..]);
      ClosedValid(cfg, blocks[0], 0);
      StepsAppend(cfg, Closed(blocks[0]), Blocks(blocks[1..]));
    }
  }

  /** The first `n` lists' worth is the first list's and then that of `n - 1`. */
  lemma ListsAdd(es: seq<Event>, n: nat)
    ensures var m := Min(EVENTS, |es|);
            && m <= |es| && Min(0, |es|) == 0
            && (n > 0 ==>
                  var k, m1 := Min(n * EVENTS, |es|), Min((n - 1) * EVENTS, |es[m..]|);
                  && m1 <= |es[m..]| && k <= |es|
                  && es[m..][m1..] == es[k..] && es[..m] + es[m..][..m1] == es[..k])
  {
  }

  lemma {:induction false} BlocksTake(cfg: Config, s: Synth, blocks: seq<seq<Step>>)
    requires Good(cfg, s) && Winding(cfg, s) && !s.open && SilentBlocks(cfg, blocks)
    ensures forall i :: 0 <= i < |Blocks(blocks)| ==> StepValid(cfg, Blocks(blocks)[i])
    ensures var s' := Run(cfg, s, Blocks(blocks));
            var m := Min(|blocks| * EVENTS, |s.deferred|);
            && Winding(cfg, s')
            && s'.deferred == s.deferred[m..]
            && s'.history.delivered == s.history.delivered + s.deferred[..m]
            && s'.history.jobs == s.history.jobs + |blocks|
    decreases |blocks|
  {
    hide Good, StepValid, SilentBlock, Do, Min, Winding;
    BlocksValid(cfg, blocks);
    ListsAdd(s.deferred, |blocks|);
    if blocks != [] {
      BlockTakes(cfg, s, blocks[0]);
      var s1 := Run(cfg, s, Closed(blocks[0]));
      BlocksTake(cfg, s1, blocks[1..]);
      RunAppend(cfg, s, Closed(blocks[0]), Blocks(blocks[1..]));
    }
  }

  // ---- after a stop ----

  /** How many blocks carry `n` events. */
  function BlocksFor(n: nat): nat { (n + EVENTS - 1) / EVENTS }

  lemma BlocksEnough(n: nat, waiting: nat)
    ensures Min(n * EVENTS, waiting) == waiting <==> n >= BlocksFor(waiting)
  {
  }

  /** What a stop leaves: every note choked, the chokes the job has room for in it,
      and the others waiting in order. */
  lemma StopLeaves(cfg: Config, s: Synth, offset: nat)
    requires Good(cfg, s) && Healthy(s) && s.open && s.deferred == [] && s.tempo > 0.0 && Settled(cfg, s)
    ensures PortsKnown(cfg, s.notes)
    ensures var s' := Do(cfg, s, Stop(Everything, offset));
            var es := Chokes(cfg, s.notes, offset, 0);
            var m := Min(Room(s.job, offset), |es|);
            && Good(cfg, s') && Winding(cfg, s') && s'.open && s'.spans == s.spans
            && s'.job == s.job + es[..m] && s'.deferred == Strip(es[m..])
            && s'.history.delivered == s.history.delivered && s'.history.jobs == s.history.jobs
  {
    hide ReleaseLoop, Governs, Settled, Chokes, Room, Ledger, Ring, Wire, UniqueKeys, Tiles;
    DoGood(cfg, s, Stop(Everything, offset));
    ReleaseInv(cfg, s, Everything, offset);
    var s' := Release(cfg, s, Everything, offset);
    ListOf(s);
    ListOf(s');
    StopLoop(cfg, s, offset, 0);
    SettledSame(cfg, s, s');
    assert s'.notes == seq(HELD_NOTES, _ => None);
  }

  lemma ListOf(s: Synth)
    requires Wire(s)
    ensures IsList(s.job) && (s.open ==> s.pending == [])
  {
  }

  lemma StopOrder(delivered: seq<Event>, job: seq<Event>, es: seq<Event>, m: nat, k: nat)
    requires m <= k <= |es|
    ensures |Strip(es[m..])| == |es| - m
    ensures Strip(delivered + (job + es[..m]) + Strip(es[m..])[..k - m]) == Strip(delivered + job + es[..k])
  {
    assert es[..k] == es[..m] + es[m..k];
    assert delivered + job + es[..k] == (delivered + (job + es[..m])) + es[m..k];
    assert Strip(es[m..])[..k - m] == Strip(es[m..k]);
    StripAppend(delivered + (job + es[..m]), es[m..k]);
    StripAppend(delivered + (job + es[..m]), Strip(es[m..k]));
    assert Strip(Strip(es[m..k])) == Strip(es[m..k]);
  }

  /** How many of `total` events wait once a job with room for `room` of them and `n`
      whole lists took what they could. */
  function Left(total: nat, room: nat, n: nat): (k: nat)
    ensures k <= total
  {
    var waiting := total - Min(room, total);
    waiting - Min(n * EVENTS, waiting)
  }

  /** A stop, then the rest of its block and whole blocks. */
  function StopSteps(offset: nat, rest: seq<Step>, blocks: seq<seq<Step>>): seq<Step> {
    [Stop(Everything, offset)] + Closed(rest) + Blocks(blocks)
  }

  lemma StopStepsValid(cfg: Config, offset: nat, from: nat, rest: seq<Step>, blocks: seq<seq<Step>>)
    requires SilentBlock(cfg, rest, from) && SilentBlocks(cfg, blocks)
    ensures forall i :: 0 <= i < |StopSteps(offset, rest, blocks)| ==> StepValid(cfg, StopSteps(offset, rest, blocks)[i])
  {
    hide SilentBlock, SilentBlocks, Closed, Blocks;
    ClosedValid(cfg, rest, from);
    BlocksValid(cfg, blocks);
    StopAlone(cfg, offset);
    hide StepValid;
    StepsAppend(cfg, [Stop(Everything, offset)], Closed(rest));
    StepsAppend(cfg, [Stop(Everything, offset)] + Closed(rest), Blocks(blocks));
  }

  lemma StopAlone(cfg: Config, offset: nat)
    ensures forall i :: 0 <= i < 1 ==> StepValid(cfg, [Stop(Everything, offset)][i])
  {
  }

  /** The state that run leads to. */
  ghost function StopRun(cfg: Config, s: Synth, offset: nat, from: nat, rest: seq<Step>, blocks: seq<seq<Step>>): Synth
    requires Good(cfg, s) && SilentBlock(cfg, rest, from) && SilentBlocks(cfg, blocks)
  {
    StopStepsValid(cfg, offset, from, rest, blocks);
    Run(cfg, s, StopSteps(offset, rest, blocks))
  }

  /** A stop of everything in an open job with nothing deferred, on any held notes
      and any ports, then the rest of its block and any number of blocks with no
      other traffic. The table is empty and nothing fails; the current job takes
      the chokes it has room for, and each block after it one list's worth of the
      others, so after `n` blocks the plugin has got, after what the job held, all
      but the last chokes in slot order -- every one of them if and only if `n` is
      at least the number of lists the others fill. */
  lemma StopDrains(cfg: Config, s: Synth, offset: nat, from: nat, rest: seq<Step>, blocks: seq<seq<Step>>)
    requires Good(cfg, s) && Healthy(s) && s.open && s.deferred == [] && s.tempo > 0.0 && Settled(cfg, s)
    requires Tiled(s, from) && SilentBlock(cfg, rest, from) && |s.spans| + |rest| <= SPANS
    requires SilentBlocks(cfg, blocks)
    ensures PortsKnown(cfg, s.notes)
    ensures var s' := StopRun(cfg, s, offset, from, rest, blocks);
            var es := Chokes(cfg, s.notes, offset, 0);
            var left := Left(|es|, Room(s.job, offset), |blocks|);
            && Healthy(s') && s'.notes == seq(HELD_NOTES, _ => None)
            && |s'.deferred| == left
            && (left == 0 <==> |blocks| >= BlocksFor(Left(|es|, Room(s.job, offset), 0)))
            && Strip(s'.history.delivered) == Strip(s.history.delivered + s.job + es[..|es| - left])
            && s'.history.jobs == s.history.jobs + 1 + |blocks|
  {
    hide Good, StepValid, SilentBlock, SilentBlocks, Do, Tiled, Settled, Chokes, Room, Min, BlocksFor, Run, Tiles;
    var stop := Stop(Everything, offset);
    RunStop(cfg, s, stop);
    StopLeaves(cfg, s, offset);
    var es := Chokes(cfg, s.notes, offset, 0);
    var m := Min(Room(s.job, offset), |es|);
    var s1 := Do(cfg, s, stop);
    StillTiled(s, s1, from);
    ClosedValid(cfg, rest, from);
    RestSends(cfg, s1, rest, from);
    var s2 := Run(cfg, s1, Closed(rest));
    BlocksTake(cfg, s2, blocks);
    var s3 := Run(cfg, s2, Blocks(blocks));
    RunAppend(cfg, s, [stop], Closed(rest));
    RunAppend(cfg, s, [stop] + Closed(rest), Blocks(blocks));
    var waiting := |s2.deferred|;
    var taken := Min(|blocks| * EVENTS, waiting);
    ListsAdd(s2.deferred, |blocks|);
    BlocksEnough(|blocks|, waiting);
    MinRange(|blocks| * EVENTS, waiting);
    MinRange(Room(s.job, offset), |es|);
    StopOrder(s.history.delivered, s.job, es, m, m + taken);
  }

  lemma MinRange(a: nat, b: nat)
    ensures Min(a, b) <= a && Min(a, b) <= b
  {
  }

  lemma StillTiled(s: Synth, s': Synth, from: nat)
    requires Tiled(s, from) && s'.open && s'.spans == s.spans
    ensures Tiled(s', from)
  {
  }

  lemma RunStop(cfg: Config, s: Synth, stop: Step)
    requires Good(cfg, s) && stop.Stop?
    ensures StepValid(cfg, stop) && forall i :: 0 <= i < 1 ==> StepValid(cfg, [stop][i])
    ensures Good(cfg, Do(cfg, s, stop)) && Run(cfg, s, [stop]) == Do(cfg, s, stop)
  {
    hide Good, Do;
    DoGood(cfg, s, stop);
    assert [stop][1..] == [];
  }
}
